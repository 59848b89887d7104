/** The claim of a run's attempt, and the lease it grants (`ClaimRunAttempt`, store.go). */
module RunClaims {
  import opened Common

  const ENDED := {"succeeded", "failed", "canceled"}

  /** The part of a stored run that claims read and write. */
  datatype Run = Run(status: string, attemptId: string, attempts: nat, lease: Option<int>)

  /** A claim at `now` for a lease until `until`. */
  datatype Claim = Claim(attemptId: string, now: int, until: int)

  /** Another attempt holds the run, and its lease has not run out. */
  predicate HeldByOther(run: Run, c: Claim) {
    run.attemptId != "" && run.attemptId != c.attemptId && (run.lease.None? || run.lease.value > c.now)
  }

  function Claimed(run: Run, c: Claim): Run {
    if run.status in ENDED || c.attemptId == "" || HeldByOther(run, c) then run
    else
      var attempts := if run.attemptId == c.attemptId then run.attempts else run.attempts + 1;
      Run("running", c.attemptId, attempts, Some(c.until))
  }

  class Store {
    var runs: map<string, Run>

    constructor (runs: map<string, Run>)
      ensures this.runs == runs
    {
      this.runs := runs;
    }

    /** The status of an ended run, which nothing changes; "running" for a run that is claimed now; or nothing,
        for an unknown run, a blank attempt, or a run that another attempt holds. */
    method ClaimRunAttempt(id: string, c: Claim) returns (status: Option<string>)
      modifies this
      ensures runs == if id in old(runs) then old(runs)[id := Claimed(old(runs)[id], c)] else old(runs)
      ensures id in old(runs) && old(runs)[id].status in {"succeeded", "failed", "canceled"} ==>
                status == Some(old(runs)[id].status) && runs == old(runs)
      ensures id in old(runs) && old(runs)[id].status !in {"succeeded", "failed", "canceled"} ==>
                (status == Some("running") && runs[id].attemptId == c.attemptId && runs[id].lease == Some(c.until))
                || (status == None && runs == old(runs))
      ensures status.None? <==>
                id !in old(runs)
                || (old(runs)[id].status !in {"succeeded", "failed", "canceled"}
                    && var run := old(runs)[id];
                       c.attemptId == ""
                       || (run.attemptId != "" && run.attemptId != c.attemptId
                           && (run.lease.None? || run.lease.value > c.now)))
    {
      if id !in runs {
        return None;
      }
      var run := runs[id];
      if run.status in ENDED {
        return Some(run.status);
      }
      if c.attemptId == "" {
        return None;
      }
      if run.attemptId != "" && run.attemptId != c.attemptId && (run.lease.None? || run.lease.value > c.now) {
        return None;
      }
      if run.attemptId != c.attemptId {
        run := run.(attempts := run.attempts + 1);
      }
      run := run.(status := "running", attemptId := c.attemptId, lease := Some(c.until));
      runs := runs[id := run];
      return Some(run.status);
    }
  }

  function Claims(run: Run, claims: seq<Claim>): Run {
    Iterate(Claimed, run, claims)
  }

  /** A lease excludes: as long as the attempt that holds the run lets it run no shorter, no claim of another
      attempt before its end succeeds, whoever claims in between and how often. */
  lemma {:induction false} LeaseExcludes(run: Run, claims: seq<Claim>, end: int)
    requires run.status !in ENDED && run.attemptId != "" && run.lease.Some? && run.lease.value >= end
    requires forall i :: 0 <= i < |claims| ==>
               claims[i].now < end && (claims[i].attemptId == run.attemptId ==> claims[i].until >= end)
    ensures var held := Claims(run, claims);
            && held.attemptId == run.attemptId && held.attempts == run.attempts
            && held.status !in ENDED && held.lease.Some? && held.lease.value >= end
            && forall c: Claim :: c.now < end && c.attemptId != run.attemptId ==>
                 HeldByOther(held, c) && Claimed(held, c) == held
  {
    if claims != [] {
      LeaseExcludes(run, claims[..|claims| - 1], end);
    }
  }

  /** And it is no longer than that: at its end any other attempt may take the run over. */
  lemma LeaseRunsOut(run: Run, c: Claim)
    requires run.status !in ENDED && c.attemptId != ""
    requires run.lease.Some? && c.now >= run.lease.value
    ensures Claimed(run, c) == Run("running", c.attemptId,
                                   run.attempts + (if run.attemptId == c.attemptId then 0 else 1), Some(c.until))
  {
  }
}

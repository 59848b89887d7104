/** When a status update gives a run's quota reservation back (quota/releasing_repository.go): calls read the
  run, update it, and compare; other calls may come between. */
module ReleasingRepository {
  import opened Common
  import opened RunSink

  /** What a call does about the reservation: nothing, release it, or fail to find the run's project. */
  datatype Outcome = Kept | Release | Unfound

  /** A call between its steps; `before` is the status it read, if the read worked. */
  datatype Caller =
    | Reading(target: Status)
    | Updating(target: Status, before: Option<Status>)
    | Done(outcome: Outcome)

  datatype Tracking = Tracking(status: Status, callers: seq<Caller>)

  datatype Action = Begin(target: Status) | Read(i: nat, ok: bool) | Update(i: nat, ok: bool, project: bool)

  /** The repository's own rule: a terminal status stays. */
  function Updated(status: Status, target: Status): Status {
    if Terminal(status) then status else target
  }

  /** A read that failed leaves a blank run, whose status is not terminal. */
  predicate Ends(before: Option<Status>, after: Status) {
    !(before.Some? && Terminal(before.value)) && Terminal(after)
  }

  function Decide(before: Option<Status>, after: Status, project: bool): Outcome {
    if !Ends(before, after) then Kept else if project then Release else Unfound
  }

  function Step(s: Tracking, a: Action): Tracking {
    match a
    case Begin(target) => s.(callers := s.callers + [Reading(target)])
    case Read(i, ok) =>
      if i >= |s.callers| || !s.callers[i].Reading? then s
      else s.(callers := s.callers[i := Updating(s.callers[i].target, if ok then Some(s.status) else None)])
    case Update(i, ok, project) =>
      if i >= |s.callers| || !s.callers[i].Updating? then s
      else if !ok then s.(callers := s.callers[i := Done(Kept)])
      else
        var after := Updated(s.status, s.callers[i].target);
        Tracking(after, s.callers[i := Done(Decide(s.callers[i].before, after, project))])
  }

  function Stepper(): (Tracking, Action) -> Tracking {
    (s: Tracking, a: Action) => Step(s, a)
  }

  function Run(actions: seq<Action>): Tracking {
    Iterate(Stepper(), Tracking(Running, []), actions)
  }

  predicate CallerOk(s: Tracking, c: Caller) {
    match c
    case Reading(_) => true
    case Updating(_, before) => before.Some? && Terminal(before.value) ==> Terminal(s.status)
    case Done(outcome) => outcome != Kept ==> Terminal(s.status)
  }

  predicate Has(s: Tracking, outcome: Outcome) {
    exists i :: 0 <= i < |s.callers| && s.callers[i] == Done(outcome)
  }

  ghost predicate Inv(s: Tracking) {
    && (forall i :: 0 <= i < |s.callers| ==> CallerOk(s, s.callers[i]))
    && (Terminal(s.status) ==> Has(s, Release) || Has(s, Unfound))
  }

  lemma HasStays(s: Tracking, a: Action, outcome: Outcome)
    requires Has(s, outcome)
    ensures Has(Step(s, a), outcome)
  {
    var k :| 0 <= k < |s.callers| && s.callers[k] == Done(outcome);
    assert Step(s, a).callers[k] == Done(outcome);
  }

  lemma StepKeeps(s: Tracking, a: Action)
    requires Inv(s)
    ensures Inv(Step(s, a)) && (Terminal(s.status) ==> Step(s, a).status == s.status)
  {
    var t := Step(s, a);
    forall i | 0 <= i < |t.callers| ensures CallerOk(t, t.callers[i]) {
      assert i < |s.callers| ==> CallerOk(s, s.callers[i]);
    }
    if Terminal(s.status) {
      if Has(s, Release) { HasStays(s, a, Release); } else { HasStays(s, a, Unfound); }
    } else if a.Update? && a.i < |s.callers| {
      assert CallerOk(s, s.callers[a.i]);
      assert Terminal(t.status) ==> t.callers[a.i] == Done(if a.project then Release else Unfound);
    }
  }

  /** Over all interleavings a release comes neither before the end nor without it, and a run does not end
      without its release, unless the call that ended it could not find the run's project. */
  lemma {:induction false} ReleasedIffEnded(actions: seq<Action>)
    ensures Inv(Run(actions))
    ensures Terminal(Run(actions).status) <==> Has(Run(actions), Release) || Has(Run(actions), Unfound)
    ensures !Has(Run(actions), Unfound) ==> (Terminal(Run(actions).status) <==> Has(Run(actions), Release))
  {
    if actions != [] {
      ReleasedIffEnded(actions[..|actions| - 1]);
      StepKeeps(Run(actions[..|actions| - 1]), actions[|actions| - 1]);
    }
    var s := Run(actions);
    forall i | 0 <= i < |s.callers| && s.callers[i].Done? && s.callers[i].outcome != Kept ensures Terminal(s.status) {
      assert CallerOk(s, s.callers[i]);
    }
  }

  // ---- one call at a time ----

  datatype Change = Change(target: Status, read: bool, update: bool, project: bool)

  class Repository {
    var status: Status

    constructor ()
      ensures status == Running
    {
      status := Running;
    }

    /** `outcome` says whether the limiter's `ReleaseRun` is called. */
    method UpdateRunStatus(u: Change) returns (failed: bool, outcome: Outcome)
      modifies this
      ensures failed == !u.update
      ensures status == After(old(status), u) && outcome == OutcomeOf(old(status), u)
    {
      var before := if u.read then Some(status) else None;
      if !u.update {
        return true, Kept;
      }
      if !(Terminal(status) && status != u.target) {
        status := u.target;
      }
      if !(before.Some? && Terminal(before.value)) && Terminal(status) {
        return false, if u.project then Release else Unfound;
      }
      return false, Kept;
    }
  }

  function After(status: Status, u: Change): Status {
    if u.update then Updated(status, u.target) else status
  }

  function OutcomeOf(status: Status, u: Change): Outcome {
    if !u.update then Kept
    else Decide(if u.read then Some(status) else None, Updated(status, u.target), u.project)
  }

  function StatusAfter(updates: seq<Change>): Status {
    if updates == [] then Running else After(StatusAfter(updates[..|updates| - 1]), updates[|updates| - 1])
  }

  function CountOf(updates: seq<Change>, outcome: Outcome): nat {
    if updates == [] then 0
    else
      CountOf(updates[..|updates| - 1], outcome)
      + if OutcomeOf(StatusAfter(updates[..|updates| - 1]), updates[|updates| - 1]) == outcome then 1 else 0
  }

  /** Updates that could not read the run and found it ended. */
  function Blind(updates: seq<Change>): nat {
    if updates == [] then 0
    else
      var front, last := updates[..|updates| - 1], updates[|updates| - 1];
      Blind(front) + if !last.read && last.update && Terminal(StatusAfter(front)) then 1 else 0
  }

  /** Updates made one after another release a run once when it ends, and again only for each later update
      that fails to read it; a release that cannot find the run's project is missed. */
  lemma {:induction false} ReleasedOnce(updates: seq<Change>)
    ensures CountOf(updates, Release) + CountOf(updates, Unfound)
            == Blind(updates) + if Terminal(StatusAfter(updates)) then 1 else 0
    ensures (forall i :: 0 <= i < |updates| ==> updates[i].project) ==> CountOf(updates, Unfound) == 0
  {
    if updates != [] {
      ReleasedOnce(updates[..|updates| - 1]);
    }
  }

  /** Overlapping updates may both release: the run's marker decides which of them takes effect. */
  lemma BothRelease() returns (actions: seq<Action>)
    ensures Run(actions).callers == [Done(Release), Done(Release)]
  {
    actions := [Begin(Succeeded), Begin(Canceled), Read(0, true), Read(1, true),
                Update(0, true, true), Update(1, true, true)];
    var pair := Tracking(Running, [Reading(Succeeded), Reading(Canceled)]);
    var half := Tracking(Running, [Updating(Succeeded, Some(Running)), Updating(Canceled, Some(Running))]);
    PairRun(actions[..2], pair);
    Then(actions[..2], actions[2]);
    Then(actions[..3], actions[3]);
    assert actions[..2] + [actions[2]] == actions[..3] && actions[..3] + [actions[3]] == actions[..4];
    assert Run(actions[..4]) == half;
    Then(actions[..4], actions[4]);
    Then(actions[..5], actions[5]);
    assert actions[..4] + [actions[4]] == actions[..5] && actions[..5] + [actions[5]] == actions;
  }

  lemma Then(actions: seq<Action>, a: Action)
    ensures Run(actions + [a]) == Step(Run(actions), a)
  {
    IterateThen(Stepper(), Tracking(Running, []), actions, a);
  }

  lemma PairRun(actions: seq<Action>, s: Tracking)
    requires actions == [Begin(Succeeded), Begin(Canceled)]
    requires s == Tracking(Running, [Reading(Succeeded), Reading(Canceled)])
    ensures Run(actions) == s
  {
    Then([], actions[0]);
    Then([actions[0]], actions[1]);
    assert [] + [actions[0]] == [actions[0]] && [actions[0]] + [actions[1]] == actions;
    assert Run([actions[0]]).callers == [Reading(Succeeded)];
  }
}

/** Main results about the run-quota protocol, for every interleaving of requests and releases. */
module QuotaTheorems {
  import opened Common
  import opened QuotaCharges
  import opened QuotaKeys
  import opened QuotaProtocol
  import opened QuotaLedger
  import opened QuotaRelease
  import opened QuotaSafety

  /** Every counter equals what requests, markers and releases answer for, at every step; so it
      never goes negative, which is what a second decrement would do. */
  lemma LedgerConservation(cfg: Config, actions: seq<Action>, k: Key)
    ensures var s := Run(cfg, INIT, actions);
            && Count(s.counters, k) == TotalHeld(s, k)
            && 0 <= Count(s.counters, k)
  {
    Reachable(cfg, actions);
    var s := Run(cfg, INIT, actions);
    SumNonNegative(s.requests, HeldAt(k));
    SumNonNegative(s.releases, ReleaseHeldAt(k));
  }

  // ---- limits ----

  /** `limit` is at least the limit of every project that has a chat and whose name sanitizes to the one in `k`:
      no other project gets past the check of its chat. */
  predicate Governs(cfg: Config, k: Key, limit: int) {
    && !k.RunMarker? && 0 <= limit
    && forall c :: c in cfg.chats && SafeKey(cfg.chats[c].project) == k.project ==>
         LimitFor(PolicyOf(cfg, cfg.chats[c].project), k) <= limit
  }

  lemma WonIsHeld(s: State, k: Key)
    ensures TotalWon(s, k) <= TotalHeld(s, k)
  {
    SumMonotone(s.requests, WonAt(k), HeldAt(k));
    SumMonotone(s.releases, ReleaseWonAt(k), ReleaseHeldAt(k));
  }

  /** A request past the check of its chat is held to a limit that is governed. */
  lemma GovernedLimit(cfg: Config, r: Request, k: Key, limit: int)
    requires Governs(cfg, k, limit) && r.ask.policy == PolicyOf(cfg, r.ask.actor.project)
    requires CanRead(cfg, r.ask.actor, r.ask.chat) && k.project == SafeKey(r.ask.actor.project)
    ensures LimitFor(r.ask.policy, k) <= limit
  {
  }

  lemma StepRequestWins(cfg: Config, s: State, a: Action, k: Key, limit: int)
    requires Inv(cfg, s) && Governs(cfg, k, limit) && TotalWon(s, k) <= limit
    requires a.StepRequest? && a.i < |s.requests|
    ensures TotalWon(Step(cfg, s, a), k) <= limit
  {
    var r := s.requests[a.i];
    var r' := StepOf(cfg, r, a.ok, a.hourStamp, a.dayStamp, s.counters).0;
    RequestBalances(cfg, r, a.ok, a.hourStamp, a.dayStamp, s.counters, k);
    if Won(r', k) > Won(r, k) {
      GovernedLimit(cfg, r, k, limit);
    }
    SumUpdate(s.requests, a.i, r', WonAt(k));
    WonIsHeld(s, k);
  }

  lemma StepReleaseWins(cfg: Config, s: State, a: Action, k: Key)
    requires Inv(cfg, s) && a.StepRelease? && a.j < |s.releases|
    ensures TotalWon(Step(cfg, s, a), k) <= TotalWon(s, k)
  {
    var l := s.releases[a.j];
    assert ReleaseOk(s.requests, l);
    var (r', l', _) := StepOfRelease(s.requests[l.run], l, a.ok);
    ReleaseBalances(s.requests[l.run], l, a.ok, k);
    SumUpdate(s.requests, l.run, r', WonAt(k));
    SumUpdate(s.releases, a.j, l', ReleaseWonAt(k));
  }

  lemma StepWins(cfg: Config, s: State, a: Action, k: Key, limit: int)
    requires Inv(cfg, s) && Governs(cfg, k, limit) && TotalWon(s, k) <= limit
    ensures TotalWon(Step(cfg, s, a), k) <= limit
  {
    match a
    case Arrive(actor, chat, hint) =>
      SumAppend(s.requests, NewRequest(cfg, actor, chat, hint), WonAt(k));
    case StepRequest(i, ok, hs, ds) =>
      if i < |s.requests| {
        StepRequestWins(cfg, s, a, k, limit);
      }
    case Terminal(run, _) =>
      if run < |s.requests| && Releasable(cfg, s.requests[run]) {
        SumAppend(s.releases, Step(cfg, s, a).releases[|s.releases|], ReleaseWonAt(k));
      }
    case StepRelease(j, ok) =>
      if j < |s.releases| {
        StepReleaseWins(cfg, s, a, k);
      }
  }

  lemma {:induction false} WonBounded(cfg: Config, actions: seq<Action>, k: Key, limit: int)
    requires Governs(cfg, k, limit)
    ensures TotalWon(Run(cfg, INIT, actions), k) <= limit
  {
    if actions != [] {
      var n := |actions| - 1;
      WonBounded(cfg, actions[..n], k, limit);
      Reachable(cfg, actions[..n]);
      StepWins(cfg, Run(cfg, INIT, actions[..n]), actions[n], k, limit);
    }
  }

  /** How far a settled run's usage on `k` exceeds what it had reserved. */
  function Overrun(l: Release, k: Key): nat {
    ReleaseHeld(l, k) - ReleaseWon(l, k)
  }

  function OverrunAt(k: Key): Release -> int { (l: Release) => Overrun(l, k) }

  lemma {:induction false} SumOverrun(ls: seq<Release>, k: Key)
    ensures Sum(ls, ReleaseHeldAt(k)) == Sum(ls, ReleaseWonAt(k)) + Sum(ls, OverrunAt(k))
  {
    if ls != [] {
      SumOverrun(ls[..|ls| - 1], k);
    }
  }

  /** Admission safety: whatever the interleaving and whichever store calls fail, what admitted
      reservations hold on a counter, plus what their releases still hold or have settled there,
      exceeds the limit by no more than the usage runs had beyond their own reservation. For the
      active and hour counters that excess is zero. */
  lemma AdmissionSafety(cfg: Config, actions: seq<Action>, k: Key, limit: int)
    requires Governs(cfg, k, limit)
    ensures var s := Run(cfg, INIT, actions);
            && Sum(s.requests, AdmittedAt(k)) + Sum(s.releases, ReleaseHeldAt(k))
               <= limit + Sum(s.releases, OverrunAt(k))
            && (!k.Tokens? ==> Sum(s.releases, OverrunAt(k)) == 0)
  {
    var s := Run(cfg, INIT, actions);
    Reachable(cfg, actions);
    WonBounded(cfg, actions, k, limit);
    SumMonotone(s.requests, AdmittedAt(k), WonAt(k));
    SumOverrun(s.releases, k);
    if !k.Tokens? {
      forall l | l in s.releases ensures Overrun(l, k) == 0 {
        assert ReleaseOk(s.requests, l);
      }
      SumEqual(s.releases, OverrunAt(k), (l: Release) => 0);
      SumZero(s.releases);
    }
  }

  /** No finished run used more tokens than it was charged. */
  predicate Frugal(s: State) {
    forall l :: l in s.releases && l.run < |s.requests| && s.requests[l.run].charged.Some? ==>
      l.actual <= s.requests[l.run].charged.value.amount
  }

  /** So if no run uses more than it reserved, what is admitted and what is settled never exceed the limit,
      for tokens as for slots and hours. */
  lemma NeverOverTheLimit(cfg: Config, actions: seq<Action>, k: Key, limit: int)
    requires Governs(cfg, k, limit) && Frugal(Run(cfg, INIT, actions))
    ensures var s := Run(cfg, INIT, actions);
            Sum(s.requests, AdmittedAt(k)) + Sum(s.releases, ReleaseHeldAt(k)) <= limit
  {
    var s := Run(cfg, INIT, actions);
    AdmissionSafety(cfg, actions, k, limit);
    AlwaysTied(cfg, actions);
    forall l | l in s.releases ensures Overrun(l, k) == 0 {
      var j :| 0 <= j < |s.releases| && s.releases[j] == l;
      assert ReleaseTied(s.requests[s.releases[j].run], s.releases[j]);
    }
    SumEqual(s.releases, OverrunAt(k), (l: Release) => 0);
    SumZero(s.releases);
  }

  /** No chat belongs to another project whose name sanitizes to the same. */
  predicate Alone(cfg: Config, project: string) {
    forall c :: c in cfg.chats && SafeKey(cfg.chats[c].project) == SafeKey(project) ==> cfg.chats[c].project == project
  }

  /** The limit of a project's own policy for counter `k`; where it is switched off, nothing is ever counted. */
  function OwnLimit(cfg: Config, project: string, k: Key): nat {
    var limit := LimitFor(PolicyOf(cfg, project), k);
    if limit > 0 then limit else 0
  }

  /** A project's own limit holds, whatever the default and the other projects' policies are: its slots and runs
      per hour never exceed it, nor do its tokens if no run uses more than it was charged. */
  lemma OwnLimitHolds(cfg: Config, actions: seq<Action>, project: string, k: Key)
    requires Alone(cfg, project) && !k.RunMarker? && k.project == SafeKey(project)
    ensures var s := Run(cfg, INIT, actions);
            !k.Tokens? || Frugal(s) ==>
              Sum(s.requests, AdmittedAt(k)) + Sum(s.releases, ReleaseHeldAt(k)) <= OwnLimit(cfg, project, k)
  {
    assert Governs(cfg, k, OwnLimit(cfg, project, k));
    AdmissionSafety(cfg, actions, k, OwnLimit(cfg, project, k));
    if Frugal(Run(cfg, INIT, actions)) {
      NeverOverTheLimit(cfg, actions, k, OwnLimit(cfg, project, k));
    }
  }

  // ---- settlement ----

  /** Settle exactly once: a committed run's marker is still there or was removed by exactly one
      release or by the rollback, and every release of the run acts on the keys that were incremented: it
      frees the run's own slot, and it settles against the very line of tokens the run was charged. */
  lemma SettleExactlyOnce(cfg: Config, actions: seq<Action>, i: nat)
    requires i < |Run(cfg, INIT, actions).requests|
    ensures var s := Run(cfg, INIT, actions);
            var r := s.requests[i];
            && Sum(s.releases, TookAt(i)) + (if r.tookBack then 1 else 0)
               == (if r.marked && r.marker.None? then 1 else 0)
            && (forall l :: l in s.releases && l.run == i ==>
                  && l.key == ActiveKey(r.ask.actor)
                  && (l.settled.Some? ==> Is(r.charged, l.settled.value.key, l.settled.value.reserved)))
  {
    Reachable(cfg, actions);
    AlwaysTied(cfg, actions);
    var s := Run(cfg, INIT, actions);
    assert Settlements(s, i) == if s.requests[i].marked then 1 else 0;
    SumNonNegative(s.releases, TookAt(i));
    assert s.requests[i] in s.requests;
    forall l | l in s.releases && l.run == i
      ensures l.key == ActiveKey(s.requests[i].ask.actor)
      ensures l.settled.Some? ==> Is(s.requests[i].charged, l.settled.value.key, l.settled.value.reserved)
    {
      assert ReleaseOk(s.requests, l);
      var j :| 0 <= j < |s.releases| && s.releases[j] == l;
      assert ReleaseTied(s.requests[s.releases[j].run], s.releases[j]);
    }
  }

  // ---- quiescence ----

  /** All handlers have returned. */
  predicate Returned(s: State) {
    (forall r :: r in s.requests ==> r.pc.Done?) && (forall l :: l in s.releases ==> l.pc.Finished?)
  }

  /** Runs that still hold an active slot on `k`. */
  function OutstandingSlotAt(k: Key): Request -> int {
    (r: Request) => if r.marker.Some? && r.marker.value.active && ActiveKey(r.ask.actor) == k then 1 else 0
  }

  /** Messages accepted with their hour counted on `k`. */
  function AcceptedHourAt(k: Key): Request -> int {
    (r: Request) =>
      if r.pc == Done(Accepted) && r.hour.Some? && r.hour.value.key == k then 1 else 0
  }

  /** What runs with a marker were charged on `k`. */
  function OutstandingTokensAt(k: Key): Request -> int {
    (r: Request) =>
      if r.marker.Some? && r.charged.Some? && r.charged.value.key == k then r.charged.value.amount else 0
  }

  /** What the runs used whose marker a release took and that were charged on `k`. */
  function TakenUsageAt(requests: seq<Request>, k: Key): Release -> int {
    (l: Release) =>
      if l.took && l.run < |requests| && requests[l.run].charged.Some? && requests[l.run].charged.value.key == k
      then l.actual else 0
  }

  /** When everything has returned and no decrement or settlement failed on the way: an active counter is the
      number of runs not yet released, an hour counter the number of messages accepted in that hour, and a token
      counter what the runs not yet released were charged plus what the released ones used. */
  lemma QuietLedger(cfg: Config, actions: seq<Action>, k: Key)
    requires Smooth(cfg, actions) && Returned(Run(cfg, INIT, actions))
    ensures var s := Run(cfg, INIT, actions);
            && (k.Active? ==> Count(s.counters, k) == Sum(s.requests, OutstandingSlotAt(k)))
            && (k.Hour? ==> Count(s.counters, k) == Sum(s.requests, AcceptedHourAt(k)))
            && (k.Tokens? ==>
                  Count(s.counters, k)
                  == Sum(s.requests, OutstandingTokensAt(k)) + Sum(s.releases, TakenUsageAt(s.requests, k)))
  {
    Reachable(cfg, actions);
    AlwaysTied(cfg, actions);
    AlwaysCharged(cfg, actions);
    SmoothIsLossless(cfg, actions);
    QuietRequests(cfg, Run(cfg, INIT, actions), k);
    QuietReleases(cfg, Run(cfg, INIT, actions), k);
  }

  lemma QuietRequests(cfg: Config, s: State, k: Key)
    requires Inv(cfg, s) && Tied(cfg, s) && Charges(cfg, s) && Lossless(s) && Returned(s)
    ensures k.Active? ==> Sum(s.requests, HeldAt(k)) == Sum(s.requests, OutstandingSlotAt(k))
    ensures k.Hour? ==> Sum(s.requests, HeldAt(k)) == Sum(s.requests, AcceptedHourAt(k))
    ensures k.Tokens? ==> Sum(s.requests, HeldAt(k)) == Sum(s.requests, OutstandingTokensAt(k))
  {
    var f := if k.Active? then OutstandingSlotAt(k) else if k.Hour? then AcceptedHourAt(k)
             else OutstandingTokensAt(k);
    if !k.RunMarker? {
      forall r | r in s.requests ensures f(r) == HeldAt(k)(r) {
        var i :| 0 <= i < |s.requests| && s.requests[i] == r;
        assert RequestTied(cfg, s.requests[i]) && ChargeOk(cfg, s.requests[i]);
        QuietRequest(cfg, r, k);
      }
      SumEqual(s.requests, f, HeldAt(k));
    }
  }

  lemma QuietRelease(r: Request, l: Release, k: Key)
    requires ReleaseFits(r, l) && ReleaseTied(r, l) && TakenOk(r, l) && LosesNothing(l) && l.pc.Finished?
    ensures k.Active? || k.Hour? ==> ReleaseHeld(l, k) == 0
    ensures k.Tokens? ==>
              ReleaseHeld(l, k) == if l.took && r.charged.Some? && r.charged.value.key == k then l.actual else 0
  {
  }

  lemma QuietReleases(cfg: Config, s: State, k: Key)
    requires Inv(cfg, s) && Tied(cfg, s) && Charges(cfg, s) && Lossless(s) && Returned(s)
    ensures k.Active? || k.Hour? ==> Sum(s.releases, ReleaseHeldAt(k)) == 0
    ensures k.Tokens? ==> Sum(s.releases, ReleaseHeldAt(k)) == Sum(s.releases, TakenUsageAt(s.requests, k))
  {
    if !k.RunMarker? {
      var usage := TakenUsageAt(s.requests, k);
      forall l | l in s.releases ensures ReleaseHeldAt(k)(l) == if k.Tokens? then usage(l) else 0 {
        assert ReleaseOk(s.requests, l);
        var j :| 0 <= j < |s.releases| && s.releases[j] == l;
        assert TakenOk(s.requests[s.releases[j].run], l) && ReleaseTied(s.requests[s.releases[j].run], l);
        QuietRelease(s.requests[l.run], l, k);
      }
      if k.Tokens? {
        SumEqual(s.releases, ReleaseHeldAt(k), usage);
      } else {
        SumEqual(s.releases, ReleaseHeldAt(k), (l: Release) => 0);
        SumZero(s.releases);
      }
    }
  }

  lemma QuietRequest(cfg: Config, r: Request, k: Key)
    requires RequestOk(cfg, r) && RequestTied(cfg, r) && MarkerOk(r) && r.pc.Done? && NothingLost(r)
    ensures k.Active? ==> Held(r, k) == OutstandingSlotAt(k)(r)
    ensures k.Hour? ==> Held(r, k) == AcceptedHourAt(k)(r)
    ensures k.Tokens? ==> Held(r, k) == OutstandingTokensAt(k)(r)
  {
    assert OwnHeld(r, k) == 0;
  }

  // ---- what a terminal transition does not guarantee ----

  /** A release that begins once the run's request is past its commit frees the run's slot and tokens whatever
      comes in between: when everything has returned, the run holds nothing on any active or token counter. */
  lemma ReleasedRunHoldsNothing(cfg: Config, actions: seq<Action>, j: nat, more: seq<Action>, k: Key)
    requires var s := Run(cfg, INIT, actions);
             && j < |s.releases| && s.releases[j].pc.Get? && s.releases[j].run < |s.requests|
             && !MayStillMark(s.requests[s.releases[j].run]) && Works(j, more)
             && Smooth(cfg, actions + more) && Returned(Run(cfg, s, more))
    requires k.Active? || k.Tokens?
    ensures var s := Run(cfg, INIT, actions);
            var i := s.releases[j].run;
            i < |Run(cfg, s, more).requests| && Held(Run(cfg, s, more).requests[i], k) == 0
  {
    var s := Run(cfg, INIT, actions);
    var i, t := s.releases[j].run, Run(cfg, s, more);
    Reachable(cfg, actions);
    AlwaysTied(cfg, actions);
    assert ReleaseOk(s.requests, s.releases[j]) && RequestTied(cfg, s.requests[i]) && s.requests[i] in s.requests;
    RunClears(cfg, s, more, j, i);
    assert t.releases[j] in t.releases && t.requests[i] in t.requests;
    IterateConcat(Stepper(cfg), INIT, actions, more);
    SmoothIsLossless(cfg, actions + more);
    AlwaysTied(cfg, actions + more);
    AlwaysCharged(cfg, actions + more);
    assert RequestTied(cfg, t.requests[i]) && ChargeOk(cfg, t.requests[i]);
    QuietRequest(cfg, t.requests[i], k);
  }

  const NEVER_FAILING := [true, true, true, true]

  /** What a release with no failing call changes on counter `k`: the marker's slot goes, and its tokens are
      replaced by the run's usage. */
  function Freed(marker: Option<Marker>, l: Release, k: Key): int {
    if marker.None? then 0
    else
      var m := marker.value;
      (if m.active && k == l.key then -1 else 0)
      + if m.tokens > 0 && m.tokenKey == Some(k) then l.actual - m.tokens else 0
  }

  lemma DecrFrees(l: Release, k: Key)
    ensures var (l', op) := ReleaseDecr(l, true);
            && Delta(op, k) == (if l.active && k == l.key then -1 else 0)
            && l'.pc.Settle? && l'.tokens == l.tokens && l'.actual == l.actual
  {
  }

  lemma SettleFrees(l: Release, k: Key)
    ensures var (l', op) := ReleaseSettle(l, true);
            && l'.pc.Finished?
            && Delta(op, k)
               == (if l.tokens.Some? && l.tokens.value.key == k then l.actual - l.tokens.value.amount else 0)
  {
  }

  lemma TakesAll(r: Request, l: Release, m: Marker, k: Key)
    requires r.marker == Some(m)
    ensures var (r', l') := ReleaseDelete(r, l, m, true);
            && r' == r.(marker := None) && l'.pc.DecrActive? && l'.active == m.active && l'.key == l.key
            && l'.actual == l.actual
            && (if l'.tokens.Some? && l'.tokens.value.key == k then l'.actual - l'.tokens.value.amount else 0)
               == (if m.tokens > 0 && m.tokenKey == Some(k) then l.actual - m.tokens else 0)
  {
  }

  lemma ReleaseRunFrees(r: Request, l: Release, c: map<Key, int>, k: Key)
    requires ReleaseFits(r, l) && l.pc.Get?
    ensures var s := ReleaseSteps(SoloRelease(r, l, c), NEVER_FAILING);
            && s.release.pc.Finished? && s.request == r.(marker := None)
            && Count(s.counters, k) == Count(c, k) + Freed(r.marker, l, k)
  {
    IterateFour(ReleaseStep, SoloRelease(r, l, c), true, true, true, true);
    var l1 := ReleaseGet(r, l, true);
    assert ReleaseStep(SoloRelease(r, l, c), true) == SoloRelease(r, l1, c);
    if r.marker.Some? {
      var (r2, l2) := ReleaseDelete(r, l1, r.marker.value, true);
      TakesAll(r, l1, r.marker.value, k);
      assert ReleaseStep(SoloRelease(r, l1, c), true) == SoloRelease(r2, l2, c);
      var (l3, op3) := ReleaseDecr(l2, true);
      DecrFrees(l2, k);
      var c3 := Apply(c, op3);
      assert ReleaseStep(SoloRelease(r2, l2, c), true) == SoloRelease(r2, l3, c3);
      CountApply(c, op3, k);
      SettleFrees(l3, k);
      CountApply(c3, ReleaseSettle(l3, true).1, k);
    }
  }

  /** A release that runs alone, with no call failing, gives back a slot if and only if it finds a marker that
      holds one, puts the run's usage in the place of the tokens the marker records, and leaves every other
      counter as it was. */
  lemma ReleaseFreesSlotIffMarked(cfg: Config, s: State, j: nat, k: Key)
    requires Inv(cfg, s) && j < |s.releases| && s.releases[j].pc.Get? && s.releases[j].run < |s.requests|
    ensures var l := s.releases[j];
            var marker := s.requests[l.run].marker;
            Count(Run(cfg, s, ReleaseActions(j, NEVER_FAILING)).counters, k)
            == Count(s.counters, k)
               - (if marker.Some? && marker.value.active && k == l.key then 1 else 0)
               + (if marker.Some? && marker.value.tokens > 0 && marker.value.tokenKey == Some(k)
                  then l.actual - marker.value.tokens else 0)
  {
    var l := s.releases[j];
    assert ReleaseOk(s.requests, l);
    ReleaseStepsEmbed(cfg, s, j, NEVER_FAILING);
    ReleaseRunFrees(s.requests[l.run], l, s.counters, k);
  }

  const GOES_WELL := Call(true, "", "")

  /** A run canceled between `AddUserMessage` and `Commit`: four steps of the request, the whole
      release, and the request's last two steps. */
  function CanceledBeforeCommit(actor: Actor, chat: string, usage: nat): seq<Action> {
    [Arrive(actor, chat, 0)]
    + RequestActions(0, [GOES_WELL, GOES_WELL, GOES_WELL, GOES_WELL])
    + [Terminal(0, usage), StepRelease(0, true)]
    + RequestActions(0, [GOES_WELL, GOES_WELL])
  }

  lemma FourSteps(cfg: Config, r: Request)
    requires r.pc.Start? && CanRead(cfg, r.ask.actor, r.ask.chat)
    requires r.ask.policy.maxConcurrent > 0 && r.ask.policy.maxPerHour <= 0 && r.ask.policy.maxTokensPerDay <= 0
    ensures var key := ActiveKey(r.ask.actor);
            RequestRun(cfg, Solo(r, map[]), [GOES_WELL, GOES_WELL, GOES_WELL, GOES_WELL])
            == Solo(r.(active := Some(Line(key, 1, true)), admitted := true, created := true, pc := Commit),
                    map[key := 1])
  {
    var s, ok, key := Solo(r, map[]), GOES_WELL, ActiveKey(r.ask.actor);
    var s1 := Solo(r.(pc := IncrActive), map[]);
    var s2 := Solo(r.(active := Some(Line(key, 1, true)), pc := ExpireActive), map[key := 1]);
    var s3 := s2.(request := s2.request.(pc := AddMessage, admitted := true));
    var s4 := s3.(request := s3.request.(pc := Commit, created := true));
    assert SoloStep(cfg, s, ok) == s1;
    assert SoloStep(cfg, s1, ok) == s2;
    assert SoloStep(cfg, s2, ok) == s3;
    assert SoloStep(cfg, s3, ok) == s4;
    IterateFour(SoloStepper(cfg), s, ok, ok, ok, ok);
  }

  lemma TwoSteps(cfg: Config, r: Request, c: map<Key, int>)
    requires r.pc.Commit? && r.active.Some? && r.marker.None?
    ensures RequestRun(cfg, Solo(r, c), [GOES_WELL, GOES_WELL])
            == Solo(r.(marker := Some(MarkerFor(r)), marked := true, committed := true, pc := Done(Accepted)), c)
  {
    var r1 := r.(marker := Some(MarkerFor(r)), marked := true, committed := true, pc := Dispatch);
    assert SoloStep(cfg, Solo(r, c), GOES_WELL) == Solo(r1, c);
    assert SoloStep(cfg, Solo(r1, c), GOES_WELL) == Solo(r1.(pc := Done(Accepted)), c);
    IterateFour(SoloStepper(cfg), Solo(r, c), GOES_WELL, GOES_WELL, GOES_WELL, GOES_WELL);
  }

  /** The release in between: no marker, so nothing but the release itself is added. */
  lemma MissedRelease(cfg: Config, s: State, usage: nat)
    requires |s.requests| == 1 && s.releases == [] && Releasable(cfg, s.requests[0]) && s.requests[0].marker.None?
    ensures var s' := Run(cfg, s, [Terminal(0, usage), StepRelease(0, true)]);
            && s'.requests == s.requests && s'.counters == s.counters && |s'.releases| == 1
            && s'.releases[0].run == 0 && s'.releases[0].pc.Finished?
            && !s'.releases[0].lostActive && s'.releases[0].settled.None?
  {
    var s1 := Step(cfg, s, Terminal(0, usage));
    assert s1.requests == s.requests && s1.counters == s.counters && |s1.releases| == 1;
    StepReleaseAlone(cfg, s1, 0, true);
    assert s.requests[0 := s.requests[0]] == s.requests;
    RunThen(cfg, s, [], Terminal(0, usage));
    RunThen(cfg, s, [Terminal(0, usage)], StepRelease(0, true));
    assert [] + [Terminal(0, usage)] == [Terminal(0, usage)];
    assert [Terminal(0, usage)] + [StepRelease(0, true)] == [Terminal(0, usage), StepRelease(0, true)];
  }

  lemma CancelParts(cfg: Config, actor: Actor, chat: string, usage: nat)
    ensures var s1 := Run(cfg, INIT, [Arrive(actor, chat, 0)]);
            var s2 := Run(cfg, s1, RequestActions(0, [GOES_WELL, GOES_WELL, GOES_WELL, GOES_WELL]));
            var s3 := Run(cfg, s2, [Terminal(0, usage), StepRelease(0, true)]);
            && s1 == State(map[], [NewRequest(cfg, actor, chat, 0)], [])
            && Run(cfg, INIT, CanceledBeforeCommit(actor, chat, usage))
               == Run(cfg, s3, RequestActions(0, [GOES_WELL, GOES_WELL]))
  {
    var step := Stepper(cfg);
    var arrive, finish := [Arrive(actor, chat, 0)], [Terminal(0, usage), StepRelease(0, true)];
    var first := RequestActions(0, [GOES_WELL, GOES_WELL, GOES_WELL, GOES_WELL]);
    IterateConcat(step, INIT, arrive, first);
    IterateConcat(step, INIT, arrive + first, finish);
    IterateConcat(step, INIT, arrive + first + finish, RequestActions(0, [GOES_WELL, GOES_WELL]));
    RunThen(cfg, INIT, [], arrive[0]);
    assert [] + [arrive[0]] == arrive;
  }

  /** Up to the commit: one request holding one slot. */
  predicate BeforeCommit(cfg: Config, s: State, actor: Actor) {
    && |s.requests| == 1 && s.releases == []
    && Releasable(cfg, s.requests[0]) && s.requests[0].pc == Commit
    && s.requests[0].active.Some? && s.requests[0].marker.None? && NothingLost(s.requests[0])
    && Count(s.counters, ActiveKey(actor)) == 1
  }

  lemma ReachesCommit(cfg: Config, actor: Actor, chat: string)
    requires CanRead(cfg, actor, chat) && actor.project != ""
    requires PolicyOf(cfg, actor.project).maxConcurrent > 0
    requires PolicyOf(cfg, actor.project).maxPerHour <= 0 && PolicyOf(cfg, actor.project).maxTokensPerDay <= 0
    ensures var s1 := State(map[], [NewRequest(cfg, actor, chat, 0)], []);
            BeforeCommit(cfg, Run(cfg, s1, RequestActions(0, [GOES_WELL, GOES_WELL, GOES_WELL, GOES_WELL])), actor)
  {
    var r := NewRequest(cfg, actor, chat, 0);
    FourSteps(cfg, r);
    RequestRunEmbeds(cfg, State(map[], [r], []), 0, [GOES_WELL, GOES_WELL, GOES_WELL, GOES_WELL]);
  }

  lemma Commits(cfg: Config, s: State, r: Request)
    requires s.requests == [r] && r.pc.Commit? && r.active.Some? && r.marker.None?
    ensures var s' := Run(cfg, s, RequestActions(0, [GOES_WELL, GOES_WELL]));
            && s'.counters == s.counters && s'.releases == s.releases
            && s'.requests
               == [r.(marker := Some(MarkerFor(r)), marked := true, committed := true, pc := Done(Accepted))]
  {
    TwoSteps(cfg, r, s.counters);
    RequestRunEmbeds(cfg, s, 0, [GOES_WELL, GOES_WELL]);
  }

  lemma FinishesHolding(cfg: Config, s: State, actor: Actor, usage: nat)
    requires BeforeCommit(cfg, s, actor)
    ensures var s3 := Run(cfg, s, [Terminal(0, usage), StepRelease(0, true)]);
            var s4 := Run(cfg, s3, RequestActions(0, [GOES_WELL, GOES_WELL]));
            && Returned(s4) && |s4.requests| == 1 && s4.requests[0].pc == Done(Accepted)
            && |s4.releases| == 1 && s4.releases[0].run == 0
            && Count(s4.counters, ActiveKey(actor)) == 1
  {
    MissedRelease(cfg, s, usage);
    var s3 := Run(cfg, s, [Terminal(0, usage), StepRelease(0, true)]);
    assert s3.requests == [s.requests[0]];
    Commits(cfg, s3, s.requests[0]);
  }

  lemma CancelWorks(cfg: Config, actor: Actor, chat: string, usage: nat)
    ensures Smooth(cfg, CanceledBeforeCommit(actor, chat, usage))
  {
    AllWorkIsSmooth(cfg, CanceledBeforeCommit(actor, chat, usage));
  }

  /** The release finds no marker, the commit then writes one, and the slot of a run that is already
      terminal stays taken after every handler has returned. */
  lemma CanceledBeforeCommitKeepsSlot(cfg: Config, actor: Actor, chat: string, usage: nat)
    requires CanRead(cfg, actor, chat) && actor.project != ""
    requires PolicyOf(cfg, actor.project).maxConcurrent > 0
    requires PolicyOf(cfg, actor.project).maxPerHour <= 0 && PolicyOf(cfg, actor.project).maxTokensPerDay <= 0
    ensures var s := Run(cfg, INIT, CanceledBeforeCommit(actor, chat, usage));
            && Smooth(cfg, CanceledBeforeCommit(actor, chat, usage)) && Returned(s)
            && |s.requests| == 1 && s.requests[0].pc == Done(Accepted)
            && |s.releases| == 1 && s.releases[0].run == 0
            && Count(s.counters, ActiveKey(actor)) == 1
  {
    CancelParts(cfg, actor, chat, usage);
    CancelWorks(cfg, actor, chat, usage);
    ReachesCommit(cfg, actor, chat);
    var s1 := State(map[], [NewRequest(cfg, actor, chat, 0)], []);
    FinishesHolding(cfg, Run(cfg, s1, RequestActions(0, [GOES_WELL, GOES_WELL, GOES_WELL, GOES_WELL])), actor, usage);
  }
}

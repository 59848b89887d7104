/** What a request is charged, in the terms of its hint, the default and its project's policy, and what becomes
  of the charge, over every interleaving. */
module QuotaCharges {
  import opened Common
  import opened QuotaKeys
  import opened QuotaProtocol
  import opened QuotaLedger
  import opened QuotaRelease
  import opened QuotaSafety

  // ---- the lines of a request, stage by stage ----

  /** All reservations are made. */
  predicate Reserved(pc: Pc) {
    pc.AddMessage? || pc.Commit? || pc.Dispatch? || pc == Done(Accepted)
  }

  predicate SlotDone(r: Request) {
    r.active.Some? <==> r.ask.policy.maxConcurrent > 0
  }

  predicate HourDone(r: Request) {
    SlotDone(r) && (r.hour.Some? <==> r.ask.policy.maxPerHour > 0)
  }

  predicate TokensDone(cfg: Config, r: Request) {
    && HourDone(r) && r.tokens == r.charged
    && (r.charged.Some? <==> r.ask.policy.maxTokensPerDay > 0 && TokenReservation(cfg, r) > 0)
  }

  predicate StageOk(cfg: Config, r: Request) {
    match r.pc
    case Start => r.charged.None?
    case IncrActive | ExpireActive => r.ask.policy.maxConcurrent > 0 && r.charged.None?
    case UndoActive => r.charged.None?
    case IncrHour | ExpireHour => SlotDone(r) && r.ask.policy.maxPerHour > 0 && r.charged.None?
    case IncrTokens =>
      HourDone(r) && r.ask.policy.maxTokensPerDay > 0 && TokenReservation(cfg, r) > 0 && r.charged.None?
    case ExpireTokens => TokensDone(cfg, r)
    case AddMessage | Commit | Dispatch => TokensDone(cfg, r)
    case Done(out) => out == Accepted ==> TokensDone(cfg, r)
    case _ => true
  }

  /** The marker stands for the charge, whichever of the two is left. */
  predicate Stands(m: Marker, charged: Option<Line>) {
    m.tokens > 0 && m.tokenKey.Some? <==> charged.Some?
  }

  /** Amounts and keys of what was charged. */
  predicate LinesOk(cfg: Config, r: Request) {
    && (r.charged.Some? ==>
          r.charged.value.amount == TokenReservation(cfg, r) > 0
          && r.charged.value.key.Tokens?
          && r.charged.value.key == TokenKey(r.ask.actor, r.charged.value.key.stamp))
    && (r.hour.Some? ==> r.hour.value.key.Hour? && r.hour.value.key == HourKey(r.ask.actor, r.hour.value.key.stamp))
  }

  predicate MarkerOk(r: Request) {
    r.marker.Some? ==>
      Stands(r.marker.value, r.charged) && (Reserved(r.pc) ==> r.marker.value == MarkerFor(r))
  }

  predicate ChargeOk(cfg: Config, r: Request) {
    StageOk(cfg, r) && LinesOk(cfg, r) && MarkerOk(r)
  }

  predicate SameLines(r: Request, r': Request) {
    && r'.ask == r.ask && (r'.hour == r.hour || r'.hour.None?) && r'.charged == r.charged
    && (r'.marker == r.marker || r'.marker.None?)
  }

  lemma SameLinesOk(cfg: Config, r: Request, r': Request)
    requires LinesOk(cfg, r) && SameLines(r, r') && StageOk(cfg, r')
    requires r.marker.Some? ==> Stands(r.marker.value, r.charged)
    requires r'.marker.Some? && Reserved(r'.pc) ==> r'.marker.value == MarkerFor(r')
    ensures ChargeOk(cfg, r')
  {
  }

  lemma BeginTokensStage(cfg: Config, r: Request)
    requires HourDone(r) && r.charged.None? && r.tokens.None?
    ensures var r' := BeginTokens(cfg, r);
            StageOk(cfg, r') && SameLines(r, r') && r'.marker == r.marker
  {
    if r.ask.policy.maxTokensPerDay > 0 && TokenReservation(cfg, r) > 0 {
      assert HourDone(r.(pc := IncrTokens));
    } else {
      assert TokensDone(cfg, r.(pc := AddMessage, admitted := true));
    }
  }

  lemma BeginHourStage(cfg: Config, r: Request)
    requires SlotDone(r) && r.hour.None? && r.charged.None? && r.tokens.None?
    ensures var r' := BeginHour(cfg, r);
            StageOk(cfg, r') && SameLines(r, r') && r'.marker == r.marker
  {
    if r.ask.policy.maxPerHour <= 0 {
      BeginTokensStage(cfg, r);
    }
  }

  lemma BeginActiveStage(cfg: Config, r: Request)
    requires r.active.None? && r.hour.None? && r.charged.None? && r.tokens.None?
    ensures var r' := BeginActive(cfg, r);
            StageOk(cfg, r') && SameLines(r, r') && r'.marker == r.marker
  {
    if r.ask.policy.maxConcurrent <= 0 {
      BeginHourStage(cfg, r);
    }
  }

  lemma RollbackStage(cfg: Config, r: Request, out: Outcome)
    requires LinesOk(cfg, r) && MarkerOk(r)
    ensures ChargeOk(cfg, BeginRollback(r, out))
  {
  }

  lemma StartCharge(cfg: Config, r: Request, ok: bool)
    requires RequestOk(cfg, r) && ChargeOk(cfg, r) && r.pc.Start?
    ensures ChargeOk(cfg, StepStart(cfg, r, ok))
  {
    BeginActiveStage(cfg, r);
    SameLinesOk(cfg, r, StepStart(cfg, r, ok));
  }

  lemma IncrActiveCharge(cfg: Config, r: Request, ok: bool, c: map<Key, int>)
    requires RequestOk(cfg, r) && ChargeOk(cfg, r) && r.pc.IncrActive?
    ensures ChargeOk(cfg, StepIncrActive(r, ok, c).0)
  {
    SameLinesOk(cfg, r, StepIncrActive(r, ok, c).0);
  }

  lemma ExpireActiveCharge(cfg: Config, r: Request, ok: bool)
    requires RequestOk(cfg, r) && ChargeOk(cfg, r) && r.pc.ExpireActive?
    ensures ChargeOk(cfg, StepExpireActive(cfg, r, ok))
  {
    if ok && r.active.value.within {
      BeginHourStage(cfg, r);
      SameLinesOk(cfg, r, BeginHour(cfg, r));
    } else {
      RollbackStage(cfg, r, Failed);
    }
  }

  lemma UndoActiveCharge(cfg: Config, r: Request, ok: bool)
    requires RequestOk(cfg, r) && ChargeOk(cfg, r) && r.pc.UndoActive?
    ensures ChargeOk(cfg, StepUndoActive(r, ok).0)
  {
    SameLinesOk(cfg, r, StepUndoActive(r, ok).0);
  }

  lemma IncrHourCharge(cfg: Config, r: Request, ok: bool, hs: string, c: map<Key, int>)
    requires RequestOk(cfg, r) && ChargeOk(cfg, r) && r.pc.IncrHour?
    ensures ChargeOk(cfg, StepIncrHour(r, ok, hs, c).0)
  {
    RollbackStage(cfg, r, Failed);
  }

  lemma ExpireHourCharge(cfg: Config, r: Request, ok: bool)
    requires RequestOk(cfg, r) && ChargeOk(cfg, r) && r.pc.ExpireHour?
    ensures ChargeOk(cfg, StepExpireHour(cfg, r, ok))
  {
    RollbackStage(cfg, r, Failed);
    RollbackStage(cfg, r, Denied);
    if ok && r.hour.value.within {
      BeginTokensStage(cfg, r);
      SameLinesOk(cfg, r, BeginTokens(cfg, r));
    }
  }

  lemma IncrTokensCharge(cfg: Config, r: Request, ok: bool, ds: string, c: map<Key, int>)
    requires RequestOk(cfg, r) && ChargeOk(cfg, r) && r.pc.IncrTokens?
    ensures ChargeOk(cfg, StepIncrTokens(cfg, r, ok, ds, c).0)
  {
    RollbackStage(cfg, r, Failed);
  }

  lemma ExpireTokensCharge(cfg: Config, r: Request, ok: bool)
    requires RequestOk(cfg, r) && ChargeOk(cfg, r) && r.pc.ExpireTokens?
    ensures ChargeOk(cfg, StepExpireTokens(r, ok))
  {
    RollbackStage(cfg, r, Failed);
    RollbackStage(cfg, r, Denied);
  }

  lemma AddMessageCharge(cfg: Config, r: Request, ok: bool)
    requires RequestOk(cfg, r) && ChargeOk(cfg, r) && r.pc.AddMessage?
    ensures ChargeOk(cfg, StepAddMessage(r, ok))
  {
    RollbackStage(cfg, r, Failed);
  }

  lemma CommitCharge(cfg: Config, r: Request, ok: bool)
    requires RequestOk(cfg, r) && ChargeOk(cfg, r) && r.pc.Commit?
    ensures ChargeOk(cfg, StepCommit(r, ok))
  {
    RollbackStage(cfg, r, Failed);
    assert Stands(MarkerFor(r), r.charged);
  }

  lemma DispatchCharge(cfg: Config, r: Request, ok: bool)
    requires RequestOk(cfg, r) && ChargeOk(cfg, r) && r.pc.Dispatch?
    ensures ChargeOk(cfg, StepDispatch(r, ok))
  {
    RollbackStage(cfg, r, Failed);
  }

  lemma RollbackCharge(cfg: Config, r: Request, ok: bool)
    requires RequestOk(cfg, r) && ChargeOk(cfg, r)
    ensures r.pc.RollbackMarker? ==> ChargeOk(cfg, StepRollbackMarker(r, r.pc.out, ok))
    ensures r.pc.RollbackActive? ==> ChargeOk(cfg, StepRollbackActive(r, r.pc.out, ok).0)
  {
    if r.pc.RollbackMarker? {
      SameLinesOk(cfg, r, StepRollbackMarker(r, r.pc.out, ok));
    } else if r.pc.RollbackActive? {
      SameLinesOk(cfg, r, StepRollbackActive(r, r.pc.out, ok).0);
    }
  }

  lemma RollbackCountsCharge(cfg: Config, r: Request, ok: bool)
    requires RequestOk(cfg, r) && ChargeOk(cfg, r)
    ensures r.pc.RollbackHour? ==> ChargeOk(cfg, StepRollbackHour(r, r.pc.out, ok).0)
    ensures r.pc.RollbackTokens? ==> ChargeOk(cfg, StepRollbackTokens(r, r.pc.out, ok).0)
  {
    if r.pc.RollbackHour? {
      SameLinesOk(cfg, r, StepRollbackHour(r, r.pc.out, ok).0);
    } else if r.pc.RollbackTokens? {
      SameLinesOk(cfg, r, StepRollbackTokens(r, r.pc.out, ok).0);
    }
  }

  lemma StepCharge(cfg: Config, r: Request, ok: bool, hs: string, ds: string, c: map<Key, int>)
    requires RequestOk(cfg, r) && ChargeOk(cfg, r)
    ensures ChargeOk(cfg, StepOf(cfg, r, ok, hs, ds, c).0)
  {
    match r.pc
    case Start => StartCharge(cfg, r, ok);
    case IncrActive => IncrActiveCharge(cfg, r, ok, c);
    case ExpireActive => ExpireActiveCharge(cfg, r, ok);
    case UndoActive => UndoActiveCharge(cfg, r, ok);
    case IncrHour => IncrHourCharge(cfg, r, ok, hs, c);
    case ExpireHour => ExpireHourCharge(cfg, r, ok);
    case IncrTokens => IncrTokensCharge(cfg, r, ok, ds, c);
    case ExpireTokens => ExpireTokensCharge(cfg, r, ok);
    case AddMessage => AddMessageCharge(cfg, r, ok);
    case Commit => CommitCharge(cfg, r, ok);
    case Dispatch => DispatchCharge(cfg, r, ok);
    case RollbackMarker(_) | RollbackActive(_) => RollbackCharge(cfg, r, ok);
    case RollbackHour(_) | RollbackTokens(_) => RollbackCountsCharge(cfg, r, ok);
    case Done(_) =>
  }

  // ---- the settlement of a charge ----

  /** A release that took the marker of a run with a charge goes on to settle it. */
  predicate TakenOk(r: Request, l: Release) {
    && (l.pc.Delete? ==> Stands(l.pc.seen, r.charged))
    && (!l.took ==> l.tokens.None? && l.settled.None?)
    && (l.took && !l.pc.Finished? ==> (l.tokens.Some? <==> r.charged.Some?))
    && (l.took && l.pc.Finished? ==> (l.settled.Some? <==> r.charged.Some?))
  }

  lemma ReleaseCharge(r: Request, l: Release, ok: bool)
    requires ReleaseFits(r, l) && MarkerOk(r) && TakenOk(r, l)
    ensures var (r', l', _) := StepOfRelease(r, l, ok); MarkerOk(r') && TakenOk(r', l')
  {
  }

  ghost predicate Charges(cfg: Config, s: State) {
    && (forall i :: 0 <= i < |s.requests| ==> ChargeOk(cfg, s.requests[i]))
    && (forall j :: 0 <= j < |s.releases| ==>
          s.releases[j].run < |s.requests| && TakenOk(s.requests[s.releases[j].run], s.releases[j]))
  }

  /** Other releases of the run look at its charge only. */
  lemma StillTakenOk(r: Request, r': Request, l: Release)
    requires TakenOk(r, l) && r'.charged == r.charged
    ensures TakenOk(r', l)
  {
  }

  /** A request changes to one that is in order and has the same charge once it has been created. */
  lemma RequestChanges(cfg: Config, s: State, t: State, i: nat)
    requires Inv(cfg, s) && Charges(cfg, s) && i < |s.requests| == |t.requests| && t.releases == s.releases
    requires t.requests == s.requests[i := t.requests[i]] && ChargeOk(cfg, t.requests[i])
    requires s.requests[i].created ==> t.requests[i].charged == s.requests[i].charged
    ensures Charges(cfg, t)
  {
    forall j | 0 <= j < |t.releases| ensures TakenOk(t.requests[t.releases[j].run], t.releases[j]) {
      var l := s.releases[j];
      assert TakenOk(s.requests[l.run], l) && ReleaseOk(s.requests, l);
      StillTakenOk(s.requests[l.run], t.requests[l.run], l);
    }
  }

  lemma StepRequestCharges(cfg: Config, s: State, a: Action)
    requires Inv(cfg, s) && Tied(cfg, s) && Charges(cfg, s) && a.StepRequest? && a.i < |s.requests|
    ensures Charges(cfg, Step(cfg, s, a))
  {
    var r := s.requests[a.i];
    assert RequestTied(cfg, r) && ChargeOk(cfg, r);
    StepCharge(cfg, r, a.ok, a.hourStamp, a.dayStamp, s.counters);
    StepTied(cfg, r, a.ok, a.hourStamp, a.dayStamp, s.counters);
    RequestChanges(cfg, s, Step(cfg, s, a), a.i);
  }

  /** A release moves on, and takes at most its request's marker. */
  lemma ReleaseChanges(cfg: Config, s: State, t: State, j: nat)
    requires Charges(cfg, s) && j < |s.releases| && s.releases[j].run < |s.requests| == |t.requests|
    requires t.requests == s.requests[s.releases[j].run := t.requests[s.releases[j].run]]
    requires |t.releases| == |s.releases| && t.releases == s.releases[j := t.releases[j]]
    requires t.releases[j].run == s.releases[j].run
    requires var r := t.requests[s.releases[j].run];
             && ChargeOk(cfg, r) && TakenOk(r, t.releases[j])
             && r.charged == s.requests[s.releases[j].run].charged
    ensures Charges(cfg, t)
  {
    forall i | 0 <= i < |t.releases| ensures TakenOk(t.requests[t.releases[i].run], t.releases[i]) {
      if i != j {
        var m := s.releases[i];
        assert TakenOk(s.requests[m.run], m);
        StillTakenOk(s.requests[m.run], t.requests[m.run], m);
      }
    }
  }

  lemma ReleaseOneCharge(cfg: Config, r: Request, l: Release, ok: bool)
    requires ReleaseFits(r, l) && ChargeOk(cfg, r) && TakenOk(r, l)
    ensures var (r', l', _) := StepOfRelease(r, l, ok);
            ChargeOk(cfg, r') && TakenOk(r', l') && r'.charged == r.charged && l'.run == l.run
  {
    ReleaseCharge(r, l, ok);
    OnlyTheMarker(r, l, ok);
    SameLinesOk(cfg, r, StepOfRelease(r, l, ok).0);
  }

  lemma StepReleaseCharges(cfg: Config, s: State, a: Action)
    requires Inv(cfg, s) && Charges(cfg, s) && a.StepRelease? && a.j < |s.releases|
    ensures Charges(cfg, Step(cfg, s, a))
  {
    var l := s.releases[a.j];
    var r := s.requests[l.run];
    assert ReleaseOk(s.requests, l) && TakenOk(r, l) && ChargeOk(cfg, r);
    ReleaseOneCharge(cfg, r, l, a.ok);
    ReleaseChanges(cfg, s, Step(cfg, s, a), a.j);
  }

  lemma {:induction false} AlwaysCharged(cfg: Config, actions: seq<Action>)
    ensures Charges(cfg, Run(cfg, INIT, actions))
  {
    if actions != [] {
      var front, a := actions[..|actions| - 1], actions[|actions| - 1];
      AlwaysCharged(cfg, front);
      AlwaysTied(cfg, front);
      Reachable(cfg, front);
      var s := Run(cfg, INIT, front);
      match a
      case Arrive(actor, chat, hint) =>
        assert ChargeOk(cfg, NewRequest(cfg, actor, chat, hint));
      case StepRequest(i, _, _, _) => if i < |s.requests| { StepRequestCharges(cfg, s, a); }
      case Terminal(run, _) =>
      case StepRelease(j, _) => if j < |s.releases| { StepReleaseCharges(cfg, s, a); }
    }
  }

  // ---- in the terms of the request ----

  lemma {:induction false} AskStays(cfg: Config, s: State, more: seq<Action>, i: nat)
    requires Inv(cfg, s) && i < |s.requests|
    ensures Inv(cfg, Run(cfg, s, more))
    ensures i < |Run(cfg, s, more).requests| && Run(cfg, s, more).requests[i].ask == s.requests[i].ask
  {
    if more != [] {
      var front, a := more[..|more| - 1], more[|more| - 1];
      AskStays(cfg, s, front, i);
      StepKeepsAsk(cfg, Run(cfg, s, front), a, i);
      StepKeepsInv(cfg, Run(cfg, s, front), a);
    }
  }

  lemma StepKeepsAsk(cfg: Config, s: State, a: Action, i: nat)
    requires Inv(cfg, s) && i < |s.requests|
    ensures i < |Step(cfg, s, a).requests| && Step(cfg, s, a).requests[i].ask == s.requests[i].ask
  {
    if a.StepRequest? && a.i == i {
      RequestKeeps(cfg, s.requests[i], a.ok, a.hourStamp, a.dayStamp, s.counters);
    } else if a.StepRelease? && a.j < |s.releases| && s.releases[a.j].run < |s.requests| {
      OnlyTheMarker(s.requests[s.releases[a.j].run], s.releases[a.j], a.ok);
    }
  }

  /** Whatever other requests and releases do in between and whichever calls fail: a request is charged its hint
      if that is positive and the default if not, and one that has made its reservations, or has been accepted,
      took a slot, an hour and tokens exactly for those limits that its project's policy switches on. Its marker,
      while it is there, records that slot and that charge. */
  lemma ChargedAsAsked(cfg: Config, before: seq<Action>, actor: Actor, chat: string, hint: int, after: seq<Action>)
    ensures var i, s := |Run(cfg, INIT, before).requests|, Run(cfg, INIT, before + [Arrive(actor, chat, hint)] + after);
            var policy := if actor.project in cfg.policies then cfg.policies[actor.project] else cfg.fallback;
            var amount := if hint > 0 then hint else cfg.tokensPerRun;
            && i < |s.requests|
            && var r := s.requests[i];
            && (r.charged.Some? ==>
                  && r.charged.value.amount == amount > 0
                  && r.charged.value.key.Tokens? && r.charged.value.key == TokenKey(actor, r.charged.value.key.stamp))
            && (r.pc in {AddMessage, Commit, Dispatch, Done(Accepted)} ==>
                  && (r.active == if policy.maxConcurrent > 0 then Some(Line(ActiveKey(actor), 1, true)) else None)
                  && (r.hour.Some? <==> policy.maxPerHour > 0)
                  && (r.charged.Some? <==> policy.maxTokensPerDay > 0 && amount > 0)
                  && r.tokens == r.charged
                  && (r.marker.Some? ==>
                        r.marker.value == Marker(policy.maxConcurrent > 0,
                                                 if r.charged.Some? then Some(r.charged.value.key) else None,
                                                 if r.charged.Some? then amount else 0)))
  {
    var i, arrive := |Run(cfg, INIT, before).requests|, Arrive(actor, chat, hint);
    var all := before + [arrive] + after;
    RunThen(cfg, INIT, before, arrive);
    Reachable(cfg, before + [arrive]);
    IterateConcat(Stepper(cfg), INIT, before + [arrive], after);
    AskStays(cfg, Run(cfg, INIT, before + [arrive]), after, i);
    Reachable(cfg, all);
    AlwaysCharged(cfg, all);
    var r := Run(cfg, INIT, all).requests[i];
    assert r in Run(cfg, INIT, all).requests;
    assert RequestOk(cfg, r) && ChargeOk(cfg, r);
  }

  // ---- runs in which every decrement and settlement works ----

  /** The step's call takes something back from a counter, or settles a charge. */
  predicate GivesBack(s: State, a: Action) {
    match a
    case StepRequest(i, _, _, _) =>
      i < |s.requests|
      && var pc := s.requests[i].pc;
         pc.UndoActive? || pc.RollbackActive? || pc.RollbackHour? || pc.RollbackTokens?
    case StepRelease(j, _) => j < |s.releases| && (s.releases[j].pc.DecrActive? || s.releases[j].pc.Settle?)
    case _ => false
  }

  /** No such call fails; reservations, deletes and all others may. */
  predicate Smooth(cfg: Config, actions: seq<Action>) {
    actions == []
    || (var front, a := actions[..|actions| - 1], actions[|actions| - 1];
        && Smooth(cfg, front)
        && (GivesBack(Run(cfg, INIT, front), a) ==> a.ok))
  }

  predicate AllWork(actions: seq<Action>) {
    forall n :: 0 <= n < |actions| && (actions[n].StepRequest? || actions[n].StepRelease?) ==> actions[n].ok
  }

  lemma {:induction false} AllWorkIsSmooth(cfg: Config, actions: seq<Action>)
    requires AllWork(actions)
    ensures Smooth(cfg, actions)
  {
    if actions != [] {
      AllWorkIsSmooth(cfg, actions[..|actions| - 1]);
    }
  }

  predicate LosesNothing(l: Release) {
    !l.lostActive && (l.settled.Some? ==> l.settled.value.amount == l.actual)
  }

  ghost predicate Lossless(s: State) {
    (forall r :: r in s.requests ==> NothingLost(r)) && (forall l :: l in s.releases ==> LosesNothing(l))
  }

  lemma RequestLosesNothing(cfg: Config, r: Request, ok: bool, hs: string, ds: string, c: map<Key, int>)
    requires RequestOk(cfg, r) && NothingLost(r)
    requires r.pc.UndoActive? || r.pc.RollbackActive? || r.pc.RollbackHour? || r.pc.RollbackTokens? ==> ok
    ensures NothingLost(StepOf(cfg, r, ok, hs, ds, c).0)
  {
    if Forward(r.pc) && !r.pc.UndoActive? {
      ForwardLosesNothing(cfg, r, ok, hs, ds, c);
    }
  }

  lemma ForwardLosesNothing(cfg: Config, r: Request, ok: bool, hs: string, ds: string, c: map<Key, int>)
    requires RequestOk(cfg, r) && NothingLost(r) && Forward(r.pc) && !r.pc.UndoActive?
    ensures NothingLost(StepOf(cfg, r, ok, hs, ds, c).0)
  {
    RequestKeeps(cfg, r, ok, hs, ds, c);
  }

  lemma ReleaseLosesNothing(r: Request, l: Release, ok: bool)
    requires LosesNothing(l) && (l.pc.DecrActive? || l.pc.Settle? ==> ok)
    ensures LosesNothing(StepOfRelease(r, l, ok).1)
  {
  }

  lemma StepLossless(cfg: Config, s: State, a: Action)
    requires Inv(cfg, s) && Lossless(s) && (GivesBack(s, a) ==> a.ok)
    ensures Lossless(Step(cfg, s, a))
  {
    match a
    case Arrive(_, _, _) =>
    case StepRequest(i, ok, hs, ds) =>
      if i < |s.requests| { RequestLosesNothing(cfg, s.requests[i], ok, hs, ds, s.counters); }
    case Terminal(_, _) =>
    case StepRelease(j, ok) =>
      if j < |s.releases| && s.releases[j].run < |s.requests| {
        assert s.releases[j] in s.releases && s.requests[s.releases[j].run] in s.requests;
        ReleaseLosesNothing(s.requests[s.releases[j].run], s.releases[j], ok);
        OnlyTheMarker(s.requests[s.releases[j].run], s.releases[j], ok);
      }
  }

  /** Then no increment stays behind, and whatever is settled is settled at the actual usage. */
  lemma {:induction false} SmoothIsLossless(cfg: Config, actions: seq<Action>)
    requires Smooth(cfg, actions)
    ensures Lossless(Run(cfg, INIT, actions))
  {
    if actions != [] {
      var front, a := actions[..|actions| - 1], actions[|actions| - 1];
      SmoothIsLossless(cfg, front);
      Reachable(cfg, front);
      StepLossless(cfg, Run(cfg, INIT, front), a);
    }
  }
}

/** What a release does for its run, over every interleaving: which tokens it settles, and when it is sure to
  leave no marker behind. */
module QuotaRelease {
  import opened Common
  import opened QuotaKeys
  import opened QuotaProtocol
  import opened QuotaLedger
  import opened QuotaSafety

  // ---- the token line, from the reservation through the marker to the settlement ----

  predicate Is(line: Option<Line>, key: Key, amount: nat) {
    line.Some? && line.value.key == key && line.value.amount == amount
  }

  predicate MarkerTied(r: Request, m: Marker) {
    m.tokenKey.Some? ==> Is(r.charged, m.tokenKey.value, m.tokens)
  }

  /** The request's own line and its marker's tokens are those it was charged. A run exists only once its
      request is past its message. */
  predicate RequestTied(cfg: Config, r: Request) {
    && (r.tokens.Some? ==> r.charged == r.tokens)
    && (r.marker.Some? ==> MarkerTied(r, r.marker.value))
    && (r.charged.Some? ==> r.charged.value.amount == TokenReservation(cfg, r))
    && (r.created && Forward(r.pc) ==> r.pc.Commit? || r.pc.Dispatch?)
  }

  predicate ReleaseTied(r: Request, l: Release) {
    && (l.pc.Delete? ==> MarkerTied(r, l.pc.seen))
    && (l.tokens.Some? ==> Is(r.charged, l.tokens.value.key, l.tokens.value.amount))
    && (l.settled.Some? ==>
          && Is(r.charged, l.settled.value.key, l.settled.value.reserved)
          && (l.settled.value.amount == l.actual || l.settled.value.amount == l.settled.value.reserved))
  }

  /** The charge is made once, before there is a marker; all else only gives lines and markers up. */
  predicate ChargeStays(r: Request, r': Request) {
    && r'.ask == r.ask && r'.charged == r.charged && r'.created == r.created
    && (r'.tokens == r.tokens || r'.tokens.None?) && (r'.marker == r.marker || r'.marker.None?)
  }

  predicate Moves(r: Request, r': Request) {
    r' == r.(pc := r'.pc, admitted := r'.admitted)
  }

  lemma BeginMoves(cfg: Config, r: Request)
    ensures Moves(r, BeginTokens(cfg, r)) && Moves(r, BeginHour(cfg, r)) && Moves(r, BeginActive(cfg, r))
    ensures Moves(r, BeginRollback(r, Denied)) && Moves(r, BeginRollback(r, Failed))
  {
    assert Moves(r, BeginTokens(cfg, r));
    assert Moves(r, BeginHour(cfg, r));
  }

  lemma ReserveStays(cfg: Config, r: Request, ok: bool, hs: string, c: map<Key, int>)
    ensures Moves(r, StepStart(cfg, r, ok)) && Moves(r, StepExpireActive(cfg, r, ok))
    ensures Moves(r, StepExpireHour(cfg, r, ok)) && Moves(r, StepExpireTokens(r, ok))
    ensures ChargeStays(r, StepIncrActive(r, ok, c).0) && ChargeStays(r, StepUndoActive(r, ok).0)
    ensures ChargeStays(r, StepIncrHour(r, ok, hs, c).0)
  {
    BeginMoves(cfg, r);
  }

  lemma RollbackStays(r: Request, out: Outcome, ok: bool)
    ensures ChargeStays(r, StepRollbackMarker(r, out, ok)) && ChargeStays(r, StepRollbackActive(r, out, ok).0)
    ensures ChargeStays(r, StepRollbackHour(r, out, ok).0) && ChargeStays(r, StepRollbackTokens(r, out, ok).0)
  {
  }

  lemma StaysTied(cfg: Config, r: Request, r': Request)
    requires RequestTied(cfg, r) && ChargeStays(r, r')
    requires r'.created && Forward(r'.pc) ==> r'.pc.Commit? || r'.pc.Dispatch?
    ensures RequestTied(cfg, r')
  {
  }

  lemma ReserveTied(cfg: Config, r: Request, ok: bool, hs: string, ds: string, c: map<Key, int>)
    requires RequestOk(cfg, r) && RequestTied(cfg, r)
    requires Forward(r.pc) && !(r.pc.IncrTokens? || r.pc.AddMessage? || r.pc.Commit? || r.pc.Dispatch?)
    ensures var r' := StepOf(cfg, r, ok, hs, ds, c).0; RequestTied(cfg, r') && ChargeStays(r, r')
  {
    ReserveStays(cfg, r, ok, hs, c);
    StaysTied(cfg, r, StepOf(cfg, r, ok, hs, ds, c).0);
  }

  lemma IncrTokensTied(cfg: Config, r: Request, ok: bool, ds: string, c: map<Key, int>)
    requires RequestOk(cfg, r) && RequestTied(cfg, r) && r.pc.IncrTokens?
    ensures var r' := StepIncrTokens(cfg, r, ok, ds, c).0; RequestTied(cfg, r') && r'.ask == r.ask
  {
    BeginMoves(cfg, r);
  }

  lemma AddMessageTied(cfg: Config, r: Request, ok: bool)
    requires RequestTied(cfg, r) && r.pc.AddMessage?
    ensures var r' := StepAddMessage(r, ok); RequestTied(cfg, r') && ChargeStays(r, r'.(created := r.created))
  {
    BeginMoves(cfg, r);
  }

  lemma MarkerForTied(r: Request)
    requires r.tokens.Some? ==> r.charged == r.tokens
    ensures MarkerTied(r, MarkerFor(r))
  {
  }

  lemma CommitTied(cfg: Config, r: Request, ok: bool)
    requires RequestTied(cfg, r) && r.pc.Commit?
    ensures var r' := StepCommit(r, ok); RequestTied(cfg, r') && r'.charged == r.charged
  {
    BeginMoves(cfg, r);
    MarkerForTied(r);
    if ok && r.marker.None? && (r.active.Some? || r.tokens.Some?) {
      var marked := r.(marker := Some(MarkerFor(r)), marked := true, committed := true, pc := Dispatch);
      assert RequestTied(cfg, marked);
    } else {
      StaysTied(cfg, r, StepCommit(r, ok));
    }
  }

  lemma DispatchTied(cfg: Config, r: Request, ok: bool)
    requires RequestTied(cfg, r) && r.pc.Dispatch?
    ensures var r' := StepDispatch(r, ok); RequestTied(cfg, r') && ChargeStays(r, r')
  {
    BeginMoves(cfg, r);
  }

  lemma RollbackTied(cfg: Config, r: Request, ok: bool, hs: string, ds: string, c: map<Key, int>)
    requires RequestTied(cfg, r) && !Forward(r.pc)
    ensures var r' := StepOf(cfg, r, ok, hs, ds, c).0; RequestTied(cfg, r') && ChargeStays(r, r')
  {
    if !r.pc.Done? {
      RollbackStays(r, r.pc.out, ok);
    }
    StaysTied(cfg, r, StepOf(cfg, r, ok, hs, ds, c).0);
  }

  lemma StepTied(cfg: Config, r: Request, ok: bool, hs: string, ds: string, c: map<Key, int>)
    requires RequestOk(cfg, r) && RequestTied(cfg, r)
    ensures var r' := StepOf(cfg, r, ok, hs, ds, c).0;
            RequestTied(cfg, r') && (r.created ==> r'.charged == r.charged)
  {
    match r.pc
    case IncrTokens => IncrTokensTied(cfg, r, ok, ds, c);
    case AddMessage => AddMessageTied(cfg, r, ok);
    case Commit => CommitTied(cfg, r, ok);
    case Dispatch => DispatchTied(cfg, r, ok);
    case RollbackMarker(_) | RollbackActive(_) | RollbackHour(_) | RollbackTokens(_) | Done(_) =>
      RollbackTied(cfg, r, ok, hs, ds, c);
    case _ => ReserveTied(cfg, r, ok, hs, ds, c);
  }

  lemma DeleteTied(r: Request, l: Release, ok: bool)
    requires ReleaseTied(r, l) && l.pc.Delete?
    ensures ReleaseTied(r, ReleaseDelete(r, l, l.pc.seen, ok).1)
  {
  }

  lemma SettleTied(r: Request, l: Release, ok: bool)
    requires ReleaseTied(r, l) && l.pc.Settle?
    ensures ReleaseTied(r, ReleaseSettle(l, ok).0)
  {
  }

  lemma GetTied(cfg: Config, r: Request, l: Release, ok: bool)
    requires RequestTied(cfg, r) && ReleaseTied(r, l)
    ensures ReleaseTied(r, ReleaseGet(r, l, ok))
  {
  }

  lemma DecrTied(r: Request, l: Release, ok: bool)
    requires ReleaseTied(r, l)
    ensures ReleaseTied(r, ReleaseDecr(l, ok).0)
  {
  }

  lemma ReleaseStepTied(cfg: Config, r: Request, l: Release, ok: bool)
    requires RequestTied(cfg, r) && ReleaseTied(r, l)
    ensures ReleaseTied(r, StepOfRelease(r, l, ok).1)
  {
    match l.pc
    case Get => GetTied(cfg, r, l, ok);
    case Delete(_) => DeleteTied(r, l, ok);
    case DecrActive => DecrTied(r, l, ok);
    case Settle => SettleTied(r, l, ok);
    case Finished =>
  }

  /** A release changes its request at most by removing the marker. */
  lemma OnlyTheMarker(r: Request, l: Release, ok: bool)
    ensures var (r', l', _) := StepOfRelease(r, l, ok);
            (r' == r || r' == r.(marker := None)) && l'.actual == l.actual && l'.run == l.run
  {
  }

  lemma OtherReleaseTied(r: Request, r': Request, m: Release)
    requires ReleaseTied(r, m) && r'.charged == r.charged
    ensures ReleaseTied(r', m)
  {
  }

  ghost predicate Tied(cfg: Config, s: State) {
    && (forall i :: 0 <= i < |s.requests| ==> RequestTied(cfg, s.requests[i]))
    && (forall j :: 0 <= j < |s.releases| ==>
          s.releases[j].run < |s.requests| && ReleaseTied(s.requests[s.releases[j].run], s.releases[j]))
  }

  lemma StepRequestTied(cfg: Config, s: State, a: Action)
    requires Inv(cfg, s) && Tied(cfg, s) && a.StepRequest? && a.i < |s.requests|
    ensures Tied(cfg, Step(cfg, s, a))
  {
    var r := s.requests[a.i];
    StepTied(cfg, r, a.ok, a.hourStamp, a.dayStamp, s.counters);
    var t := Step(cfg, s, a);
    forall j | 0 <= j < |t.releases| ensures ReleaseTied(t.requests[t.releases[j].run], t.releases[j]) {
      var m := s.releases[j];
      assert ReleaseTied(s.requests[m.run], m) && ReleaseOk(s.requests, m);
      OtherReleaseTied(s.requests[m.run], t.requests[m.run], m);
    }
  }

  lemma StepReleaseTied(cfg: Config, s: State, a: Action)
    requires Tied(cfg, s) && a.StepRelease? && a.j < |s.releases|
    ensures Tied(cfg, Step(cfg, s, a))
  {
    var l := s.releases[a.j];
    var r := s.requests[l.run];
    var (r', l', _) := StepOfRelease(r, l, a.ok);
    ReleaseStepTied(cfg, r, l, a.ok);
    OnlyTheMarker(r, l, a.ok);
    StaysTied(cfg, r, r');
    OtherReleaseTied(r, r', l');
    var t := Step(cfg, s, a);
    forall j | 0 <= j < |t.releases| ensures ReleaseTied(t.requests[t.releases[j].run], t.releases[j]) {
      if j != a.j {
        var m := s.releases[j];
        assert ReleaseTied(s.requests[m.run], m);
        OtherReleaseTied(s.requests[m.run], t.requests[m.run], m);
      }
    }
  }

  lemma {:induction false} AlwaysTied(cfg: Config, actions: seq<Action>)
    ensures Tied(cfg, Run(cfg, INIT, actions))
  {
    if actions != [] {
      var front, a := actions[..|actions| - 1], actions[|actions| - 1];
      AlwaysTied(cfg, front);
      Reachable(cfg, front);
      var s := Run(cfg, INIT, front);
      match a
      case Arrive(_, _, _) =>
      case StepRequest(i, _, _, _) => if i < |s.requests| { StepRequestTied(cfg, s, a); }
      case Terminal(_, _) =>
      case StepRelease(j, _) => if j < |s.releases| { StepReleaseTied(cfg, s, a); }
    }
  }

  // ---- when a release is sure to leave no marker ----

  /** The request may still write a marker: it is at its commit and holds a slot or tokens. */
  predicate MayStillMark(r: Request) {
    r.pc.Commit? && (r.active.Some? || r.tokens.Some?)
  }

  /** Past its commit, or with nothing to commit, and without a marker. */
  predicate Unmarkable(r: Request) {
    r.created && !r.marked && r.marker.None? && !MayStillMark(r) && (Forward(r.pc) ==> r.pc.Commit? || r.pc.Dispatch?)
  }

  /** A release has not yet tried to delete the run's marker. */
  predicate Before(l: Release) {
    l.pc.Get? || l.pc.Delete?
  }

  predicate Clearing(r: Request, l: Release) {
    Unmarkable(r) || (r.created && r.marked && (Before(l) || r.marker.None?))
  }

  lemma UnmarkableStays(cfg: Config, r: Request, ok: bool, hs: string, ds: string, c: map<Key, int>)
    requires RequestOk(cfg, r) && Unmarkable(r)
    ensures Unmarkable(StepOf(cfg, r, ok, hs, ds, c).0)
  {
    BeginMoves(cfg, r);
    match r.pc
    case Commit =>
    case Dispatch =>
    case RollbackMarker(out) =>
    case RollbackActive(out) =>
    case RollbackHour(out) =>
    case RollbackTokens(out) =>
    case Done(_) =>
  }

  lemma RequestClears(cfg: Config, r: Request, l: Release, ok: bool, hs: string, ds: string, c: map<Key, int>)
    requires RequestOk(cfg, r) && Clearing(r, l)
    ensures Clearing(StepOf(cfg, r, ok, hs, ds, c).0, l)
  {
    if Unmarkable(r) {
      UnmarkableStays(cfg, r, ok, hs, ds, c);
    } else {
      RequestKeeps(cfg, r, ok, hs, ds, c);
    }
  }

  lemma ReleaseClears(r: Request, l: Release, ok: bool)
    requires Clearing(r, l) && (Before(l) ==> ok)
    ensures var (r', l', _) := StepOfRelease(r, l, ok); Clearing(r', l')
  {
  }

  lemma OtherClears(r: Request, l: Release, m: Release, ok: bool)
    requires Clearing(r, l)
    ensures Clearing(StepOfRelease(r, m, ok).0, l)
  {
    OnlyTheMarker(r, m, ok);
  }

  ghost predicate ClearingAt(s: State, j: nat, i: nat) {
    j < |s.releases| && s.releases[j].run == i < |s.requests| && Clearing(s.requests[i], s.releases[j])
  }

  lemma StepClears(cfg: Config, s: State, a: Action, j: nat, i: nat)
    requires Inv(cfg, s) && ClearingAt(s, j, i) && (a.StepRelease? && a.j == j ==> a.ok)
    ensures ClearingAt(Step(cfg, s, a), j, i)
  {
    match a
    case Arrive(_, _, _) =>
    case StepRequest(n, ok, hs, ds) =>
      if n == i {
        RequestClears(cfg, s.requests[i], s.releases[j], ok, hs, ds, s.counters);
      }
    case Terminal(_, _) =>
    case StepRelease(n, ok) =>
      if n < |s.releases| {
        assert ReleaseOk(s.requests, s.releases[n]);
        OnlyTheMarker(s.requests[s.releases[n].run], s.releases[n], ok);
        if n == j {
          ReleaseClears(s.requests[i], s.releases[j], ok);
        } else if s.releases[n].run == i {
          OtherClears(s.requests[i], s.releases[j], s.releases[n], ok);
        }
      }
  }

  /** No call of release `j` fails. */
  predicate Works(j: nat, more: seq<Action>) {
    forall n :: 0 <= n < |more| && more[n].StepRelease? && more[n].j == j ==> more[n].ok
  }

  lemma {:induction false} RunClears(cfg: Config, s: State, more: seq<Action>, j: nat, i: nat)
    requires Inv(cfg, s) && ClearingAt(s, j, i) && Works(j, more)
    ensures Inv(cfg, Run(cfg, s, more)) && ClearingAt(Run(cfg, s, more), j, i)
  {
    if more != [] {
      var front, a := more[..|more| - 1], more[|more| - 1];
      RunClears(cfg, s, front, j, i);
      StepClears(cfg, Run(cfg, s, front), a, j, i);
      StepKeepsInv(cfg, Run(cfg, s, front), a);
    }
  }

  /** Whatever else happens, once release `j` has worked its way past its delete, the run has no marker. */
  ghost predicate LeavesNoMarker(cfg: Config, s: State, j: nat)
    requires j < |s.releases|
  {
    forall more :: Works(j, more) ==> MarkerGone(Run(cfg, s, more), j, s.releases[j].run)
  }

  predicate MarkerGone(s: State, j: nat, i: nat) {
    j < |s.releases| && i < |s.requests| && !Before(s.releases[j]) ==> s.requests[i].marker.None?
  }

  /** Over every interleaving with other requests, releases and roll-backs: a release that is about to begin
      is sure to leave no marker of its run behind, so that its slot and tokens are given back, if and only if
      the run's request is not still waiting to commit what it reserved. */
  lemma LeavesNoMarkerIff(cfg: Config, actions: seq<Action>, j: nat)
    requires j < |Run(cfg, INIT, actions).releases| && Run(cfg, INIT, actions).releases[j].pc.Get?
    ensures var s := Run(cfg, INIT, actions);
            && s.releases[j].run < |s.requests|
            && (LeavesNoMarker(cfg, s, j) <==> !MayStillMark(s.requests[s.releases[j].run]))
  {
    var s := Run(cfg, INIT, actions);
    Reachable(cfg, actions);
    AlwaysTied(cfg, actions);
    assert ReleaseOk(s.requests, s.releases[j]);
    var i := s.releases[j].run;
    assert s.requests[i] in s.requests && RequestTied(cfg, s.requests[i]);
    if MayStillMark(s.requests[i]) {
      OvertakesTheCommit(cfg, s, j);
    } else {
      forall more | Works(j, more) ensures MarkerGone(Run(cfg, s, more), j, i) {
        RunClears(cfg, s, more, j, i);
      }
    }
  }

  lemma Misses(cfg: Config, s: State, j: nat)
    requires j < |s.releases| && s.releases[j].pc.Get? && s.releases[j].run < |s.requests|
    requires s.requests[s.releases[j].run].marker.None?
    ensures Step(cfg, s, StepRelease(j, true)) == s.(releases := s.releases[j := s.releases[j].(pc := Finished)])
  {
    StepReleaseAlone(cfg, s, j, true);
    assert s.requests[s.releases[j].run := s.requests[s.releases[j].run]] == s.requests;
  }

  lemma Marks(cfg: Config, s: State, i: nat)
    requires i < |s.requests| && MayStillMark(s.requests[i]) && s.requests[i].marker.None?
    ensures var t := Step(cfg, s, StepRequest(i, true, "", ""));
            |t.requests| == |s.requests| && t.requests[i].marker.Some? && t.releases == s.releases
  {
  }

  /** The release finds no marker and is over; then the commit writes it. */
  lemma MissesThenMarks(cfg: Config, s: State, j: nat, i: nat)
    requires j < |s.releases| && s.releases[j].pc.Get? && s.releases[j].run == i < |s.requests|
    requires MayStillMark(s.requests[i]) && s.requests[i].marker.None?
    ensures var overtaken := Run(cfg, s, [StepRelease(j, true), StepRequest(i, true, "", "")]);
            !MarkerGone(overtaken, j, i)
  {
    var miss, mark := StepRelease(j, true), StepRequest(i, true, "", "");
    Misses(cfg, s, j);
    Marks(cfg, Step(cfg, s, miss), i);
    RunThen(cfg, s, [], miss);
    RunThen(cfg, s, [miss], mark);
    assert [] + [miss] == [miss] && [miss] + [mark] == [miss, mark];
  }

  lemma OvertakesTheCommit(cfg: Config, s: State, j: nat)
    requires Inv(cfg, s) && j < |s.releases| && s.releases[j].pc.Get? && s.releases[j].run < |s.requests|
    requires MayStillMark(s.requests[s.releases[j].run])
    ensures !LeavesNoMarker(cfg, s, j)
  {
    var i := s.releases[j].run;
    assert s.requests[i].marker.None? by {
      assert RequestOk(cfg, s.requests[i]);
    }
    MissesThenMarks(cfg, s, j, i);
    assert Works(j, [StepRelease(j, true), StepRequest(i, true, "", "")]);
  }
}

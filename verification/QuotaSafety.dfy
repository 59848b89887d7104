/** The ledger, settlement and limit theorems over every interleaving. */
module QuotaSafety {
  import opened Common
  import opened QuotaKeys
  import opened QuotaProtocol
  import opened QuotaLedger

  // ---- one step of a release ----

  /** A release keeps both the request and itself well formed; its delete is the only change to the request. */
  lemma ReleaseKeeps(cfg: Config, r: Request, l: Release, ok: bool)
    requires RequestOk(cfg, r) && ReleaseFits(r, l)
    ensures var (r', l', _) := StepOfRelease(r, l, ok);
            Survives(cfg, r, r') && ReleaseFits(r', l') && l'.run == l.run
  {
  }

  /** The delete moves the marker's stake from the request to the release. */
  lemma DeleteBalances(r: Request, l: Release, ok: bool, k: Key)
    requires ReleaseFits(r, l) && l.pc.Delete?
    ensures var (r', l') := ReleaseDelete(r, l, l.pc.seen, ok);
            && Held(r', k) + ReleaseHeld(l', k) == Held(r, k) + ReleaseHeld(l, k)
            && Won(r', k) + ReleaseWon(l', k) == Won(r, k) + ReleaseWon(l, k)
  {
    var (r', l') := ReleaseDelete(r, l, l.pc.seen, ok);
    assert OwnHeld(r', k) == OwnHeld(r, k) && OwnWon(r', k) == OwnWon(r, k);
    assert LostHeld(r', k) == LostHeld(r, k);
    assert ReleaseHeld(l, k) == ReleaseWon(l, k) == 0;
    assert MarkerHeld(r, k) == MarkerHeld(r', k) + ReleaseHeld(l', k);
  }

  lemma DecrBalances(l: Release, ok: bool, k: Key)
    requires l.pc.DecrActive? && l.settled.None? && !l.lostActive
    ensures var (l', op) := ReleaseDecr(l, ok);
            && ReleaseHeld(l', k) == ReleaseHeld(l, k) + Delta(op, k)
            && ReleaseWon(l', k) <= ReleaseWon(l, k)
  {
  }

  lemma SettleBalances(l: Release, ok: bool, k: Key)
    requires l.pc.Settle? && l.settled.None?
    ensures var (l', op) := ReleaseSettle(l, ok);
            && ReleaseHeld(l', k) == ReleaseHeld(l, k) + Delta(op, k)
            && ReleaseWon(l', k) <= ReleaseWon(l, k)
  {
  }

  lemma ReleaseBalances(r: Request, l: Release, ok: bool, k: Key)
    requires ReleaseFits(r, l)
    ensures var (r', l', op) := StepOfRelease(r, l, ok);
            && Held(r', k) + ReleaseHeld(l', k) == Held(r, k) + ReleaseHeld(l, k) + Delta(op, k)
            && Won(r', k) + ReleaseWon(l', k) <= Won(r, k) + ReleaseWon(l, k)
  {
    match l.pc
    case Get =>
    case Delete(_) => DeleteBalances(r, l, ok, k);
    case DecrActive => DecrBalances(l, ok, k);
    case Settle => SettleBalances(l, ok, k);
    case Finished =>
  }

  /** A delete by a release either misses, or turns the marker into a taken one. */
  lemma ReleaseTakes(r: Request, l: Release, ok: bool)
    requires ReleaseFits(r, l)
    ensures var (r', l', _) := StepOfRelease(r, l, ok);
            && r'.marked == r.marked
            && MarkerCount(r') + (if l'.took then 1 else 0) == MarkerCount(r) + (if l.took then 1 else 0)
  {
  }

  // ---- the invariant, action by action ----

  lemma ReleaseFitsLater(cfg: Config, r: Request, r': Request, l: Release)
    requires ReleaseFits(r, l) && Survives(cfg, r, r')
    ensures ReleaseFits(r', l)
  {
  }

  lemma ArriveKeeps(cfg: Config, s: State, a: Action)
    requires Inv(cfg, s) && a.Arrive?
    ensures Inv(cfg, Step(cfg, s, a))
  {
    var s' := Step(cfg, s, a);
    var r := NewRequest(cfg, a.actor, a.chat, a.hint);
    assert RequestOk(cfg, r);
    forall k ensures Count(s'.counters, k) == TotalHeld(s', k) {
      SumAppend(s.requests, r, HeldAt(k));
      assert Held(r, k) == 0;
    }
    forall i | 0 <= i < |s'.requests| ensures Settlements(s', i) == if s'.requests[i].marked then 1 else 0 {
      if i < |s.requests| {
        assert Settlements(s, i) == Settlements(s', i);
      } else {
        NoEarlyTakers(s, i);
      }
    }
  }

  /** No release refers to a request that has not arrived. */
  lemma NoEarlyTakers(s: State, i: nat)
    requires i >= |s.requests| && forall l :: l in s.releases ==> ReleaseOk(s.requests, l)
    ensures Sum(s.releases, TookAt(i)) == 0
  {
    SumEqual(s.releases, TookAt(i), (l: Release) => 0);
    SumZero(s.releases);
  }

  lemma {:induction false} SumZero<T>(s: seq<T>)
    ensures Sum(s, (x: T) => 0) == 0
  {
    if s != [] {
      SumZero(s[..|s| - 1]);
    }
  }

  lemma StepRequestKeeps(cfg: Config, s: State, a: Action)
    requires Inv(cfg, s) && a.StepRequest? && a.i < |s.requests|
    ensures Inv(cfg, Step(cfg, s, a))
  {
    var i, s' := a.i, Step(cfg, s, a);
    var (r', op) := StepOf(cfg, s.requests[i], a.ok, a.hourStamp, a.dayStamp, s.counters);
    RequestKeeps(cfg, s.requests[i], a.ok, a.hourStamp, a.dayStamp, s.counters);
    forall l | l in s'.releases ensures ReleaseOk(s'.requests, l) {
      if l.run == i {
        ReleaseFitsLater(cfg, s.requests[i], r', l);
      }
    }
    forall k ensures Count(s'.counters, k) == TotalHeld(s', k) {
      RequestBalances(cfg, s.requests[i], a.ok, a.hourStamp, a.dayStamp, s.counters, k);
      SumUpdate(s.requests, i, r', HeldAt(k));
      CountApply(s.counters, op, k);
    }
    assert Settlements(s, i) == if s.requests[i].marked then 1 else 0;
    assert forall n :: 0 <= n < |s.requests| && n != i ==> Settlements(s', n) == Settlements(s, n);
  }

  lemma TerminalKeeps(cfg: Config, s: State, a: Action)
    requires Inv(cfg, s) && a.Terminal? && a.run < |s.requests| && Releasable(cfg, s.requests[a.run])
    ensures Inv(cfg, Step(cfg, s, a))
  {
    var s', r := Step(cfg, s, a), s.requests[a.run];
    var l := s'.releases[|s.releases|];
    assert r in s.requests;
    assert Actor(r.ask.actor.user, cfg.chats[r.ask.chat].project) == r.ask.actor;
    assert ReleaseFits(r, l);
    forall k ensures Count(s'.counters, k) == TotalHeld(s', k) {
      SumAppend(s.releases, l, ReleaseHeldAt(k));
    }
    forall n | 0 <= n < |s.requests| ensures Settlements(s', n) == Settlements(s, n) {
      SumAppend(s.releases, l, TookAt(n));
    }
  }

  lemma StepReleaseFits(cfg: Config, s: State, a: Action)
    requires Inv(cfg, s) && a.StepRelease? && a.j < |s.releases|
    ensures var s' := Step(cfg, s, a); forall m :: m in s'.releases ==> ReleaseOk(s'.requests, m)
  {
    var s' := Step(cfg, s, a);
    var l := s.releases[a.j];
    assert ReleaseOk(s.requests, l);
    var r := s.requests[l.run];
    var (r', l', op) := StepOfRelease(r, l, a.ok);
    ReleaseKeeps(cfg, r, l, a.ok);
    forall m | m in s'.releases ensures ReleaseOk(s'.requests, m) {
      if m != l' {
        assert m in s.releases;
        if m.run == l.run {
          ReleaseFitsLater(cfg, r, r', m);
        }
      }
    }
  }

  lemma StepReleaseBalances(cfg: Config, s: State, a: Action)
    requires Inv(cfg, s) && a.StepRelease? && a.j < |s.releases|
    ensures Ledger(Step(cfg, s, a))
  {
    var s' := Step(cfg, s, a);
    var l := s.releases[a.j];
    assert ReleaseOk(s.requests, l);
    var r := s.requests[l.run];
    var (r', l', op) := StepOfRelease(r, l, a.ok);
    forall k ensures Count(s'.counters, k) == TotalHeld(s', k) {
      ReleaseBalances(r, l, a.ok, k);
      SumUpdate(s.requests, l.run, r', HeldAt(k));
      SumUpdate(s.releases, a.j, l', ReleaseHeldAt(k));
      CountApply(s.counters, op, k);
    }
  }

  lemma StepReleaseSettles(cfg: Config, s: State, a: Action)
    requires Inv(cfg, s) && a.StepRelease? && a.j < |s.releases|
    ensures SettledOnce(Step(cfg, s, a))
  {
    var s' := Step(cfg, s, a);
    var l := s.releases[a.j];
    assert ReleaseOk(s.requests, l);
    var r := s.requests[l.run];
    var (r', l', op) := StepOfRelease(r, l, a.ok);
    ReleaseTakes(r, l, a.ok);
    forall n | 0 <= n < |s.requests| ensures Settlements(s', n) == if s'.requests[n].marked then 1 else 0 {
      assert Settlements(s, n) == if s.requests[n].marked then 1 else 0;
      SumUpdate(s.releases, a.j, l', TookAt(n));
    }
  }

  lemma StepReleaseKeeps(cfg: Config, s: State, a: Action)
    requires Inv(cfg, s) && a.StepRelease? && a.j < |s.releases|
    ensures Inv(cfg, Step(cfg, s, a))
  {
    var l := s.releases[a.j];
    assert ReleaseOk(s.requests, l);
    ReleaseKeeps(cfg, s.requests[l.run], l, a.ok);
    StepReleaseFits(cfg, s, a);
    StepReleaseBalances(cfg, s, a);
    StepReleaseSettles(cfg, s, a);
  }

  lemma StepKeepsInv(cfg: Config, s: State, a: Action)
    requires Inv(cfg, s)
    ensures Inv(cfg, Step(cfg, s, a))
  {
    match a
    case Arrive(_, _, _) => ArriveKeeps(cfg, s, a);
    case StepRequest(i, _, _, _) => if i < |s.requests| { StepRequestKeeps(cfg, s, a); }
    case Terminal(run, _) =>
      if run < |s.requests| && Releasable(cfg, s.requests[run]) { TerminalKeeps(cfg, s, a); }
    case StepRelease(j, _) => if j < |s.releases| { StepReleaseKeeps(cfg, s, a); }
  }

  /** Ledger, settlement and well-formedness hold in every reachable state. */
  lemma {:induction false} Reachable(cfg: Config, actions: seq<Action>)
    ensures Inv(cfg, Run(cfg, INIT, actions))
  {
    if actions == [] {
      assert forall k :: TotalHeld(INIT, k) == 0;
    } else {
      var n := |actions| - 1;
      Reachable(cfg, actions[..n]);
      StepKeepsInv(cfg, Run(cfg, INIT, actions[..n]), actions[n]);
    }
  }
}

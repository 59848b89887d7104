/** What every interleaving of the reservation protocol keeps: an exact ledger for every counter,
  a single settlement for every marker, and the limits for everything admitted. */
module QuotaLedger {
  import opened Common
  import opened QuotaKeys
  import opened QuotaProtocol

  // ---- who answers for which part of a counter ----

  function HeldLine(o: Option<Line>, k: Key): nat {
    if o.Some? && o.value.key == k then o.value.amount else 0
  }

  function WonLine(o: Option<Line>, k: Key): nat {
    if o.Some? && o.value.within then HeldLine(o, k) else 0
  }

  function MarkerHeld(r: Request, k: Key): nat {
    if r.marker.None? then 0
    else
      var m := r.marker.value;
      (if m.active && ActiveKey(r.ask.actor) == k then 1 else 0)
      + (if m.tokenKey == Some(k) then m.tokens else 0)
  }

  /** Active slot and tokens, as long as the reservation and not its marker answers for them. */
  function OwnHeld(r: Request, k: Key): nat {
    if Owns(r) then HeldLine(r.active, k) + HeldLine(r.tokens, k) else 0
  }

  function OwnWon(r: Request, k: Key): nat {
    if Owns(r) then WonLine(r.active, k) + WonLine(r.tokens, k) else 0
  }

  function LostHeld(r: Request, k: Key): nat {
    HeldLine(r.lost.active, k) + HeldLine(r.lost.hour, k) + HeldLine(r.lost.tokens, k)
  }

  /** The part of counter `k` that request `r` answers for: lines it still owns, its run's marker,
      and increments it failed to take back. */
  function Held(r: Request, k: Key): nat {
    OwnHeld(r, k) + HeldLine(r.hour, k) + MarkerHeld(r, k) + LostHeld(r, k)
  }

  /** The same, counting only increments that were within the limit. */
  function Won(r: Request, k: Key): nat {
    OwnWon(r, k) + WonLine(r.hour, k) + MarkerHeld(r, k)
  }

  /** What an admitted reservation, or the run it became, has not released yet. */
  function Admitted(r: Request, k: Key): nat {
    if !r.admitted then 0
    else OwnHeld(r, k) + HeldLine(r.hour, k) + MarkerHeld(r, k)
  }

  /** The part of counter `k` that a release answers for after it removed the marker. */
  function ReleaseHeld(l: Release, k: Key): nat {
    (if (l.active || l.lostActive) && l.key == k then 1 else 0) + HeldLine(l.tokens, k)
    + (if l.settled.Some? && l.settled.value.key == k then l.settled.value.amount else 0)
  }

  /** The same, with usage beyond the run's own reservation left out. */
  function ReleaseWon(l: Release, k: Key): nat {
    (if (l.active || l.lostActive) && l.key == k then 1 else 0) + HeldLine(l.tokens, k)
    + (if l.settled.Some? && l.settled.value.key == k then
         (if l.settled.value.amount <= l.settled.value.reserved then l.settled.value.amount
          else l.settled.value.reserved)
       else 0)
  }

  function HeldAt(k: Key): Request -> int { (r: Request) => Held(r, k) }
  function WonAt(k: Key): Request -> int { (r: Request) => Won(r, k) }
  function AdmittedAt(k: Key): Request -> int { (r: Request) => Admitted(r, k) }
  function ReleaseHeldAt(k: Key): Release -> int { (l: Release) => ReleaseHeld(l, k) }
  function ReleaseWonAt(k: Key): Release -> int { (l: Release) => ReleaseWon(l, k) }
  function TookAt(run: nat): Release -> int { (l: Release) => if l.run == run && l.took then 1 else 0 }

  function TotalHeld(s: State, k: Key): int {
    Sum(s.requests, HeldAt(k)) + Sum(s.releases, ReleaseHeldAt(k))
  }

  function TotalWon(s: State, k: Key): int {
    Sum(s.requests, WonAt(k)) + Sum(s.releases, ReleaseWonAt(k))
  }

  /** How often run `i`'s marker still exists or was removed. */
  function Settlements(s: State, i: nat): int
    requires i < |s.requests|
  {
    Sum(s.releases, TookAt(i)) + MarkerCount(s.requests[i])
  }

  // ---- the invariant ----

  predicate Forward(pc: Pc) {
    !(pc.RollbackMarker? || pc.RollbackActive? || pc.RollbackHour? || pc.RollbackTokens? || pc.Done?)
  }

  predicate Within(o: Option<Line>) {
    o.Some? ==> o.value.within
  }

  predicate NothingLost(r: Request) {
    r.lost == Lost(None, None, None)
  }

  predicate PhaseOk(r: Request) {
    match r.pc
    case Start | IncrActive => r.active.None? && r.hour.None? && r.tokens.None? && !r.admitted
    case ExpireActive | UndoActive => r.active.Some? && r.hour.None? && r.tokens.None? && !r.admitted
    case IncrHour => Within(r.active) && r.hour.None? && r.tokens.None? && !r.admitted
    case ExpireHour => Within(r.active) && r.hour.Some? && r.tokens.None? && !r.admitted
    case IncrTokens => Within(r.active) && Within(r.hour) && r.tokens.None? && !r.admitted
    case ExpireTokens => Within(r.active) && Within(r.hour) && r.tokens.Some? && !r.admitted
    case AddMessage => r.admitted
    case Commit => r.admitted && r.created
    case Dispatch => r.admitted && r.created && r.committed && (!r.marked ==> r.active.None? && r.tokens.None?)
    case RollbackMarker(out) => r.marked && !r.tookBack && NothingLost(r) && out != Accepted
    case RollbackActive(out) => NothingLost(r) && out != Accepted
    case RollbackHour(out) => r.active.None? && r.lost.hour.None? && r.lost.tokens.None? && out != Accepted
    case RollbackTokens(out) => r.active.None? && r.hour.None? && r.lost.tokens.None? && out != Accepted
    case Done(out) =>
      if out == Accepted then r.committed && !r.tookBack && (!r.marked ==> r.active.None? && r.tokens.None?)
      else r.active.None? && r.hour.None? && r.tokens.None?
  }

  predicate RequestOk(cfg: Config, r: Request) {
    && r.ask.policy == PolicyOf(cfg, r.ask.actor.project)
    && PhaseOk(r)
    && (r.active.Some? ==>
          r.active.value.key == ActiveKey(r.ask.actor) && r.active.value.amount == 1)
    && (r.hour.Some? ==> r.hour.value.amount == 1 && r.hour.value.key.Hour?)
    && (r.tokens.Some? ==> r.tokens.value.key.Tokens?)
    && (r.marker.Some? && r.marker.value.tokenKey.Some? ==> r.marker.value.tokenKey.value.Tokens?)
    && (Forward(r.pc) ==> NothingLost(r) && !r.tookBack)
    && (Forward(r.pc) && r.pc != Dispatch ==> !r.committed && !r.marked)
    && (!r.marked ==> r.marker.None? && !r.tookBack)
    && (r.marked ==> r.committed && r.created && r.admitted)
    && (r.tookBack ==> r.marker.None?)
    && (r.admitted ==> Within(r.active) && Within(r.hour) && Within(r.tokens))
    && (r.marker.Some? && (Forward(r.pc) || r.pc.RollbackMarker?) ==> r.marker.value == MarkerFor(r))
    && (r.created || (Forward(r.pc) && r.pc != Start) ==> CanRead(cfg, r.ask.actor, r.ask.chat))
  }

  /** What a release knows about the request `r` that created its run. */
  predicate ReleaseFits(r: Request, l: Release) {
    && r.created
    && l.key == ActiveKey(r.ask.actor)
    && (l.pc.Get? || l.pc.Delete? ==>
          !l.took && !l.active && l.tokens.None? && l.settled.None? && !l.lostActive)
    && (l.pc.Delete? ==> r.marked && (r.marker.Some? ==> r.marker.value == l.pc.seen))
    && (l.pc.DecrActive? ==> l.settled.None? && !l.lostActive)
    && (l.pc.Settle? ==> !l.active && l.settled.None?)
    && (l.pc.Finished? ==> !l.active && l.tokens.None?)
    && (l.tokens.Some? ==> l.tokens.value.key.Tokens?)
    && (l.settled.Some? ==> l.settled.value.key.Tokens?)
    && (l.pc.Delete? && l.pc.seen.tokenKey.Some? ==> l.pc.seen.tokenKey.value.Tokens?)
  }

  predicate ReleaseOk(requests: seq<Request>, l: Release) {
    l.run < |requests| && ReleaseFits(requests[l.run], l)
  }

  ghost predicate Ledger(s: State) {
    forall k :: Count(s.counters, k) == TotalHeld(s, k)
  }

  predicate SettledOnce(s: State) {
    forall i :: 0 <= i < |s.requests| ==> Settlements(s, i) == if s.requests[i].marked then 1 else 0
  }

  ghost predicate Inv(cfg: Config, s: State) {
    && (forall r :: r in s.requests ==> RequestOk(cfg, r))
    && (forall l :: l in s.releases ==> ReleaseOk(s.requests, l))
    && Ledger(s)
    && SettledOnce(s)
  }

  function Delta(op: StoreOp, k: Key): int {
    if op.Add? && op.key == k then op.amount else 0
  }

  lemma CountApply(counters: map<Key, int>, op: StoreOp, k: Key)
    ensures Count(Apply(counters, op), k) == Count(counters, k) + Delta(op, k)
  {
  }

  // ---- one step, seen from its own request or release ----

  /** A step keeps the request well formed, never unmakes a run, and sets a marker at most once. */
  predicate Survives(cfg: Config, r: Request, r': Request) {
    && RequestOk(cfg, r')
    && r'.ask == r.ask && (r.created ==> r'.created)
    && (r.marked ==> r'.marked && (r'.marker == r.marker || r'.marker.None?))
  }

  /** The marker, wherever it is: still stored, or removed by the request itself. */
  function MarkerCount(r: Request): nat {
    (if r.marker.Some? then 1 else 0) + (if r.tookBack then 1 else 0)
  }

  /** A request's own step also creates the marker or takes it back, and never drops it. */
  predicate StepKeeps(cfg: Config, r: Request, r': Request) {
    && Survives(cfg, r, r')
    && MarkerCount(r') - (if r'.marked then 1 else 0) == MarkerCount(r) - (if r.marked then 1 else 0)
  }

  /** A step changes what the request holds on `k` by what it changes in the store, and wins an
      amount only on its way forward and if the new counter value is within the limit. */
  predicate StepBalances(r: Request, r': Request, op: StoreOp, c: map<Key, int>, k: Key) {
    && Held(r', k) == Held(r, k) + Delta(op, k)
    && (|| Won(r', k) <= Won(r, k)
        || (&& Forward(r.pc) && r.pc != Start && !k.RunMarker? && k.project == SafeKey(r.ask.actor.project)
            && Won(r', k) == Won(r, k) + Delta(op, k)
            && Count(c, k) + Delta(op, k) <= LimitFor(r.ask.policy, k)))
  }

  /** Everything a request answers for is unchanged. */
  predicate SameStake(r: Request, r': Request) {
    && r'.ask == r.ask && r'.active == r.active && r'.hour == r.hour && r'.tokens == r.tokens
    && r'.marked == r.marked && r'.tookBack == r.tookBack && r'.marker == r.marker
    && r'.lost == r.lost
  }

  lemma SameStakeBalances(r: Request, r': Request, k: Key)
    ensures SameStake(r, r') ==> Held(r', k) == Held(r, k) && Won(r', k) == Won(r, k)
  {
  }

  /** What is given back leaves the store or stays behind as lost. */
  lemma GiveBackBalances(o: Option<Line>, owned: bool, ok: bool, k: Key)
    ensures var (lost, op) := GiveBack(o, owned, ok);
            && HeldLine(lost, k) == (if owned then HeldLine(o, k) else 0) + Delta(op, k)
  {
  }

  lemma BeginTokensKeeps(cfg: Config, r: Request)
    requires RequestOk(cfg, r.(pc := IncrTokens))
    ensures RequestOk(cfg, BeginTokens(cfg, r)) && SameStake(r, BeginTokens(cfg, r))
  {
  }

  lemma BeginHourKeeps(cfg: Config, r: Request)
    requires RequestOk(cfg, r.(pc := IncrHour))
    ensures RequestOk(cfg, BeginHour(cfg, r)) && SameStake(r, BeginHour(cfg, r))
  {
    BeginTokensKeeps(cfg, r);
  }

  lemma BeginActiveKeeps(cfg: Config, r: Request)
    requires RequestOk(cfg, r.(pc := IncrActive))
    ensures RequestOk(cfg, BeginActive(cfg, r)) && SameStake(r, BeginActive(cfg, r))
  {
    BeginHourKeeps(cfg, r);
  }

  lemma BeginRollbackKeeps(cfg: Config, r: Request, out: Outcome)
    requires RequestOk(cfg, r) && Forward(r.pc) && out != Accepted
    ensures RequestOk(cfg, BeginRollback(r, out)) && SameStake(r, BeginRollback(r, out))
  {
  }

  lemma StartKeeps(cfg: Config, r: Request, ok: bool)
    requires RequestOk(cfg, r) && r.pc.Start?
    ensures StepKeeps(cfg, r, StepStart(cfg, r, ok)) && SameStake(r, StepStart(cfg, r, ok))
  {
    if CanRead(cfg, r.ask.actor, r.ask.chat) && ok {
      assert RequestOk(cfg, r.(pc := IncrActive));
      BeginActiveKeeps(cfg, r);
    }
  }

  lemma IncrActiveKeeps(cfg: Config, r: Request, ok: bool, c: map<Key, int>)
    requires RequestOk(cfg, r) && r.pc.IncrActive?
    ensures var (r', _) := StepIncrActive(r, ok, c); StepKeeps(cfg, r, r')
  {
  }

  lemma IncrActiveBalances(cfg: Config, r: Request, ok: bool, c: map<Key, int>, k: Key)
    requires RequestOk(cfg, r) && r.pc.IncrActive?
    ensures var (r', op) := StepIncrActive(r, ok, c); StepBalances(r, r', op, c, k)
  {
  }

  lemma ExpireActiveKeeps(cfg: Config, r: Request, ok: bool)
    requires RequestOk(cfg, r) && r.pc.ExpireActive?
    ensures var r' := StepExpireActive(cfg, r, ok); StepKeeps(cfg, r, r') && SameStake(r, r')
  {
    BeginRollbackKeeps(cfg, r, Failed);
    if r.active.value.within {
      assert RequestOk(cfg, r.(pc := IncrHour));
      BeginHourKeeps(cfg, r);
    }
  }

  lemma UndoActiveKeeps(cfg: Config, r: Request, ok: bool)
    requires RequestOk(cfg, r) && r.pc.UndoActive?
    ensures var (r', _) := StepUndoActive(r, ok); StepKeeps(cfg, r, r')
  {
  }

  lemma UndoActiveBalances(cfg: Config, r: Request, ok: bool, c: map<Key, int>, k: Key)
    requires RequestOk(cfg, r) && r.pc.UndoActive?
    ensures var (r', op) := StepUndoActive(r, ok); StepBalances(r, r', op, c, k)
  {
    GiveBackBalances(r.active, true, ok, k);
  }

  lemma IncrHourKeeps(cfg: Config, r: Request, ok: bool, stamp: string, c: map<Key, int>)
    requires RequestOk(cfg, r) && r.pc.IncrHour?
    ensures var (r', _) := StepIncrHour(r, ok, stamp, c);
            StepKeeps(cfg, r, r')
  {
    BeginRollbackKeeps(cfg, r, Failed);
  }

  lemma IncrHourBalances(cfg: Config, r: Request, ok: bool, stamp: string, c: map<Key, int>, k: Key)
    requires RequestOk(cfg, r) && r.pc.IncrHour?
    ensures var (r', op) := StepIncrHour(r, ok, stamp, c);
            StepBalances(r, r', op, c, k)
  {
    var r' := StepIncrHour(r, ok, stamp, c).0;
    SameStakeBalances(r, r', k);
    assert OwnHeld(r', k) == OwnHeld(r, k) && OwnWon(r', k) == OwnWon(r, k);
    assert MarkerHeld(r', k) == MarkerHeld(r, k);
    assert LostHeld(r', k) == LostHeld(r, k);
  }

  lemma ExpireHourKeeps(cfg: Config, r: Request, ok: bool)
    requires RequestOk(cfg, r) && r.pc.ExpireHour?
    ensures var r' := StepExpireHour(cfg, r, ok); StepKeeps(cfg, r, r') && SameStake(r, r')
  {
    BeginRollbackKeeps(cfg, r, if ok then Denied else Failed);
    if r.hour.value.within {
      assert RequestOk(cfg, r.(pc := IncrTokens));
      BeginTokensKeeps(cfg, r);
    }
  }

  lemma IncrTokensKeeps(cfg: Config, r: Request, ok: bool, stamp: string, c: map<Key, int>)
    requires RequestOk(cfg, r) && r.pc.IncrTokens?
    ensures var (r', _) := StepIncrTokens(cfg, r, ok, stamp, c);
            StepKeeps(cfg, r, r')
  {
    BeginRollbackKeeps(cfg, r, Failed);
  }

  lemma IncrTokensBalances(cfg: Config, r: Request, ok: bool, stamp: string, c: map<Key, int>, k: Key)
    requires RequestOk(cfg, r) && r.pc.IncrTokens?
    ensures var (r', op) := StepIncrTokens(cfg, r, ok, stamp, c);
            StepBalances(r, r', op, c, k)
  {
    var r' := StepIncrTokens(cfg, r, ok, stamp, c).0;
    SameStakeBalances(r, r', k);
    assert MarkerHeld(r', k) == MarkerHeld(r, k) == 0;
    assert LostHeld(r', k) == 0;
  }

  lemma ExpireTokensKeeps(cfg: Config, r: Request, ok: bool)
    requires RequestOk(cfg, r) && r.pc.ExpireTokens?
    ensures var r' := StepExpireTokens(r, ok); StepKeeps(cfg, r, r') && SameStake(r, r')
  {
    BeginRollbackKeeps(cfg, r, if ok then Denied else Failed);
  }

  lemma AddMessageKeeps(cfg: Config, r: Request, ok: bool)
    requires RequestOk(cfg, r) && r.pc.AddMessage?
    ensures var r' := StepAddMessage(r, ok); StepKeeps(cfg, r, r') && SameStake(r, r')
  {
    BeginRollbackKeeps(cfg, r, Failed);
  }

  /** A commit moves the active slot and the tokens from the reservation to the marker. */
  lemma CommitKeeps(cfg: Config, r: Request, ok: bool)
    requires RequestOk(cfg, r) && r.pc.Commit?
    ensures var r' := StepCommit(r, ok); StepKeeps(cfg, r, r')
  {
    BeginRollbackKeeps(cfg, r, Failed);
  }

  lemma CommitMoves(cfg: Config, r: Request, k: Key)
    requires RequestOk(cfg, r) && r.pc.Commit? && r.marker.None?
    ensures var r' := r.(marker := Some(MarkerFor(r)), marked := true, committed := true, pc := Dispatch);
            && OwnHeld(r', k) == OwnWon(r', k) == MarkerHeld(r, k) == 0
            && MarkerHeld(r', k) == OwnHeld(r, k) == OwnWon(r, k)
  {
  }

  lemma CommitBalances(cfg: Config, r: Request, ok: bool, c: map<Key, int>, k: Key)
    requires RequestOk(cfg, r) && r.pc.Commit?
    ensures var r' := StepCommit(r, ok); StepBalances(r, r', NoOp, c, k)
  {
    var r' := StepCommit(r, ok);
    if SameStake(r, r') {
      SameStakeBalances(r, r', k);
    } else {
      CommitMoves(cfg, r, k);
    }
  }

  lemma DispatchKeeps(cfg: Config, r: Request, ok: bool)
    requires RequestOk(cfg, r) && r.pc.Dispatch?
    ensures var r' := StepDispatch(r, ok); StepKeeps(cfg, r, r') && SameStake(r, r')
  {
    BeginRollbackKeeps(cfg, r, Failed);
  }

  /** The rollback's delete moves them back, if it is the one that removes the marker. */
  lemma RollbackMarkerKeeps(cfg: Config, r: Request, ok: bool)
    requires RequestOk(cfg, r) && r.pc.RollbackMarker?
    ensures var r' := StepRollbackMarker(r, r.pc.out, ok);
            StepKeeps(cfg, r, r')
  {
  }

  lemma RollbackMarkerBalances(cfg: Config, r: Request, ok: bool, c: map<Key, int>, k: Key)
    requires RequestOk(cfg, r) && r.pc.RollbackMarker?
    ensures var r' := StepRollbackMarker(r, r.pc.out, ok);
            StepBalances(r, r', NoOp, c, k)
  {
  }

  lemma RollbackActiveKeeps(cfg: Config, r: Request, ok: bool)
    requires RequestOk(cfg, r) && r.pc.RollbackActive?
    ensures var (r', _) := StepRollbackActive(r, r.pc.out, ok);
            StepKeeps(cfg, r, r')
  {
  }

  lemma RollbackActiveBalances(cfg: Config, r: Request, ok: bool, c: map<Key, int>, k: Key)
    requires RequestOk(cfg, r) && r.pc.RollbackActive?
    ensures var (r', op) := StepRollbackActive(r, r.pc.out, ok);
            StepBalances(r, r', op, c, k)
  {
    GiveBackBalances(r.active, Owns(r), ok, k);
  }

  lemma RollbackHourKeeps(cfg: Config, r: Request, ok: bool)
    requires RequestOk(cfg, r) && r.pc.RollbackHour?
    ensures var (r', _) := StepRollbackHour(r, r.pc.out, ok);
            StepKeeps(cfg, r, r')
  {
  }

  lemma RollbackHourBalances(cfg: Config, r: Request, ok: bool, c: map<Key, int>, k: Key)
    requires RequestOk(cfg, r) && r.pc.RollbackHour?
    ensures var (r', op) := StepRollbackHour(r, r.pc.out, ok);
            StepBalances(r, r', op, c, k)
  {
    GiveBackBalances(r.hour, true, ok, k);
  }

  lemma RollbackTokensKeeps(cfg: Config, r: Request, ok: bool)
    requires RequestOk(cfg, r) && r.pc.RollbackTokens?
    ensures var (r', _) := StepRollbackTokens(r, r.pc.out, ok);
            StepKeeps(cfg, r, r')
  {
  }

  lemma RollbackTokensBalances(cfg: Config, r: Request, ok: bool, c: map<Key, int>, k: Key)
    requires RequestOk(cfg, r) && r.pc.RollbackTokens?
    ensures var (r', op) := StepRollbackTokens(r, r.pc.out, ok);
            StepBalances(r, r', op, c, k)
  {
    GiveBackBalances(r.tokens, Owns(r), ok, k);
  }

  lemma RequestKeeps(cfg: Config, r: Request, ok: bool, hs: string, ds: string, c: map<Key, int>)
    requires RequestOk(cfg, r)
    ensures StepKeeps(cfg, r, StepOf(cfg, r, ok, hs, ds, c).0)
  {
    match r.pc
    case Start => StartKeeps(cfg, r, ok);
    case IncrActive => IncrActiveKeeps(cfg, r, ok, c);
    case ExpireActive => ExpireActiveKeeps(cfg, r, ok);
    case UndoActive => UndoActiveKeeps(cfg, r, ok);
    case IncrHour => IncrHourKeeps(cfg, r, ok, hs, c);
    case ExpireHour => ExpireHourKeeps(cfg, r, ok);
    case IncrTokens => IncrTokensKeeps(cfg, r, ok, ds, c);
    case ExpireTokens => ExpireTokensKeeps(cfg, r, ok);
    case AddMessage => AddMessageKeeps(cfg, r, ok);
    case Commit => CommitKeeps(cfg, r, ok);
    case Dispatch => DispatchKeeps(cfg, r, ok);
    case RollbackMarker(_) => RollbackMarkerKeeps(cfg, r, ok);
    case RollbackActive(_) => RollbackActiveKeeps(cfg, r, ok);
    case RollbackHour(_) => RollbackHourKeeps(cfg, r, ok);
    case RollbackTokens(_) => RollbackTokensKeeps(cfg, r, ok);
    case Done(_) =>
  }

  lemma RequestBalances(cfg: Config, r: Request, ok: bool, hs: string, ds: string, c: map<Key, int>, k: Key)
    requires RequestOk(cfg, r)
    ensures var (r', op) := StepOf(cfg, r, ok, hs, ds, c); StepBalances(r, r', op, c, k)
  {
    SameStakeBalances(r, StepOf(cfg, r, ok, hs, ds, c).0, k);
    match r.pc
    case Start => StartKeeps(cfg, r, ok);
    case IncrActive => IncrActiveBalances(cfg, r, ok, c, k);
    case ExpireActive => ExpireActiveKeeps(cfg, r, ok);
    case UndoActive => UndoActiveBalances(cfg, r, ok, c, k);
    case IncrHour => IncrHourBalances(cfg, r, ok, hs, c, k);
    case ExpireHour => ExpireHourKeeps(cfg, r, ok);
    case IncrTokens => IncrTokensBalances(cfg, r, ok, ds, c, k);
    case ExpireTokens => ExpireTokensKeeps(cfg, r, ok);
    case AddMessage => AddMessageKeeps(cfg, r, ok);
    case Commit => CommitBalances(cfg, r, ok, c, k);
    case Dispatch => DispatchKeeps(cfg, r, ok);
    case RollbackMarker(_) => RollbackMarkerBalances(cfg, r, ok, c, k);
    case RollbackActive(_) => RollbackActiveBalances(cfg, r, ok, c, k);
    case RollbackHour(_) => RollbackHourBalances(cfg, r, ok, c, k);
    case RollbackTokens(_) => RollbackTokensBalances(cfg, r, ok, c, k);
    case Done(_) =>
  }

  function LimitFor(p: Policy, k: Key): int {
    match k
    case Active(_, _) => p.maxConcurrent
    case Hour(_, _, _) => p.maxPerHour
    case Tokens(_, _, _) => p.maxTokensPerDay
    case RunMarker(_) => 0
  }
}

/** The run-quota reservation protocol as a state machine.

  Every step of a `createMessage` request or of a `ReleaseRun` call that touches Redis is one atomic
  action, so a sequence of actions is an interleaving of any number of requests and releases.
  A store call may fail at any step; a failed call has no effect. */
module QuotaProtocol {
  import opened Common
  import opened QuotaKeys

  /** A limit that is not positive is switched off. */
  datatype Policy = Policy(maxConcurrent: int, maxPerHour: int, maxTokensPerDay: int)

  datatype Chat = Chat(user: string, project: string)

  datatype Config = Config(
    policies: map<string, Policy>,
    fallback: Policy,
    tokensPerRun: nat,
    chats: map<string, Chat>)

  function PolicyOf(cfg: Config, project: string): Policy {
    if project in cfg.policies then cfg.policies[project] else cfg.fallback
  }

  predicate CanRead(cfg: Config, actor: Actor, chat: string) {
    chat in cfg.chats && cfg.chats[chat].user == actor.user && cfg.chats[chat].project == actor.project
  }

  /** One increment a reservation has made: where, how much, and whether the value it
      returned was within the limit. */
  datatype Line = Line(key: Key, amount: nat, within: bool)

  datatype Marker = Marker(active: bool, tokenKey: Option<Key>, tokens: nat)

  datatype Outcome = NotFound | Denied | Failed | Accepted

  datatype Pc =
    | Start
    | IncrActive | ExpireActive | UndoActive
    | IncrHour | ExpireHour
    | IncrTokens | ExpireTokens
    | AddMessage | Commit | Dispatch
    | RollbackMarker(out: Outcome) | RollbackActive(out: Outcome)
    | RollbackHour(out: Outcome) | RollbackTokens(out: Outcome)
    | Done(out: Outcome)

  /** Who asks, in which chat, with which token estimate and under which policy. */
  datatype Ask = Ask(actor: Actor, chat: string, hint: int, policy: Policy)

  datatype Lost = Lost(active: Option<Line>, hour: Option<Line>, tokens: Option<Line>)

  /** A `createMessage` request, its reservation, and the Redis marker of the run it creates.
      `charged` remembers the token line it was given; `tookBack` is set when the rollback's own delete
      removed the marker, `lost` the lines whose decrement failed and whose increment stayed behind. */
  datatype Request = Request(
    ask: Ask, pc: Pc,
    active: Option<Line>, hour: Option<Line>, tokens: Option<Line>, charged: Option<Line>,
    committed: bool, marked: bool, tookBack: bool, created: bool, admitted: bool,
    marker: Option<Marker>, lost: Lost)

  datatype ReleasePc = Get | Delete(seen: Marker) | DecrActive | Settle | Finished

  datatype Settled = Settled(key: Key, amount: nat, reserved: nat)

  /** A `ReleaseRun` call for the run created by request `run`. */
  datatype Release = Release(
    run: nat, key: Key, actual: nat, pc: ReleasePc,
    took: bool, active: bool, tokens: Option<Line>, settled: Option<Settled>, lostActive: bool)

  datatype State = State(counters: map<Key, int>, requests: seq<Request>, releases: seq<Release>)

  datatype Action =
    | Arrive(actor: Actor, chat: string, hint: int)
    | StepRequest(i: nat, ok: bool, hourStamp: string, dayStamp: string)
    | Terminal(run: nat, actual: nat)
    | StepRelease(j: nat, ok: bool)

  /** The store call of a step: at most one counter changes. */
  datatype StoreOp = NoOp | Add(key: Key, amount: int)

  function Count(counters: map<Key, int>, k: Key): int {
    if k in counters then counters[k] else 0
  }

  function Apply(counters: map<Key, int>, op: StoreOp): map<Key, int> {
    match op
    case NoOp => counters
    case Add(k, n) => counters[k := Count(counters, k) + n]
  }

  // ---- one step of a request ----

  function NewRequest(cfg: Config, actor: Actor, chat: string, hint: int): Request {
    Request(Ask(actor, chat, hint, PolicyOf(cfg, actor.project)), Start,
            None, None, None, None, false, false, false, false, false, None, Lost(None, None, None))
  }

  function TokenReservation(cfg: Config, r: Request): nat {
    if r.ask.hint > 0 then r.ask.hint else cfg.tokensPerRun
  }

  function BeginTokens(cfg: Config, r: Request): Request {
    if r.ask.policy.maxTokensPerDay > 0 && TokenReservation(cfg, r) > 0 then r.(pc := IncrTokens)
    else r.(pc := AddMessage, admitted := true)
  }

  function BeginHour(cfg: Config, r: Request): Request {
    if r.ask.policy.maxPerHour > 0 then r.(pc := IncrHour) else BeginTokens(cfg, r)
  }

  function BeginActive(cfg: Config, r: Request): Request {
    if r.ask.policy.maxConcurrent > 0 then r.(pc := IncrActive) else BeginHour(cfg, r)
  }

  function BeginRollback(r: Request, out: Outcome): Request {
    r.(pc := if r.committed && r.marked then RollbackMarker(out) else RollbackActive(out))
  }

  /** The reservation still answers for its active slot and tokens, not its marker. */
  predicate Owns(r: Request) {
    !r.marked || r.tookBack
  }

  function MarkerFor(r: Request): Marker {
    Marker(r.active.Some?,
           if r.tokens.Some? then Some(r.tokens.value.key) else None,
           if r.tokens.Some? then r.tokens.value.amount else 0)
  }

  /** Take back one line. A failed decrement leaves the line behind as lost. */
  function GiveBack(o: Option<Line>, owned: bool, ok: bool): (Option<Line>, StoreOp) {
    if o.None? || !owned then (None, NoOp)
    else if ok then (None, Add(o.value.key, -(o.value.amount as int)))
    else (o, NoOp)
  }

  function StepStart(cfg: Config, r: Request, ok: bool): Request {
    if !CanRead(cfg, r.ask.actor, r.ask.chat) then r.(pc := Done(NotFound))
    else if !ok then r.(pc := Done(Denied))
    else BeginActive(cfg, r)
  }

  function StepIncrActive(r: Request, ok: bool, counters: map<Key, int>): (Request, StoreOp) {
    var key := ActiveKey(r.ask.actor);
    if !ok then (r.(pc := Done(Failed)), NoOp)
    else
      (r.(active := Some(Line(key, 1, Count(counters, key) + 1 <= r.ask.policy.maxConcurrent)), pc := ExpireActive),
       Add(key, 1))
  }

  function StepExpireActive(cfg: Config, r: Request, ok: bool): Request {
    if !ok then BeginRollback(r, Failed)
    else if r.active.Some? && !r.active.value.within then r.(pc := UndoActive)
    else BeginHour(cfg, r)
  }

  function StepUndoActive(r: Request, ok: bool): (Request, StoreOp) {
    var (lost, op) := GiveBack(r.active, true, ok);
    (r.(active := None, lost := r.lost.(active := lost), pc := Done(Denied)), op)
  }

  function StepIncrHour(r: Request, ok: bool, stamp: string, counters: map<Key, int>): (Request, StoreOp) {
    var key := HourKey(r.ask.actor, stamp);
    if !ok then (BeginRollback(r, Failed), NoOp)
    else
      (r.(hour := Some(Line(key, 1, Count(counters, key) + 1 <= r.ask.policy.maxPerHour)), pc := ExpireHour),
       Add(key, 1))
  }

  function StepExpireHour(cfg: Config, r: Request, ok: bool): Request {
    if !ok then BeginRollback(r, Failed)
    else if r.hour.Some? && !r.hour.value.within then BeginRollback(r, Denied)
    else BeginTokens(cfg, r)
  }

  function StepIncrTokens(cfg: Config, r: Request, ok: bool, stamp: string, counters: map<Key, int>)
    : (Request, StoreOp)
  {
    var key, n := TokenKey(r.ask.actor, stamp), TokenReservation(cfg, r);
    if !ok then (BeginRollback(r, Failed), NoOp)
    else
      var line := Some(Line(key, n, Count(counters, key) + n <= r.ask.policy.maxTokensPerDay));
      (r.(tokens := line, charged := line, pc := ExpireTokens), Add(key, n))
  }

  function StepExpireTokens(r: Request, ok: bool): Request {
    if !ok then BeginRollback(r, Failed)
    else if r.tokens.Some? && !r.tokens.value.within then BeginRollback(r, Denied)
    else r.(pc := AddMessage, admitted := true)
  }

  function StepAddMessage(r: Request, ok: bool): Request {
    if !ok then BeginRollback(r, Failed) else r.(created := true, pc := Commit)
  }

  function StepCommit(r: Request, ok: bool): Request {
    if r.active.None? && r.tokens.None? then r.(committed := true, pc := Dispatch)
    else if !ok || r.marker.Some? then BeginRollback(r, Failed)
    else r.(marker := Some(MarkerFor(r)), marked := true, committed := true, pc := Dispatch)
  }

  function StepDispatch(r: Request, ok: bool): Request {
    if ok then r.(pc := Done(Accepted)) else BeginRollback(r, Failed)
  }

  function StepRollbackMarker(r: Request, out: Outcome, ok: bool): Request {
    r.(tookBack := ok && r.marker.Some?, marker := if ok then None else r.marker, pc := RollbackActive(out))
  }

  function StepRollbackActive(r: Request, out: Outcome, ok: bool): (Request, StoreOp) {
    var (lost, op) := GiveBack(r.active, Owns(r), ok);
    (r.(active := None, lost := r.lost.(active := lost), pc := RollbackHour(out)), op)
  }

  function StepRollbackHour(r: Request, out: Outcome, ok: bool): (Request, StoreOp) {
    var (lost, op) := GiveBack(r.hour, true, ok);
    (r.(hour := None, lost := r.lost.(hour := lost), pc := RollbackTokens(out)), op)
  }

  function StepRollbackTokens(r: Request, out: Outcome, ok: bool): (Request, StoreOp) {
    var (lost, op) := GiveBack(r.tokens, Owns(r), ok);
    (r.(tokens := None, lost := r.lost.(tokens := lost), pc := Done(out)), op)
  }

  function StepOf(cfg: Config, r: Request, ok: bool, hourStamp: string, dayStamp: string,
                  counters: map<Key, int>): (Request, StoreOp)
  {
    match r.pc
    case Start => (StepStart(cfg, r, ok), NoOp)
    case IncrActive => StepIncrActive(r, ok, counters)
    case ExpireActive => (StepExpireActive(cfg, r, ok), NoOp)
    case UndoActive => StepUndoActive(r, ok)
    case IncrHour => StepIncrHour(r, ok, hourStamp, counters)
    case ExpireHour => (StepExpireHour(cfg, r, ok), NoOp)
    case IncrTokens => StepIncrTokens(cfg, r, ok, dayStamp, counters)
    case ExpireTokens => (StepExpireTokens(r, ok), NoOp)
    case AddMessage => (StepAddMessage(r, ok), NoOp)
    case Commit => (StepCommit(r, ok), NoOp)
    case Dispatch => (StepDispatch(r, ok), NoOp)
    case RollbackMarker(out) => (StepRollbackMarker(r, out, ok), NoOp)
    case RollbackActive(out) => StepRollbackActive(r, out, ok)
    case RollbackHour(out) => StepRollbackHour(r, out, ok)
    case RollbackTokens(out) => StepRollbackTokens(r, out, ok)
    case Done(_) => (r, NoOp)
  }

  // ---- one step of a release ----

  function ReleaseGet(r: Request, l: Release, ok: bool): Release {
    if !ok || r.marker.None? then l.(pc := Finished) else l.(pc := Delete(r.marker.value))
  }

  /** The deleting step removes the run's marker, and only the call that removes it goes on. */
  function ReleaseDelete(r: Request, l: Release, seen: Marker, ok: bool): (Request, Release) {
    if !ok || r.marker.None? then (r, l.(pc := Finished))
    else
      (r.(marker := None),
       l.(pc := DecrActive, took := true, active := seen.active,
          tokens := if seen.tokens > 0 && seen.tokenKey.Some?
                    then Some(Line(seen.tokenKey.value, seen.tokens, true)) else None))
  }

  function ReleaseDecr(l: Release, ok: bool): (Release, StoreOp) {
    if !l.active then (l.(pc := Settle), NoOp)
    else if ok then (l.(pc := Settle, active := false), Add(l.key, -1))
    else (l.(pc := Settle, active := false, lostActive := true), NoOp)
  }

  /** Replace the reserved tokens by the actual usage; a failed call leaves the reservation charged. */
  function ReleaseSettle(l: Release, ok: bool): (Release, StoreOp) {
    if l.tokens.None? then (l.(pc := Finished), NoOp)
    else
      var t := l.tokens.value;
      var delta := l.actual - t.amount;
      var charged := if ok || delta == 0 then l.actual else t.amount;
      (l.(pc := Finished, tokens := None, settled := Some(Settled(t.key, charged, t.amount))),
       if ok && delta != 0 then Add(t.key, delta) else NoOp)
  }

  function StepOfRelease(r: Request, l: Release, ok: bool): (Request, Release, StoreOp)
  {
    match l.pc
    case Get => (r, ReleaseGet(r, l, ok), NoOp)
    case Delete(seen) => var (r', l') := ReleaseDelete(r, l, seen, ok); (r', l', NoOp)
    case DecrActive => var (l', op) := ReleaseDecr(l, ok); (r, l', op)
    case Settle => var (l', op) := ReleaseSettle(l, ok); (r, l', op)
    case Finished => (r, l, NoOp)
  }

  // ---- the whole system ----

  const INIT := State(map[], [], [])

  /** A release uses the run's user and its chat's project, and is skipped without a project. */
  predicate Releasable(cfg: Config, r: Request) {
    r.created && r.ask.chat in cfg.chats && cfg.chats[r.ask.chat].project != ""
  }

  function Step(cfg: Config, s: State, a: Action): State {
    match a
    case Arrive(actor, chat, hint) =>
      s.(requests := s.requests + [NewRequest(cfg, actor, chat, hint)])
    case StepRequest(i, ok, hourStamp, dayStamp) =>
      if i >= |s.requests| then s
      else
        var (r, op) := StepOf(cfg, s.requests[i], ok, hourStamp, dayStamp, s.counters);
        s.(requests := s.requests[i := r], counters := Apply(s.counters, op))
    case Terminal(run, actual) =>
      if run >= |s.requests| || !Releasable(cfg, s.requests[run]) then s
      else
        var r := s.requests[run];
        var key := ActiveKey(Actor(r.ask.actor.user, cfg.chats[r.ask.chat].project));
        s.(releases := s.releases + [Release(run, key, actual, Get, false, false, None, None, false)])
    case StepRelease(j, ok) =>
      if j >= |s.releases| || s.releases[j].run >= |s.requests| then s
      else
        var run := s.releases[j].run;
        var (r, l, op) := StepOfRelease(s.requests[run], s.releases[j], ok);
        s.(requests := s.requests[run := r], releases := s.releases[j := l],
           counters := Apply(s.counters, op))
  }

  function Stepper(cfg: Config): (State, Action) -> State {
    (s: State, a: Action) => Step(cfg, s, a)
  }

  function Run(cfg: Config, s: State, actions: seq<Action>): State {
    Iterate(Stepper(cfg), s, actions)
  }

  lemma RunThen(cfg: Config, s: State, actions: seq<Action>, a: Action)
    ensures Run(cfg, s, actions + [a]) == Step(cfg, Run(cfg, s, actions), a)
  {
    IterateThen(Stepper(cfg), s, actions, a);
  }

  // ---- one actor running alone ----

  /** Outcome and clock readings of one store call of a request. */
  datatype Call = Call(ok: bool, hourStamp: string, dayStamp: string)

  /** A request with the counters it sees. */
  datatype Solo = Solo(request: Request, counters: map<Key, int>)

  function After(effect: (Request, StoreOp), counters: map<Key, int>): Solo {
    Solo(effect.0, Apply(counters, effect.1))
  }

  function SoloStep(cfg: Config, s: Solo, call: Call): Solo {
    After(StepOf(cfg, s.request, call.ok, call.hourStamp, call.dayStamp, s.counters), s.counters)
  }

  function SoloStepper(cfg: Config): (Solo, Call) -> Solo {
    (s: Solo, call: Call) => SoloStep(cfg, s, call)
  }

  /** The steps of a single request, with no other actor in between. */
  function RequestRun(cfg: Config, s: Solo, calls: seq<Call>): Solo {
    Iterate(SoloStepper(cfg), s, calls)
  }

  lemma RequestRunThen(cfg: Config, s: Solo, calls: seq<Call>, call: Call)
    ensures RequestRun(cfg, s, calls + [call]) == SoloStep(cfg, RequestRun(cfg, s, calls), call)
  {
    IterateThen(SoloStepper(cfg), s, calls, call);
  }

  function RequestAction(i: nat, call: Call): Action {
    StepRequest(i, call.ok, call.hourStamp, call.dayStamp)
  }

  function RequestActions(i: nat, calls: seq<Call>): seq<Action> {
    seq(|calls|, n requires 0 <= n < |calls| => RequestAction(i, calls[n]))
  }

  /** A request running alone is a run of the whole system that changes nothing else. */
  lemma {:induction false} RequestRunEmbeds(cfg: Config, s: State, i: nat, calls: seq<Call>)
    requires i < |s.requests|
    ensures var solo := RequestRun(cfg, Solo(s.requests[i], s.counters), calls);
            Run(cfg, s, RequestActions(i, calls))
            == s.(requests := s.requests[i := solo.request], counters := solo.counters)
  {
    if calls != [] {
      var n := |calls| - 1;
      RequestRunEmbeds(cfg, s, i, calls[..n]);
      RequestRunThen(cfg, Solo(s.requests[i], s.counters), calls[..n], calls[n]);
      assert calls == calls[..n] + [calls[n]];
      assert RequestActions(i, calls) == RequestActions(i, calls[..n]) + [RequestAction(i, calls[n])];
      RunThen(cfg, s, RequestActions(i, calls[..n]), RequestAction(i, calls[n]));
    } else {
      assert s.requests[i := s.requests[i]] == s.requests;
    }
  }

  // ---- one release running alone ----

  datatype SoloRelease = SoloRelease(request: Request, release: Release, counters: map<Key, int>)

  function ReleaseStep(s: SoloRelease, ok: bool): SoloRelease {
    var (r, l, op) := StepOfRelease(s.request, s.release, ok);
    SoloRelease(r, l, Apply(s.counters, op))
  }

  /** The steps of a single release, with no other actor in between. */
  function ReleaseSteps(s: SoloRelease, oks: seq<bool>): SoloRelease {
    Iterate(ReleaseStep, s, oks)
  }

  function ReleaseActions(j: nat, oks: seq<bool>): seq<Action> {
    seq(|oks|, n requires 0 <= n < |oks| => StepRelease(j, oks[n]))
  }

  lemma StepReleaseAlone(cfg: Config, s: State, j: nat, ok: bool)
    requires j < |s.releases| && s.releases[j].run < |s.requests|
    ensures var i := s.releases[j].run;
            var solo := ReleaseStep(SoloRelease(s.requests[i], s.releases[j], s.counters), ok);
            && solo.release.run == i
            && Step(cfg, s, StepRelease(j, ok))
               == State(solo.counters, s.requests[i := solo.request], s.releases[j := solo.release])
  {
  }

  /** A release running alone is a run of the whole system that changes nothing but its own request. */
  lemma {:induction false} ReleaseStepsEmbed(cfg: Config, s: State, j: nat, oks: seq<bool>)
    requires j < |s.releases| && s.releases[j].run < |s.requests|
    ensures var i := s.releases[j].run;
            var solo := ReleaseSteps(SoloRelease(s.requests[i], s.releases[j], s.counters), oks);
            && solo.release.run == i
            && Run(cfg, s, ReleaseActions(j, oks))
               == State(solo.counters, s.requests[i := solo.request], s.releases[j := solo.release])
  {
    var i := s.releases[j].run;
    if oks == [] {
      assert s.requests[i := s.requests[i]] == s.requests;
      assert s.releases[j := s.releases[j]] == s.releases;
    } else {
      var n := |oks| - 1;
      ReleaseStepsEmbed(cfg, s, j, oks[..n]);
      assert ReleaseActions(j, oks) == ReleaseActions(j, oks[..n]) + [StepRelease(j, oks[n])];
      RunThen(cfg, s, ReleaseActions(j, oks[..n]), StepRelease(j, oks[n]));
      StepReleaseAlone(cfg, Run(cfg, s, ReleaseActions(j, oks[..n])), j, oks[n]);
    }
  }
}

/** The model provider's limiter: a bounded channel of slots, then one anchored window
  (modelprovider/rate_limiter.go), used by any number of concurrent model calls
  (modelprovider/operational_model.go). */
module Semaphore {
  import opened Common
  import opened RateWindows

  datatype Config = Config(requestsPerMinute: int, maxConcurrent: nat)

  datatype Caller = Waiting | Reserving | Refusing | Holding | Finished(admitted: bool)

  /** `fallbacks` counts the releases that found the channel empty. `calls` is the window's history. */
  datatype State = State(slots: nat, fallbacks: nat, calls: seq<Call>, callers: seq<Caller>)

  datatype Action = Arrive | Take(i: nat) | Cancel(i: nat) | Reserve(i: nat, now: int) | Undo(i: nat) | Release(i: nat)

  const INIT := State(0, 0, [], [])

  function Go(s: State, i: nat, pc: Caller): State
    requires i < |s.callers|
  {
    s.(callers := s.callers[i := pc])
  }

  /** Sending to the channel blocks while it is full. */
  function StepTake(cfg: Config, s: State, i: nat): State
    requires i < |s.callers|
  {
    var next := if cfg.requestsPerMinute <= 0 then Holding else Reserving;
    if !s.callers[i].Waiting? then s
    else if cfg.maxConcurrent == 0 then Go(s, i, next)
    else if s.slots < cfg.maxConcurrent then Go(s.(slots := s.slots + 1), i, next)
    else s
  }

  function CallOf(cfg: Config, now: int): Call {
    Call(now, "", cfg.requestsPerMinute)
  }

  function StepReserve(cfg: Config, s: State, i: nat, now: int): State
    requires i < |s.callers|
  {
    if !s.callers[i].Reserving? then s
    else
      var c := CallOf(cfg, now);
      Go(s.(calls := s.calls + [c]), i, if Allowed(Windows(s.calls), c) then Holding else Refusing)
  }

  /** The release function: it receives from the channel if there is anything in it. */
  function Free(cfg: Config, s: State): State {
    if cfg.maxConcurrent == 0 then s
    else if s.slots > 0 then s.(slots := s.slots - 1)
    else s.(fallbacks := s.fallbacks + 1)
  }

  function Step(cfg: Config, s: State, a: Action): State {
    match a
    case Arrive => s.(callers := s.callers + [Waiting])
    case Take(i) => if i < |s.callers| then StepTake(cfg, s, i) else s
    case Cancel(i) =>
      if i < |s.callers| && s.callers[i].Waiting? && cfg.maxConcurrent > 0 then Go(s, i, Finished(false)) else s
    case Reserve(i, now) => if i < |s.callers| then StepReserve(cfg, s, i, now) else s
    case Undo(i) => if i < |s.callers| && s.callers[i].Refusing? then Go(Free(cfg, s), i, Finished(false)) else s
    case Release(i) => if i < |s.callers| && s.callers[i].Holding? then Go(Free(cfg, s), i, Finished(true)) else s
  }

  function Stepper(cfg: Config): (State, Action) -> State {
    (s: State, a: Action) => Step(cfg, s, a)
  }

  function Run(cfg: Config, actions: seq<Action>): State {
    Iterate(Stepper(cfg), INIT, actions)
  }

  // ---- conservation ----

  /** From its send on the channel to its release a caller occupies a slot. */
  function Occupies(): Caller -> int {
    (c: Caller) => if c.Reserving? || c.Refusing? || c.Holding? then 1 else 0
  }

  predicate Conserved(cfg: Config, s: State) {
    && s.fallbacks == 0
    && if cfg.maxConcurrent == 0 then s.slots == 0
       else s.slots == Sum(s.callers, Occupies()) && s.slots <= cfg.maxConcurrent
  }

  lemma MoveConserves(cfg: Config, s: State, t: State, i: nat)
    requires Conserved(cfg, s) && i < |s.callers| == |t.callers| && t.callers == s.callers[i := t.callers[i]]
    requires t.fallbacks == s.fallbacks && t.slots <= Max(cfg.maxConcurrent, s.slots)
    requires cfg.maxConcurrent == 0 ==> t.slots == s.slots
    requires cfg.maxConcurrent > 0 ==> t.slots - s.slots == Occupies()(t.callers[i]) - Occupies()(s.callers[i])
    ensures Conserved(cfg, t)
  {
    SumUpdate(s.callers, i, t.callers[i], Occupies());
  }

  function Max(a: nat, b: nat): nat {
    if a < b then b else a
  }

  /** Whoever is about to release occupies a slot, so the channel is not empty. */
  lemma ReleaseFindsASlot(cfg: Config, s: State, i: nat)
    requires Conserved(cfg, s) && cfg.maxConcurrent > 0 && i < |s.callers|
    requires s.callers[i].Refusing? || s.callers[i].Holding?
    ensures s.slots > 0
  {
    SumNonNegative(s.callers, Occupies());
    assert Occupies()(s.callers[i]) == 1;
  }

  lemma StepConserves(cfg: Config, s: State, a: Action)
    requires Conserved(cfg, s)
    ensures Conserved(cfg, Step(cfg, s, a))
  {
    var t := Step(cfg, s, a);
    if a.Arrive? {
      SumAppend(s.callers, Waiting, Occupies());
    } else if t != s {
      if (a.Undo? || a.Release?) && cfg.maxConcurrent > 0 {
        ReleaseFindsASlot(cfg, s, a.i);
      }
      MoveConserves(cfg, s, t, a.i);
    }
  }

  /** Over all interleavings the occupied slots are the callers between their acquire and their release,
      never more than the maximum, and no release ever falls through its default branch. */
  lemma {:induction false} Conservation(cfg: Config, actions: seq<Action>)
    ensures Conserved(cfg, Run(cfg, actions))
  {
    if actions != [] {
      Conservation(cfg, actions[..|actions| - 1]);
      StepConserves(cfg, Run(cfg, actions[..|actions| - 1]), actions[|actions| - 1]);
    }
  }

  function Holds(): Caller -> int {
    (c: Caller) => if c.Holding? then 1 else 0
  }

  /** A refusal costs no slot: between acquisitions, the occupied slots are the model calls in progress. */
  lemma RefusalsHoldNothing(cfg: Config, actions: seq<Action>)
    requires cfg.maxConcurrent > 0
    requires forall c :: c in Run(cfg, actions).callers ==> !c.Reserving? && !c.Refusing?
    ensures Run(cfg, actions).slots == Sum(Run(cfg, actions).callers, Holds())
  {
    Conservation(cfg, actions);
    SumEqual(Run(cfg, actions).callers, Occupies(), Holds());
  }

  /** No slot leaks: after any interleaving a waiting caller gets in if fewer than the maximum are between their
      acquire and their release, and waits on if not. */
  lemma GetsInIff(cfg: Config, actions: seq<Action>, i: nat)
    requires cfg.maxConcurrent > 0
    requires i < |Run(cfg, actions).callers| && Run(cfg, actions).callers[i].Waiting?
    ensures var s := Run(cfg, actions);
            Step(cfg, s, Take(i)).callers[i]
            == if Sum(s.callers, Occupies()) >= cfg.maxConcurrent then Waiting
               else if cfg.requestsPerMinute > 0 then Reserving else Holding
  {
    Conservation(cfg, actions);
  }

  // ---- the window, over all interleavings ----

  lemma {:induction false} CallsShareTheLimit(cfg: Config, actions: seq<Action>)
    ensures var calls := Run(cfg, actions).calls;
            forall i :: 0 <= i < |calls| ==> calls[i].key == "" && calls[i].limit == cfg.requestsPerMinute
  {
    if actions != [] {
      CallsShareTheLimit(cfg, actions[..|actions| - 1]);
    }
  }

  predicate Ascending(calls: seq<Call>) {
    forall i, j :: 0 <= i < j < |calls| ==> calls[i].now <= calls[j].now
  }

  /** At most 2 * requestsPerMinute - 1 model calls start in any 60 seconds, whichever callers they are. */
  lemma CallsPerMinute(cfg: Config, actions: seq<Action>, from: int)
    requires cfg.requestsPerMinute > 0 && Ascending(Run(cfg, actions).calls)
    ensures Grants(Run(cfg, actions).calls, "", from) <= 2 * cfg.requestsPerMinute - 1
  {
    CallsShareTheLimit(cfg, actions);
    SlidingBound(Run(cfg, actions).calls, "", cfg.requestsPerMinute, 0, from);
    BoundValues(cfg.requestsPerMinute, 0);
  }

  // ---- the limiter itself ----

  class LocalRateLimiter {
    const cfg: Config
    var slots: nat
    var windowStart: Option<int>
    var windowUsed: nat
    ghost var calls: seq<Call>

    /** Its window is where its history of calls leaves it. */
    ghost predicate Valid()
      reads this
    {
      && slots <= cfg.maxConcurrent
      && WindowOf(Windows(calls), "")
         == if windowStart.Some? then Some(Window(windowStart.value, windowUsed)) else None
    }

    constructor (cfg: Config)
      ensures this.cfg == cfg && Valid() && slots == 0 && calls == []
    {
      this.cfg, slots, windowStart, windowUsed, calls := cfg, 0, None, 0, [];
    }

    method ReserveRequest(now: int) returns (allowed: bool)
      requires cfg.requestsPerMinute > 0 && Valid()
      modifies this`windowStart, this`windowUsed, this`calls
      ensures Valid() && calls == old(calls) + [CallOf(cfg, now)]
      ensures allowed == Allowed(Windows(old(calls)), CallOf(cfg, now))
    {
      calls := calls + [CallOf(cfg, now)];
      assert calls[..|calls| - 1] == old(calls);
      if windowStart.None? || now - windowStart.value >= MINUTE {
        windowStart := Some(now);
        windowUsed := 0;
      }
      if windowUsed >= cfg.requestsPerMinute {
        return false;
      }
      windowUsed := windowUsed + 1;
      return true;
    }

    method Release()
      modifies this`slots
      ensures slots == if cfg.maxConcurrent > 0 && old(slots) > 0 then old(slots) - 1 else old(slots)
    {
      if cfg.maxConcurrent > 0 && slots > 0 {
        slots := slots - 1;
      }
    }

    ghost predicate Admits(canceled: bool, now: int)
      reads this
    {
      !(cfg.maxConcurrent > 0 && canceled)
      && (cfg.requestsPerMinute > 0 ==> Allowed(Windows(calls), CallOf(cfg, now)))
    }

    /** The window is asked only by callers that were not cancelled, and only if there is one. */
    ghost function Asked(canceled: bool, now: int): seq<Call> {
      if !(cfg.maxConcurrent > 0 && canceled) && cfg.requestsPerMinute > 0 then [CallOf(cfg, now)] else []
    }

    /** `canceled` tells which way a select with a cancelled context goes; the channel is only entered
        when it has room, so a full channel with a live context is a caller still waiting. */
    method Acquire(canceled: bool, now: int) returns (acquired: bool)
      requires Valid() && (cfg.maxConcurrent > 0 && slots == cfg.maxConcurrent ==> canceled)
      modifies this
      ensures Valid() && acquired == old(Admits(canceled, now))
      ensures acquired <==>
                (cfg.maxConcurrent == 0 || !canceled)
                && (cfg.requestsPerMinute <= 0 || Allowed(Windows(old(calls)), Call(now, "", cfg.requestsPerMinute)))
      ensures slots == if acquired && cfg.maxConcurrent > 0 then old(slots) + 1 else old(slots)
      ensures calls == old(calls) + Asked(canceled, now)
    {
      if cfg.maxConcurrent > 0 {
        if canceled {
          return false;
        }
        slots := slots + 1;
      }
      if cfg.requestsPerMinute <= 0 {
        return true;
      }
      acquired := ReserveRequest(now);
      if !acquired {
        Release();
      }
    }

    /** `Generate`, `Stream` and `Probe`: acquire, call the provider, release on the way out. */
    method WithSlot(canceled: bool, now: int) returns (called: bool)
      requires Valid() && (cfg.maxConcurrent > 0 && slots == cfg.maxConcurrent ==> canceled)
      modifies this
      ensures Valid() && slots == old(slots) && called == old(Admits(canceled, now))
      ensures calls == old(calls) + Asked(canceled, now)
    {
      called := Acquire(canceled, now);
      if called {
        Release();
      }
    }
  }
}

/** The shared skill limiter: one Redis counter per key and calendar minute, incremented by any number of
  processes and given an expiry by whoever counted to one (tools/redis_rate_limiter.go). */
module RedisRateWindows {
  import opened Common
  import opened RateWindows

  /** The calendar minute of a reading. */
  function Minute(t: int): int {
    t / MINUTE
  }

  datatype Slot = Slot(key: string, minute: int)

  datatype Counter = Counter(count: nat, expiry: Option<int>)

  datatype Outcome = Granted | Denied | Expiring | ExpireFailed

  /** One call: the reading that picked its counter, and what became of it. */
  datatype Request = Request(key: string, reading: int, outcome: Outcome)

  datatype State = State(counters: map<Slot, Counter>, requests: seq<Request>)

  /** `at` is when the store executes the command; `second` and `third` are the readings the expiry is
      computed from. */
  datatype Action =
    | Incr(key: string, limit: int, reading: int, at: int, ok: bool)
    | Expire(i: nat, second: int, third: int, at: int, ok: bool)

  const INIT := State(map[], [])

  function TimeToLive(second: int, third: int): int {
    var ttl := (Minute(second) + 1) * MINUTE - third + MINUTE;
    if ttl < MINUTE then MINUTE else ttl
  }

  /** `INCR` of a missing or expired key starts at 1, without an expiry. */
  function Bump(counters: map<Slot, Counter>, k: Slot, at: int): Counter {
    if k in counters && !(counters[k].expiry.Some? && counters[k].expiry.value <= at)
    then Counter(counters[k].count + 1, counters[k].expiry)
    else Counter(1, None)
  }

  /** A count of one is not a grant yet: its caller still has to set the expiry. */
  function Verdict(count: nat, limit: int): Outcome {
    if count == 1 then Expiring else if count <= limit then Granted else Denied
  }

  function StepIncr(s: State, a: Action): State
    requires a.Incr?
  {
    if a.limit <= 0 then s
    else if !a.ok then s.(requests := s.requests + [Request(a.key, a.reading, Denied)])
    else
      var k := Slot(a.key, Minute(a.reading));
      var c := Bump(s.counters, k, a.at);
      State(s.counters[k := c], s.requests + [Request(a.key, a.reading, Verdict(c.count, a.limit))])
  }

  function StepExpire(s: State, a: Action): State
    requires a.Expire?
  {
    if a.i >= |s.requests| || !s.requests[a.i].outcome.Expiring? then s
    else
      var r := s.requests[a.i];
      var k := Slot(r.key, Minute(r.reading));
      var requests := s.requests[a.i := r.(outcome := if a.ok then Granted else ExpireFailed)];
      var counters := if a.ok && k in s.counters
        then s.counters[k := s.counters[k].(expiry := Some(a.at + TimeToLive(a.second, a.third)))] else s.counters;
      State(counters, requests)
  }

  function Step(s: State, a: Action): State {
    if a.Incr? then StepIncr(s, a) else StepExpire(s, a)
  }

  function Run(actions: seq<Action>): State {
    if actions == [] then INIT else Step(Run(actions[..|actions| - 1]), actions[|actions| - 1])
  }

  /** `Allow` as one process runs it, on its own. */
  class RedisSkillRateLimiter {
    var counters: map<Slot, Counter>

    constructor ()
      ensures counters == map[]
    {
      counters := map[];
    }

    method Allow(key: string, limitPerMinute: int, reading: int, at: int, incrOk: bool,
                 second: int, third: int, expireAt: int, expireOk: bool)
      returns (allowed: bool)
      modifies this
      ensures limitPerMinute <= 0 ==> allowed && counters == old(counters)
      ensures limitPerMinute > 0 ==>
        var incremented := StepIncr(State(old(counters), []), Incr(key, limitPerMinute, reading, at, incrOk));
        var s := StepExpire(incremented, Expire(0, second, third, expireAt, expireOk));
        counters == s.counters && |s.requests| == 1 && (allowed <==> s.requests[0].outcome == Granted)
      ensures allowed <==>
                limitPerMinute <= 0
                || (incrOk
                    && var count := counters[Slot(key, Minute(reading))].count;
                       count <= limitPerMinute && (count == 1 ==> expireOk))
    {
      if limitPerMinute <= 0 {
        return true;
      }
      if !incrOk {
        return false;
      }
      var k := Slot(key, Minute(reading));
      var c := Bump(counters, k, at);
      counters := counters[k := c];
      if c.count == 1 {
        if !expireOk {
          return false;
        }
        counters := counters[k := c.(expiry := Some(expireAt + TimeToLive(second, third)))];
      }
      return c.count <= limitPerMinute;
    }
  }

  // ---- the bound ----

  /** One clock, and increments that reach the store within the minute after their own. */
  predicate Timely(s: State, a: Action) {
    match a
    case Incr(_, _, reading, at, _) => reading <= at < (Minute(reading) + 2) * MINUTE
    case Expire(i, second, third, at, _) => i < |s.requests| ==> s.requests[i].reading <= second <= third <= at
  }

  predicate TimelyRun(actions: seq<Action>) {
    actions == []
    || (TimelyRun(actions[..|actions| - 1]) && Timely(Run(actions[..|actions| - 1]), actions[|actions| - 1]))
  }

  predicate SameLimit(actions: seq<Action>, key: string, limit: int) {
    forall i :: 0 <= i < |actions| && actions[i].Incr? && actions[i].key == key ==> actions[i].limit == limit
  }

  function CountOf(s: State, k: Slot): nat {
    if k in s.counters then s.counters[k].count else 0
  }

  function Min(a: int, b: int): int {
    if a < b then a else b
  }

  function Counted(k: Slot): Request -> int {
    (r: Request) => if r.key == k.key && Minute(r.reading) == k.minute && r.outcome != Denied then 1 else 0
  }

  function GrantedWithin(key: string, from: int): Request -> int {
    (r: Request) => if r.key == key && Within(r.reading, from) && r.outcome == Granted then 1 else 0
  }

  ghost predicate LivesOn(s: State) {
    forall k :: k in s.counters ==>
      s.counters[k].count >= 1
      && (s.counters[k].expiry.Some? ==> s.counters[k].expiry.value >= (k.minute + 2) * MINUTE)
  }

  lemma MinuteMonotone(t: int, u: int)
    requires t <= u
    ensures Minute(t) <= Minute(u)
  {
  }

  /** An expiry reaches at least one minute past the end of the counter's own minute. */
  lemma ExpiryIsLate(reading: int, second: int, third: int, at: int)
    requires reading <= second <= third <= at
    ensures at + TimeToLive(second, third) >= (Minute(reading) + 2) * MINUTE
  {
    MinuteMonotone(reading, second);
  }

  /** And no more than one minute further: a counter is kept for at least one minute and at most two. */
  lemma KeptBriefly(second: int, third: int)
    requires second <= third
    ensures MINUTE <= TimeToLive(second, third) <= 2 * MINUTE
  {
  }

  lemma StepLivesOn(s: State, a: Action)
    requires LivesOn(s) && Timely(s, a)
    ensures LivesOn(Step(s, a))
  {
    if a.Expire? && a.i < |s.requests| {
      ExpiryIsLate(s.requests[a.i].reading, a.second, a.third, a.at);
    }
  }

  /** No counter expires before a full minute past its own has gone by. */
  lemma {:induction false} NeverExpiresEarly(actions: seq<Action>)
    requires TimelyRun(actions)
    ensures LivesOn(Run(actions))
  {
    if actions != [] {
      NeverExpiresEarly(actions[..|actions| - 1]);
      StepLivesOn(Run(actions[..|actions| - 1]), actions[|actions| - 1]);
    }
  }

  predicate Exact(s: State, k: Slot, limit: int) {
    Sum(s.requests, Counted(k)) == Min(CountOf(s, k), limit)
  }

  lemma IncrExact(s: State, a: Action, k: Slot, limit: int)
    requires limit > 0 && LivesOn(s) && Exact(s, k, limit)
    requires a.Incr? && Timely(s, a) && (a.key == k.key ==> a.limit == limit)
    ensures Exact(StepIncr(s, a), k, limit)
  {
    if a.limit > 0 {
      var t := StepIncr(s, a);
      SumAppend(s.requests, t.requests[|s.requests|], Counted(k));
    }
  }

  lemma ExpireExact(s: State, a: Action, k: Slot, limit: int)
    requires Exact(s, k, limit) && a.Expire?
    ensures Exact(StepExpire(s, a), k, limit)
  {
    if a.i < |s.requests| && s.requests[a.i].outcome.Expiring? {
      SumUpdate(s.requests, a.i, StepExpire(s, a).requests[a.i], Counted(k));
    }
  }

  /** In every timely run, the calls of a minute that are not turned away are exactly as many as were
      counted in it, up to the limit. */
  lemma {:induction false} CountedExactly(actions: seq<Action>, k: Slot, limit: int)
    requires limit > 0 && TimelyRun(actions) && SameLimit(actions, k.key, limit)
    ensures Exact(Run(actions), k, limit)
  {
    if actions != [] {
      var front, a := actions[..|actions| - 1], actions[|actions| - 1];
      CountedExactly(front, k, limit);
      if a.Incr? {
        NeverExpiresEarly(front);
        IncrExact(Run(front), a, k, limit);
      } else {
        ExpireExact(Run(front), a, k, limit);
      }
    }
  }

  function Both(key: string, from: int): Request -> int {
    (r: Request) => Counted(Slot(key, Minute(from)))(r) + Counted(Slot(key, Minute(from) + 1))(r)
  }

  lemma {:induction false} SumBoth(requests: seq<Request>, key: string, from: int)
    ensures Sum(requests, Both(key, from))
            == Sum(requests, Counted(Slot(key, Minute(from)))) + Sum(requests, Counted(Slot(key, Minute(from) + 1)))
  {
    if requests != [] {
      SumBoth(requests[..|requests| - 1], key, from);
    }
  }

  lemma TwoMinutes(r: Request, key: string, from: int)
    ensures GrantedWithin(key, from)(r) <= Both(key, from)(r)
  {
    if Within(r.reading, from) {
      MinuteMonotone(from, r.reading);
      MinuteMonotone(r.reading, from + MINUTE);
      assert Minute(from + MINUTE) == Minute(from) + 1;
      assert Minute(r.reading) == Minute(from) || Minute(r.reading) == Minute(from) + 1;
    }
    assert Both(key, from)(r)
        == Counted(Slot(key, Minute(from)))(r) + Counted(Slot(key, Minute(from) + 1))(r);
  }

  /** Sliding bound: in every timely run at most 2 * limit calls of a key pass in any 60 seconds. */
  lemma CalendarBound(actions: seq<Action>, key: string, limit: int, from: int)
    requires limit > 0 && TimelyRun(actions) && SameLimit(actions, key, limit)
    ensures Sum(Run(actions).requests, GrantedWithin(key, from)) <= 2 * limit
  {
    var requests := Run(actions).requests;
    CountedExactly(actions, Slot(key, Minute(from)), limit);
    CountedExactly(actions, Slot(key, Minute(from) + 1), limit);
    SumBoth(requests, key, from);
    forall r | r in requests ensures GrantedWithin(key, from)(r) <= Both(key, from)(r) {
      TwoMinutes(r, key, from);
    }
    SumMonotone(requests, GrantedWithin(key, from), Both(key, from));
  }

  // ---- the bound is reached ----

  lemma RunThen(actions: seq<Action>, a: Action)
    ensures Run(actions + [a]) == Step(Run(actions), a)
    ensures TimelyRun(actions + [a]) <==> TimelyRun(actions) && Timely(Run(actions), a)
  {
    assert (actions + [a])[..|actions|] == actions;
  }

  /** The requests of n calls that pass at one reading. */
  function Passes(key: string, reading: int, n: nat): seq<Request> {
    if n == 0 then [] else Passes(key, reading, n - 1) + [Request(key, reading, Granted)]
  }

  /** A timely run under one limit whose counter of that reading's minute is alive and stands at n. */
  predicate Stands(actions: seq<Action>, key: string, limit: int, reading: int, n: int) {
    var s, k := Run(actions), Slot(key, Minute(reading));
    && TimelyRun(actions) && SameLimit(actions, key, limit)
    && k in s.counters && s.counters[k].count == n && s.counters[k].expiry.Some?
  }

  /** After `actions`, `calls` start that counter and n of them pass. */
  predicate Filled(actions: seq<Action>, calls: seq<Action>, key: string, limit: int, reading: int, n: nat) {
    var s, t := Run(actions), Run(actions + calls);
    && Stands(actions + calls, key, limit, reading, n)
    && t.counters.Keys == s.counters.Keys + {Slot(key, Minute(reading))}
    && t.requests == s.requests + Passes(key, reading, n)
  }

  lemma StillStands(actions: seq<Action>, key: string, limit: int, reading: int, n: int)
    requires 0 < n < limit && Stands(actions, key, limit, reading, n)
    ensures var all := actions + [Incr(key, limit, reading, reading, true)];
            && Stands(all, key, limit, reading, n + 1) && Run(all).counters.Keys == Run(actions).counters.Keys
            && Run(all).requests == Run(actions).requests + [Request(key, reading, Granted)]
  {
    NeverExpiresEarly(actions);
    RunThen(actions, Incr(key, limit, reading, reading, true));
  }

  /** One more call, read and counted at once, while there is room. */
  lemma OneMoreCall(actions: seq<Action>, calls: seq<Action>, key: string, limit: int, reading: int, n: nat)
    requires 0 < n < limit && Filled(actions, calls, key, limit, reading, n)
    ensures Filled(actions, calls + [Incr(key, limit, reading, reading, true)], key, limit, reading, n + 1)
  {
    var incr, r := Incr(key, limit, reading, reading, true), Request(key, reading, Granted);
    var requests := Run(actions).requests;
    StillStands(actions + calls, key, limit, reading, n);
    assert actions + calls + [incr] == actions + (calls + [incr]);
    assert requests + Passes(key, reading, n) + [r] == requests + (Passes(key, reading, n) + [r]);
  }

  /** The first n calls of a minute, all at one reading. */
  function Calls(key: string, limit: int, reading: int, first: nat, n: nat): seq<Action>
    requires n > 0
  {
    var incr := Incr(key, limit, reading, reading, true);
    if n == 1 then [incr, Expire(first, reading, reading, reading, true)]
    else Calls(key, limit, reading, first, n - 1) + [incr]
  }

  lemma CountsToOne(s: State, key: string, limit: int, reading: int)
    requires limit > 0 && Slot(key, Minute(reading)) !in s.counters
    ensures var incr := Incr(key, limit, reading, reading, true);
            Timely(s, incr) && Step(s, incr) == State(s.counters[Slot(key, Minute(reading)) := Counter(1, None)],
                                                      s.requests + [Request(key, reading, Expiring)])
  {
  }

  lemma SetsExpiry(s: State, key: string, reading: int)
    requires s.requests != [] && s.requests[|s.requests| - 1] == Request(key, reading, Expiring)
    requires Slot(key, Minute(reading)) in s.counters
    ensures var k, before := Slot(key, Minute(reading)), s.requests[..|s.requests| - 1];
            var expire := Expire(|before|, reading, reading, reading, true);
            && Timely(s, expire) && Step(s, expire).requests == before + [Request(key, reading, Granted)]
            && Step(s, expire).counters
               == s.counters[k := s.counters[k].(expiry := Some(reading + TimeToLive(reading, reading)))]
  {
  }

  /** The first call of a minute counts to one and sets the expiry. */
  lemma FirstCall(actions: seq<Action>, key: string, limit: int, reading: int)
    requires limit > 0 && TimelyRun(actions) && SameLimit(actions, key, limit)
    requires Slot(key, Minute(reading)) !in Run(actions).counters
    ensures Filled(actions, Calls(key, limit, reading, |Run(actions).requests|, 1), key, limit, reading, 1)
  {
    var s, incr := Run(actions), Incr(key, limit, reading, reading, true);
    var expire := Expire(|s.requests|, reading, reading, reading, true);
    CountsToOne(s, key, limit, reading);
    RunThen(actions, incr);
    SetsExpiry(Run(actions + [incr]), key, reading);
    RunThen(actions + [incr], expire);
    assert actions + [incr] + [expire] == actions + [incr, expire];
    assert Passes(key, reading, 1) == [Request(key, reading, Granted)];
  }

  lemma {:induction false} AllPass(actions: seq<Action>, key: string, limit: int, reading: int, n: nat)
    requires 0 < n <= limit && TimelyRun(actions) && SameLimit(actions, key, limit)
    requires Slot(key, Minute(reading)) !in Run(actions).counters
    ensures Filled(actions, Calls(key, limit, reading, |Run(actions).requests|, n), key, limit, reading, n)
    decreases n
  {
    if n == 1 {
      FirstCall(actions, key, limit, reading);
    } else {
      AllPass(actions, key, limit, reading, n - 1);
      OneMoreCall(actions, Calls(key, limit, reading, |Run(actions).requests|, n - 1), key, limit, reading, n - 1);
    }
  }

  lemma OnePass(requests: seq<Request>, key: string, reading: int, n: nat, from: int)
    requires Within(reading, from)
    ensures Sum(requests + Passes(key, reading, n + 1), GrantedWithin(key, from))
            == Sum(requests + Passes(key, reading, n), GrantedWithin(key, from)) + 1
  {
    var before, r := Passes(key, reading, n), Request(key, reading, Granted);
    SumAppend(requests + before, r, GrantedWithin(key, from));
    assert requests + before + [r] == requests + (before + [r]);
  }

  lemma {:induction false} SumPasses(requests: seq<Request>, key: string, reading: int, n: nat, from: int)
    requires Within(reading, from)
    ensures Sum(requests + Passes(key, reading, n), GrantedWithin(key, from))
            == Sum(requests, GrantedWithin(key, from)) + n
    decreases n
  {
    if n == 0 {
      assert requests + [] == requests;
    } else {
      SumPasses(requests, key, reading, n - 1, from);
      OnePass(requests, key, reading, n - 1, from);
    }
  }

  /** The bound cannot be improved: for every limit some timely run lets exactly 2 * limit calls pass in a minute,
      half of them at the last reading of one calendar minute and half at the first of the next. */
  lemma CalendarBoundIsReached(key: string, limit: nat) returns (actions: seq<Action>)
    requires limit > 0
    ensures TimelyRun(actions) && SameLimit(actions, key, limit)
    ensures Sum(Run(actions).requests, GrantedWithin(key, MINUTE - 1)) == 2 * limit
  {
    var last := [] + Calls(key, limit, MINUTE - 1, 0, limit);
    AllPass([], key, limit, MINUTE - 1, limit);
    var granted := Run(last).requests;
    actions := last + Calls(key, limit, MINUTE, |granted|, limit);
    AllPass(last, key, limit, MINUTE, limit);
    SumPasses([], key, MINUTE - 1, limit, MINUTE - 1);
    SumPasses(granted, key, MINUTE, limit, MINUTE - 1);
  }
}

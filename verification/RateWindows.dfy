/** The two limiters with a window anchored at its first request (tools/tool_bridge.go,
  modelprovider/rate_limiter.go). Times are clock readings in nanoseconds. */
module RateWindows {
  import opened Common

  const MINUTE := 60_000_000_000

  datatype Window = Window(start: int, count: nat)

  datatype Call = Call(now: int, key: string, limit: int)

  /** A window that is missing or a minute old makes room for a new one. */
  predicate Expired(window: Option<Window>, now: int) {
    window.None? || now - window.value.start >= MINUTE
  }

  /** One request against one window: the new window, and whether the request is let through. */
  function Admit(window: Option<Window>, now: int, limit: int): (Window, bool)
    requires limit > 0
  {
    if Expired(window, now) then (Window(now, 1), true)
    else
      var w := window.value;
      if w.count >= limit then (w, false) else (Window(w.start, w.count + 1), true)
  }

  function WindowOf(windows: map<string, Window>, key: string): Option<Window> {
    if key in windows then Some(windows[key]) else None
  }

  function Allowed(windows: map<string, Window>, c: Call): bool {
    c.limit <= 0 || Admit(WindowOf(windows, c.key), c.now, c.limit).1
  }

  function Next(windows: map<string, Window>, c: Call): map<string, Window> {
    if c.limit <= 0 then windows else windows[c.key := Admit(WindowOf(windows, c.key), c.now, c.limit).0]
  }

  class LocalSkillRateLimiter {
    var windows: map<string, Window>
    ghost var calls: seq<Call>

    ghost predicate Valid()
      reads this
    {
      windows == Windows(calls)
    }

    constructor ()
      ensures Valid() && calls == []
    {
      windows, calls := map[], [];
    }

    method Allow(now: int, key: string, limitPerMinute: int) returns (allowed: bool)
      requires Valid()
      modifies this
      ensures Valid() && calls == old(calls) + [Call(now, key, limitPerMinute)]
      ensures allowed == Allowed(Windows(old(calls)), Call(now, key, limitPerMinute))
      ensures limitPerMinute <= 0 ==> allowed
    {
      calls := calls + [Call(now, key, limitPerMinute)];
      assert calls[..|calls| - 1] == old(calls);
      if limitPerMinute <= 0 {
        return true;
      }
      if key !in windows || now - windows[key].start >= MINUTE {
        windows := windows[key := Window(now, 1)];
        return true;
      }
      var window := windows[key];
      if window.count >= limitPerMinute {
        return false;
      }
      windows := windows[key := Window(window.start, window.count + 1)];
      return true;
    }
  }

  // ---- the sliding bound ----

  function Windows(calls: seq<Call>): map<string, Window> {
    if calls == [] then map[] else Next(Windows(calls[..|calls| - 1]), calls[|calls| - 1])
  }

  predicate Within(t: int, from: int) {
    from <= t < from + MINUTE
  }

  /** Requests of a key let through in the minute that starts at `from`. */
  function Grants(calls: seq<Call>, key: string, from: int): nat {
    if calls == [] then 0
    else
      var front, c := calls[..|calls| - 1], calls[|calls| - 1];
      Grants(front, key, from)
      + if c.key == key && Within(c.now, from) && Allowed(Windows(front), c) then 1 else 0
  }

  /** The readings of a key go back by at most `back`, and its limit stays the same; other keys are free. The
      clock is read before the limiter's lock is taken, so concurrent requests may take effect out of order. */
  predicate Steady(calls: seq<Call>, key: string, limit: int, back: nat) {
    && (forall i :: 0 <= i < |calls| && calls[i].key == key ==> calls[i].limit == limit)
    && (forall i, j :: 0 <= i < j < |calls| && calls[i].key == key && calls[j].key == key ==>
          calls[i].now - back <= calls[j].now)
  }

  /** Whole minutes from just after `from - MINUTE` to a window's start: earlier windows that may count. */
  function Steps(start: int, from: int): nat
    requires start > from - MINUTE
  {
    (start - from + MINUTE - 1) / MINUTE
  }

  /** The most requests that pass in a minute when readings go back by at most `back`. */
  function Bound(limit: int, back: nat): int {
    limit + Steps(MINUTE + back - 1, 0) * (limit - 1)
  }

  /** With readings that never go back that is 2 * limit - 1, and 3 * limit - 2 if they go back by less than a
      minute but more than a nanosecond. */
  lemma BoundValues(limit: int, back: nat)
    ensures back <= 1 ==> Bound(limit, back) == 2 * limit - 1
    ensures 2 <= back <= MINUTE + 1 ==> Bound(limit, back) == 3 * limit - 2
  {
  }

  /** A window counts the minute's requests that pass in it, but for its first if that has another reading. */
  function MostGrants(w: Option<Window>, limit: int, back: nat, from: int): int {
    if w.None? || w.value.start <= from - MINUTE then 0
    else if w.value.start < from then w.value.count - 1
    else if w.value.start < from + MINUTE + back then w.value.count + Steps(w.value.start, from) * (limit - 1)
    else Bound(limit, back)
  }

  predicate Bounded(w: Option<Window>, grants: nat, limit: int, back: nat, from: int) {
    (w.Some? ==> 1 <= w.value.count <= limit) && grants <= MostGrants(w, limit, back, from)
  }

  lemma StepsGrow(s: int, t: int, from: int)
    requires from - MINUTE < s && s + MINUTE <= t
    ensures Steps(s, from) + 1 <= Steps(t, from)
  {
  }

  lemma StepsCap(s: int, back: nat, from: int)
    requires from - MINUTE < s < from + MINUTE + back
    ensures Steps(s, from) <= Steps(MINUTE + back - 1, 0)
    ensures s > from ==> 1 <= Steps(s, from)
  {
  }

  lemma TimesMonotone(a: nat, b: nat, c: nat)
    requires a <= b
    ensures a * c <= b * c
  {
  }

  /** No window that is still open can hold more than the bound. */
  lemma MostIsBounded(w: Option<Window>, limit: int, back: nat, from: int)
    requires limit > 0 && (w.Some? ==> w.value.count <= limit)
    ensures MostGrants(w, limit, back, from) <= Bound(limit, back)
  {
    var cap := Steps(MINUTE + back - 1, 0);
    TimesMonotone(0, cap, limit - 1);
    if w.Some? && from <= w.value.start < from + MINUTE + back {
      StepsCap(w.value.start, back, from);
      TimesMonotone(Steps(w.value.start, from), cap, limit - 1);
    }
  }

  /** Another step makes room for a full window. */
  lemma Room(k: nat, n: nat, limit: int)
    requires k < n && 1 <= limit
    ensures k * (limit - 1) + limit <= n * (limit - 1) + 1
  {
    TimesMonotone(k + 1, n, limit - 1);
    assert (k + 1) * (limit - 1) == k * (limit - 1) + (limit - 1);
  }

  /** What earlier windows hold fits what a new window leaves room for. */
  lemma NewWindow(s: int, count: nat, limit: int, back: nat, from: int, now: int)
    requires 1 <= count <= limit && now - s >= MINUTE
    ensures MostGrants(Some(Window(s, count)), limit, back, from) + (if Within(now, from) then 1 else 0)
            <= MostGrants(Some(Window(now, 1)), limit, back, from)
  {
    if now >= from + MINUTE + back {
      MostIsBounded(Some(Window(s, count)), limit, back, from);
    } else if now >= from && s > from - MINUTE {
      StepsGrow(s, now, from);
      Room(if s < from then 0 else Steps(s, from), Steps(now, from), limit);
    }
  }

  lemma AdmitBounded(w: Option<Window>, grants: nat, limit: int, back: nat, from: int, now: int)
    requires limit > 0 && Bounded(w, grants, limit, back, from) && (w.Some? ==> w.value.start - back <= now)
    ensures var (next, allowed) := Admit(w, now, limit);
            Bounded(Some(next), grants + if allowed && Within(now, from) then 1 else 0, limit, back, from)
  {
    if w.None? {
      FirstWindow(limit, back, from, now);
    } else if Expired(w, now) {
      NewWindow(w.value.start, w.value.count, limit, back, from, now);
    }
  }

  lemma FirstWindow(limit: int, back: nat, from: int, now: int)
    requires limit > 0
    ensures (if Within(now, from) then 1 else 0) <= MostGrants(Some(Window(now, 1)), limit, back, from)
  {
    if now >= from {
      MostIsBounded(None, limit, back, from);
      TimesMonotone(0, Steps(now, from), limit - 1);
    }
  }

  /** A window starts at one of the key's readings. */
  ghost predicate StartsAtReading(calls: seq<Call>, key: string) {
    key in Windows(calls) ==>
      exists i :: 0 <= i < |calls| && calls[i].key == key && calls[i].now == Windows(calls)[key].start
  }

  lemma {:induction false} AlwaysBounded(calls: seq<Call>, key: string, limit: int, back: nat, from: int)
    requires limit > 0 && Steady(calls, key, limit, back)
    ensures Bounded(WindowOf(Windows(calls), key), Grants(calls, key, from), limit, back, from)
    ensures StartsAtReading(calls, key)
  {
    if calls != [] {
      var front, c := calls[..|calls| - 1], calls[|calls| - 1];
      AlwaysBounded(front, key, limit, back, from);
      if key in Windows(front) {
        var i :| 0 <= i < |front| && front[i].key == key && front[i].now == Windows(front)[key].start;
        assert calls[i] == front[i];
      }
      if c.key == key {
        AdmitBounded(WindowOf(Windows(front), key), Grants(front, key, from), limit, back, from, c.now);
        assert calls[|calls| - 1].now == c.now;
      }
    }
  }

  /** Sliding bound: with readings that go back by at most `back`, at most Bound(limit, back) requests of a key
      pass in any 60 seconds, whatever other keys do. */
  lemma SlidingBound(calls: seq<Call>, key: string, limit: int, back: nat, from: int)
    requires limit > 0 && Steady(calls, key, limit, back)
    ensures Grants(calls, key, from) <= Bound(limit, back)
  {
    AlwaysBounded(calls, key, limit, back, from);
    MostIsBounded(WindowOf(Windows(calls), key), limit, back, from);
  }

  // ---- what is let through ----

  /** A call without a trace: one that was denied, one without a limit, or one of another key. */
  predicate Traceless(calls: seq<Call>, c: Call, key: string) {
    c.key != key || c.limit <= 0 || !Allowed(Windows(calls), c)
  }

  lemma NextWindowOf(windows: map<string, Window>, others: map<string, Window>, c: Call, key: string)
    requires WindowOf(windows, key) == WindowOf(others, key)
    ensures WindowOf(Next(windows, c), key) == WindowOf(Next(others, c), key)
  {
  }

  lemma WindowsThen(calls: seq<Call>, c: Call)
    ensures Windows(calls + [c]) == Next(Windows(calls), c)
  {
    assert (calls + [c])[..|calls|] == calls;
  }

  lemma {:induction false} SameWindow(before: seq<Call>, c: Call, after: seq<Call>, key: string)
    requires Traceless(before, c, key)
    ensures WindowOf(Windows(before + [c] + after), key) == WindowOf(Windows(before + after), key)
    decreases |after|
  {
    if after == [] {
      WindowsThen(before, c);
      assert before + [c] + [] == before + [c] && before + [] == before;
    } else {
      var front, last := after[..|after| - 1], after[|after| - 1];
      SameWindow(before, c, front, key);
      WindowsThen(before + [c] + front, last);
      WindowsThen(before + front, last);
      NextWindowOf(Windows(before + [c] + front), Windows(before + front), last, key);
      assert before + [c] + after == before + [c] + front + [last] && before + after == before + front + [last];
    }
  }

  /** Such a call might as well not have been made: leaving it out of a history changes no later answer. A client
      that is denied loses nothing by asking again. */
  lemma DenialsLeaveNoTrace(before: seq<Call>, c: Call, after: seq<Call>, d: Call)
    requires Traceless(before, c, d.key)
    ensures Allowed(Windows(before + [c] + after), d) <==> Allowed(Windows(before + after), d)
  {
    SameWindow(before, c, after, d.key);
  }

  /** An open window counts requests that passed since it was opened. */
  lemma {:induction false} CountsGrants(calls: seq<Call>, key: string, limit: int, from: int)
    requires limit > 0 && Steady(calls, key, limit, 0)
    requires forall i :: 0 <= i < |calls| && calls[i].key == key ==> calls[i].now < from + MINUTE
    ensures var w := WindowOf(Windows(calls), key);
            w.Some? && w.value.start >= from ==> w.value.count <= Grants(calls, key, from)
  {
    if calls != [] {
      var front, c := calls[..|calls| - 1], calls[|calls| - 1];
      CountsGrants(front, key, limit, from);
      AlwaysBounded(front, key, limit, 0, from);
      if c.key == key && key in Windows(front) {
        var i :| 0 <= i < |front| && front[i].key == key && front[i].now == Windows(front)[key].start;
        assert calls[i] == front[i] && calls[|calls| - 1] == c;
      }
    }
  }

  /** A request is let through if fewer than `limit` of its key passed in the 60 seconds before it. */
  lemma LetThrough(calls: seq<Call>, c: Call)
    requires c.limit > 0 && Steady(calls + [c], c.key, c.limit, 0)
    requires Grants(calls, c.key, c.now - MINUTE + 1) < c.limit
    ensures Allowed(Windows(calls), c)
  {
    var all, from := calls + [c], c.now - MINUTE + 1;
    forall i | 0 <= i < |calls| && calls[i].key == c.key ensures calls[i].now <= c.now {
      assert all[i] == calls[i] && all[|calls|] == c;
    }
    assert forall i :: 0 <= i < |calls| ==> all[i] == calls[i];
    CountsGrants(calls, c.key, c.limit, from);
  }

  // ---- the bound is reached ----

  function Repeat(c: Call, n: nat): seq<Call> {
    seq(n, _ => c)
  }

  lemma OneMore(calls: seq<Call>, c: Call, from: int)
    ensures Windows(calls + [c]) == Next(Windows(calls), c)
    ensures Grants(calls + [c], c.key, from)
            == Grants(calls, c.key, from) + if Within(c.now, from) && Allowed(Windows(calls), c) then 1 else 0
  {
    assert (calls + [c])[..|calls|] == calls;
  }

  /** From a window with room, n more requests in it all pass. */
  lemma {:induction false} AllPass(calls: seq<Call>, c: Call, n: nat, from: int, w: Window)
    requires c.limit > 0 && WindowOf(Windows(calls), c.key) == Some(w)
    requires c.now - w.start < MINUTE && w.count + n <= c.limit
    ensures WindowOf(Windows(calls + Repeat(c, n)), c.key) == Some(Window(w.start, w.count + n))
    ensures Grants(calls + Repeat(c, n), c.key, from)
            == Grants(calls, c.key, from) + if Within(c.now, from) then n else 0
  {
    if n == 0 {
      assert calls + Repeat(c, 0) == calls;
    } else {
      AllPass(calls, c, n - 1, from, w);
      var front := calls + Repeat(c, n - 1);
      RepeatStep(calls, c, n);
      OneMore(front, c, from);
      OnePasses(Windows(front), c, Window(w.start, w.count + n - 1));
    }
  }

  lemma RepeatStep(calls: seq<Call>, c: Call, n: nat)
    requires n > 0
    ensures calls + Repeat(c, n) == calls + Repeat(c, n - 1) + [c]
  {
    assert Repeat(c, n) == Repeat(c, n - 1) + [c];
  }

  lemma OnePasses(windows: map<string, Window>, c: Call, w: Window)
    requires c.limit > 0 && WindowOf(windows, c.key) == Some(w)
    requires c.now - w.start < MINUTE && w.count < c.limit
    ensures Allowed(windows, c) && WindowOf(Next(windows, c), c.key) == Some(Window(w.start, w.count + 1))
  {
  }

  /** When window j opens, and the reading that fills it up: as much as possible falls in the minute from
      reading MINUTE. */
  function Opens(j: nat): int {
    1 + j * MINUTE
  }

  function Fills(j: nat): int {
    if j == 0 then MINUTE else if j == 1 then MINUTE + 1 else 2 * MINUTE - 1
  }

  /** Windows 0 to j, each opened a minute after the one before and filled to the limit. */
  function Burst(key: string, limit: nat, j: nat): seq<Call>
    requires limit > 0
    decreases j
  {
    (if j == 0 then [] else Burst(key, limit, j - 1))
    + [Call(Opens(j), key, limit)] + Repeat(Call(Fills(j), key, limit), limit - 1)
  }

  /** A window that opens on an old one, or on none, and is filled. */
  lemma Fill(calls: seq<Call>, key: string, limit: nat, j: nat)
    requires limit > 0 && Expired(WindowOf(Windows(calls), key), Opens(j))
    ensures var all := calls + [Call(Opens(j), key, limit)] + Repeat(Call(Fills(j), key, limit), limit - 1);
            && WindowOf(Windows(all), key) == Some(Window(Opens(j), limit))
            && Grants(all, key, MINUTE) == Grants(calls, key, MINUTE) + limit - if j == 1 then 0 else 1
  {
    var opener := Call(Opens(j), key, limit);
    OneMore(calls, opener, MINUTE);
    assert WindowOf(Windows(calls + [opener]), key) == Some(Window(Opens(j), 1));
    AllPass(calls + [opener], Call(Fills(j), key, limit), limit - 1, MINUTE, Window(Opens(j), 1));
  }

  /** What passes of windows 0 to j in that minute: all of window 1, and all but the first request of the others. */
  function Passing(limit: nat, j: nat): int {
    if j == 0 then limit - 1 else Passing(limit, j - 1) + limit - if j == 1 then 0 else 1
  }

  lemma {:induction false} PassingIs(limit: nat, j: nat)
    requires j > 0
    ensures Passing(limit, j) == limit + j * (limit - 1)
  {
    if j > 1 {
      PassingIs(limit, j - 1);
      assert j * (limit - 1) == (j - 1) * (limit - 1) + (limit - 1);
    }
  }

  lemma {:induction false} BurstPasses(key: string, limit: nat, j: nat)
    requires limit > 0
    ensures WindowOf(Windows(Burst(key, limit, j)), key) == Some(Window(Opens(j), limit))
    ensures Grants(Burst(key, limit, j), key, MINUTE) == Passing(limit, j)
    decreases j
  {
    if j == 0 {
      Fill([], key, limit, 0);
    } else {
      BurstPasses(key, limit, j - 1);
      Fill(Burst(key, limit, j - 1), key, limit, j);
    }
  }

  predicate ReadUpTo(calls: seq<Call>, top: int) {
    forall i :: 0 <= i < |calls| ==> calls[i].now <= top
  }

  lemma StillSteady(calls: seq<Call>, c: Call, n: nat, back: nat, top: int)
    requires Steady(calls, c.key, c.limit, back) && ReadUpTo(calls, top) && top - back <= c.now
    ensures var all := calls + Repeat(c, n);
            Steady(all, c.key, c.limit, back) && ReadUpTo(all, if c.now < top then top else c.now)
  {
  }

  lemma {:induction false} BurstIsSteady(key: string, limit: nat, j: nat, back: nat)
    requires limit > 0 && j <= Steps(MINUTE + back - 1, 0)
    ensures Steady(Burst(key, limit, j), key, limit, back) && ReadUpTo(Burst(key, limit, j), Opens(j) + MINUTE - 1)
    ensures j > 0 ==> ReadUpTo(Burst(key, limit, j), Opens(j))
    decreases j
  {
    var before := if j == 0 then [] else Burst(key, limit, j - 1);
    if j > 0 {
      BurstIsSteady(key, limit, j - 1, back);
    }
    var opener, filler := Call(Opens(j), key, limit), Call(Fills(j), key, limit);
    assert ReadUpTo(before, Opens(j));
    StillSteady(before, opener, 1, back, Opens(j));
    assert Repeat(opener, 1) == [opener];
    StillSteady(before + [opener], filler, limit - 1, back, Opens(j));
  }

  /** The bound cannot be improved: for every limit and every `back`, some history whose readings go back by at
      most that lets exactly that many requests pass in a minute. */
  lemma SlidingBoundIsReached(key: string, limit: nat, back: nat) returns (calls: seq<Call>)
    requires limit > 0
    ensures Steady(calls, key, limit, back) && Grants(calls, key, MINUTE) == Bound(limit, back)
  {
    var j := Steps(MINUTE + back - 1, 0);
    calls := Burst(key, limit, j);
    BurstIsSteady(key, limit, j, back);
    BurstPasses(key, limit, j);
    PassingIs(limit, j);
  }
}

/** The daily tool quota (control-plane/internal/httpapi/server.go, internalReserveToolQuota), each reservation
  taken as one step. Times are nanoseconds, days are UTC days. */
module ToolQuota {
  import opened Common
  import opened Text

  const DAY := 86_400_000_000_000

  datatype Owner = Owner(user: string, project: string)

  datatype Usage = Usage(calls: int, commands: int, millis: int)

  datatype Run = Run(owner: Owner, created: int, usage: Usage)

  /** Zero or less means no limit. */
  datatype Policy = Policy(maxCalls: int, maxSeconds: int)

  /** One reservation that was let through. */
  datatype Grant = Grant(owner: Owner, at: int, created: int, calls: int, millis: int)

  datatype State = State(clock: int, runs: seq<Run>, grants: seq<Grant>)

  /** `attempt`, `load` and `save` say whether the repository calls work. */
  datatype Request = Request(skill: string, calls: int, seconds: int, attempt: bool, load: bool, save: bool)

  datatype Action = Tick(to: int) | NewRun(owner: Owner) | Reserve(i: nat, request: Request)

  datatype Reply = BadRequest | StoreError | Denied(quota: string) | Allowed

  /** What is counted; there are quotas for calls and milliseconds. */
  datatype Kind = Calls | Commands | Millis

  function Day(t: int): int {
    t / DAY
  }

  function StartOfUTCDay(t: int): int {
    t / DAY * DAY
  }

  function CallsOf(r: Request): int {
    if r.calls <= 0 then 1 else r.calls
  }

  function SecondsOf(r: Request): int {
    if r.seconds < 0 then 0 else r.seconds
  }

  function Amount(k: Kind, u: Usage): int {
    match k
    case Calls => u.calls
    case Commands => u.commands
    case Millis => u.millis
  }

  function Counted(k: Kind, owner: Owner, since: int): Run -> int {
    (r: Run) => if r.owner == owner && r.created >= since then Amount(k, r.usage) else 0
  }

  /** `SumRunUsageSince`: the usage of the owner's runs created since then. */
  function UsedSince(runs: seq<Run>, k: Kind, owner: Owner, since: int): int {
    Sum(runs, Counted(k, owner, since))
  }

  function Decide(policy: Policy, calls: int, millis: int, r: Request): Reply {
    if policy.maxCalls > 0 && calls + CallsOf(r) > policy.maxCalls then Denied("tool_calls_per_day")
    else if policy.maxSeconds > 0 && (millis + 999) / 1000 + SecondsOf(r) > policy.maxSeconds then
      Denied("sandbox_seconds_per_day")
    else Allowed
  }

  function Answer(policies: string -> Policy, s: State, i: nat, r: Request): Reply
    requires i < |s.runs|
  {
    if Trim(r.skill, IsGoSpace) == "" then BadRequest
    else if !r.attempt then StoreError
    else
      var owner, since := s.runs[i].owner, StartOfUTCDay(s.clock);
      var verdict := Decide(policies(owner.project), UsedSince(s.runs, Calls, owner, since),
                            UsedSince(s.runs, Millis, owner, since), r);
      if verdict.Denied? then verdict else if !r.load || !r.save then StoreError else Allowed
  }

  function Charged(u: Usage, r: Request): Usage {
    Usage(u.calls + CallsOf(r), if SecondsOf(r) > 0 then u.commands + 1 else u.commands, u.millis + 1000 * SecondsOf(r))
  }

  /** Only a request that is let through changes anything. */
  function StepReserve(policies: string -> Policy, s: State, i: nat, r: Request): State
    requires i < |s.runs|
  {
    if !Answer(policies, s, i, r).Allowed? then s
    else
      var run := s.runs[i];
      s.(runs := s.runs[i := run.(usage := Charged(run.usage, r))],
         grants := s.grants + [Grant(run.owner, s.clock, run.created, CallsOf(r), 1000 * SecondsOf(r))])
  }

  function Step(policies: string -> Policy, s: State, a: Action): State {
    match a
    case Tick(to) => if to >= s.clock then s.(clock := to) else s
    case NewRun(owner) => s.(runs := s.runs + [Run(owner, s.clock, Usage(0, 0, 0))])
    case Reserve(i, r) => if i < |s.runs| then StepReserve(policies, s, i, r) else s
  }

  function Stepper(policies: string -> Policy): (State, Action) -> State {
    (s: State, a: Action) => Step(policies, s, a)
  }

  function HistoryFrom(policies: string -> Policy, s: State, actions: seq<Action>): State {
    Iterate(Stepper(policies), s, actions)
  }

  /** A history that begins with no runs. */
  function History(policies: string -> Policy, start: int, actions: seq<Action>): State {
    HistoryFrom(policies, State(start, [], []), actions)
  }

  // ---- the handler ----

  class Server {
    const policies: string -> Policy
    var clock: int
    var runs: seq<Run>
    ghost var grants: seq<Grant>

    constructor (policies: string -> Policy, start: int)
      ensures this.policies == policies && Now() == State(start, [], [])
    {
      this.policies, clock, runs, grants := policies, start, [], [];
    }

    ghost function Now(): State
      reads this
    {
      State(clock, runs, grants)
    }

    method SumRunUsageSince(owner: Owner, since: int) returns (total: Usage)
      ensures total.calls == UsedSince(runs, Calls, owner, since)
      ensures total.commands == UsedSince(runs, Commands, owner, since)
      ensures total.millis == UsedSince(runs, Millis, owner, since)
    {
      total := Usage(0, 0, 0);
      for i := 0 to |runs|
        invariant total.calls == UsedSince(runs[..i], Calls, owner, since)
        invariant total.commands == UsedSince(runs[..i], Commands, owner, since)
        invariant total.millis == UsedSince(runs[..i], Millis, owner, since)
      {
        var run := runs[i];
        assert runs[..i + 1] == runs[..i] + [run];
        SumAppend(runs[..i], run, Counted(Calls, owner, since));
        SumAppend(runs[..i], run, Counted(Commands, owner, since));
        SumAppend(runs[..i], run, Counted(Millis, owner, since));
        if run.owner != owner || run.created < since {
          continue;
        }
        var u := run.usage;
        total := Usage(total.calls + u.calls, total.commands + u.commands, total.millis + u.millis);
      }
      assert runs[..|runs|] == runs;
    }

    method InternalReserveToolQuota(i: nat, request: Request) returns (reply: Reply)
      requires i < |runs|
      modifies this`runs, this`grants
      ensures reply == Answer(policies, old(Now()), i, request)
      ensures Now() == StepReserve(policies, old(Now()), i, request)
    {
      if Trim(request.skill, IsGoSpace) == "" {
        return BadRequest;
      }
      var calls := if request.calls <= 0 then 1 else request.calls;
      var seconds := if request.seconds < 0 then 0 else request.seconds;
      if !request.attempt {
        return StoreError;
      }
      var run := runs[i];
      var policy := policies(run.owner.project);
      var current := SumRunUsageSince(run.owner, StartOfUTCDay(clock));
      if policy.maxCalls > 0 && current.calls + calls > policy.maxCalls {
        return Denied("tool_calls_per_day");
      }
      if policy.maxSeconds > 0 {
        var currentSeconds := (current.millis + 999) / 1000;
        if currentSeconds + seconds > policy.maxSeconds {
          return Denied("sandbox_seconds_per_day");
        }
      }
      if !request.load || !request.save {
        return StoreError;
      }
      var usage := run.usage.(calls := run.usage.calls + calls);
      if seconds > 0 {
        usage := usage.(commands := usage.commands + 1, millis := usage.millis + seconds * 1000);
      }
      runs := runs[i := run.(usage := usage)];
      grants := grants + [Grant(run.owner, clock, run.created, calls, 1000 * seconds)];
      return Allowed;
    }
  }

  // ---- the daily limit ----

  function GrantAmount(k: Kind, g: Grant): int {
    match k
    case Calls => g.calls
    case Commands => if g.millis > 0 then 1 else 0
    case Millis => g.millis
  }

  /** What a day's reservations took for runs created that day, for older runs, and in all. */
  function Fresh(k: Kind, owner: Owner, day: int): Grant -> int {
    (g: Grant) => if g.owner == owner && Day(g.at) == day && Day(g.created) == day then GrantAmount(k, g) else 0
  }

  function Carried(k: Kind, owner: Owner, day: int): Grant -> int {
    (g: Grant) => if g.owner == owner && Day(g.at) == day && Day(g.created) != day then GrantAmount(k, g) else 0
  }

  function Taken(k: Kind, owner: Owner, day: int): Grant -> int {
    (g: Grant) => if g.owner == owner && Day(g.at) == day then GrantAmount(k, g) else 0
  }

  /** The limit in the units that are counted; there is none for commands. */
  function Limit(k: Kind, policy: Policy): int {
    match k
    case Calls => policy.maxCalls
    case Commands => 0
    case Millis => 1000 * policy.maxSeconds
  }

  lemma DayStart(t: int, u: int)
    ensures u >= StartOfUTCDay(t) <==> Day(u) >= Day(t)
    ensures t <= u ==> Day(t) <= Day(u)
  {
    assert StartOfUTCDay(t) == Day(t) * DAY;
  }

  ghost predicate Orderly(s: State) {
    && (forall i :: 0 <= i < |s.runs| ==> s.runs[i].created <= s.clock)
    && (forall i :: 0 <= i < |s.grants| ==> s.grants[i].at <= s.clock && s.grants[i].created <= s.grants[i].at)
  }

  /** While a day lasts, its fresh reservations are the usage the handler sees; before it, there are none. */
  predicate Tallied(s: State, k: Kind, owner: Owner, day: int) {
    Day(s.clock) <= day ==>
      UsedSince(s.runs, k, owner, day * DAY) == Sum(s.grants, Fresh(k, owner, day))
      && (Day(s.clock) < day ==> Sum(s.grants, Fresh(k, owner, day)) == 0)
  }

  predicate WithinLimit(s: State, k: Kind, owner: Owner, day: int, limit: int) {
    limit > 0 ==> Sum(s.grants, Fresh(k, owner, day)) <= limit
  }

  lemma StepOrderly(policies: string -> Policy, s: State, a: Action)
    requires Orderly(s)
    ensures Orderly(Step(policies, s, a))
  {
  }

  lemma NewRunTallied(s: State, owner: Owner, policies: string -> Policy, k: Kind, o: Owner, day: int)
    requires Tallied(s, k, o, day)
    ensures Tallied(Step(policies, s, NewRun(owner)), k, o, day)
  {
    SumAppend(s.runs, Run(owner, s.clock, Usage(0, 0, 0)), Counted(k, o, day * DAY));
  }

  lemma GrantAgrees(s: State, i: nat, r: Request, k: Kind, owner: Owner, day: int)
    requires Orderly(s) && i < |s.runs| && Day(s.clock) <= day
    ensures var run := s.runs[i];
            var g := Grant(run.owner, s.clock, run.created, CallsOf(r), 1000 * SecondsOf(r));
            && Counted(k, owner, day * DAY)(run.(usage := Charged(run.usage, r))) - Counted(k, owner, day * DAY)(run)
               == Fresh(k, owner, day)(g)
            && (Day(s.clock) < day ==> Fresh(k, owner, day)(g) == 0)
  {
    var run := s.runs[i];
    DayStart(run.created, s.clock);
    assert run.created >= day * DAY <==> Day(run.created) >= day;
  }

  lemma ReserveTallied(policies: string -> Policy, s: State, i: nat, r: Request, k: Kind, owner: Owner, day: int)
    requires Orderly(s) && i < |s.runs| && Tallied(s, k, owner, day)
    ensures Tallied(StepReserve(policies, s, i, r), k, owner, day)
  {
    var t := StepReserve(policies, s, i, r);
    if t != s && Day(s.clock) <= day {
      GrantAgrees(s, i, r, k, owner, day);
      SumUpdate(s.runs, i, t.runs[i], Counted(k, owner, day * DAY));
      SumAppend(s.grants, t.grants[|s.grants|], Fresh(k, owner, day));
    }
  }

  lemma ReserveWithin(policies: string -> Policy, s: State, i: nat, r: Request, k: Kind, owner: Owner, day: int)
    requires Orderly(s) && i < |s.runs| && Tallied(s, k, owner, day)
    requires WithinLimit(s, k, owner, day, Limit(k, policies(owner.project)))
    ensures WithinLimit(StepReserve(policies, s, i, r), k, owner, day, Limit(k, policies(owner.project)))
  {
    var t := StepReserve(policies, s, i, r);
    if t != s {
      var g := t.grants[|s.grants|];
      SumAppend(s.grants, g, Fresh(k, owner, day));
      if g.owner == owner && Day(g.at) == day {
        assert StartOfUTCDay(s.clock) == day * DAY;
      }
    }
  }

  lemma TickTallied(policies: string -> Policy, s: State, to: int, k: Kind, owner: Owner, day: int)
    requires Tallied(s, k, owner, day)
    ensures Tallied(Step(policies, s, Tick(to)), k, owner, day)
  {
    DayStart(s.clock, to);
  }

  ghost predicate Inv(s: State, policies: string -> Policy, k: Kind, owner: Owner, day: int) {
    Orderly(s) && Tallied(s, k, owner, day) && WithinLimit(s, k, owner, day, Limit(k, policies(owner.project)))
  }

  lemma {:induction false} Always(policies: string -> Policy, start: int, actions: seq<Action>, k: Kind,
                                  owner: Owner, day: int)
    ensures Inv(History(policies, start, actions), policies, k, owner, day)
  {
    if actions != [] {
      var front, a := actions[..|actions| - 1], actions[|actions| - 1];
      Always(policies, start, front, k, owner, day);
      var s := History(policies, start, front);
      StepOrderly(policies, s, a);
      match a
      case Tick(to) => TickTallied(policies, s, to, k, owner, day);
      case NewRun(o) => NewRunTallied(s, o, policies, k, owner, day);
      case Reserve(i, r) =>
        if i < |s.runs| {
          ReserveTallied(policies, s, i, r, k, owner, day);
          ReserveWithin(policies, s, i, r, k, owner, day);
        }
    }
  }

  // ---- from any state on ----

  /** No run is from the future, and the owner's runs of the day are within the limit. */
  ghost predicate Within(s: State, k: Kind, owner: Owner, limit: int) {
    && (forall i :: 0 <= i < |s.runs| ==> s.runs[i].created <= s.clock)
    && UsedSince(s.runs, k, owner, StartOfUTCDay(s.clock)) <= limit
  }

  lemma {:induction false} NothingSince(runs: seq<Run>, k: Kind, owner: Owner, since: int)
    requires forall i :: 0 <= i < |runs| ==> runs[i].created < since
    ensures UsedSince(runs, k, owner, since) == 0
  {
    if runs != [] {
      NothingSince(runs[..|runs| - 1], k, owner, since);
    }
  }

  lemma TickWithin(policies: string -> Policy, s: State, to: int, k: Kind, owner: Owner, limit: int)
    requires limit > 0 && Within(s, k, owner, limit) && to >= s.clock
    ensures Within(Step(policies, s, Tick(to)), k, owner, limit)
  {
    DayStart(s.clock, to);
    DayStart(to, s.clock);
    if Day(to) == Day(s.clock) {
      assert StartOfUTCDay(to) == StartOfUTCDay(s.clock);
    } else {
      NothingSince(s.runs, k, owner, StartOfUTCDay(to));
    }
  }

  lemma ReserveStaysWithin(policies: string -> Policy, s: State, i: nat, r: Request, k: Kind, owner: Owner)
    requires Limit(k, policies(owner.project)) > 0 && i < |s.runs|
    requires Within(s, k, owner, Limit(k, policies(owner.project)))
    ensures Within(StepReserve(policies, s, i, r), k, owner, Limit(k, policies(owner.project)))
  {
    var t := StepReserve(policies, s, i, r);
    if t != s {
      SumUpdate(s.runs, i, t.runs[i], Counted(k, owner, StartOfUTCDay(s.clock)));
    }
  }

  /** The daily limit is kept from any state on that keeps it: while a day lasts, the owner's runs created that
      day never have more usage than the limit, calls up to the call limit and milliseconds up to 1000 times
      the limit in seconds despite the rounding. */
  lemma {:induction false} UsageStaysWithinLimits(policies: string -> Policy, s: State, actions: seq<Action>, k: Kind,
                                                  owner: Owner)
    requires Limit(k, policies(owner.project)) > 0 && Within(s, k, owner, Limit(k, policies(owner.project)))
    ensures Within(HistoryFrom(policies, s, actions), k, owner, Limit(k, policies(owner.project)))
  {
    if actions != [] {
      var front, a := actions[..|actions| - 1], actions[|actions| - 1];
      UsageStaysWithinLimits(policies, s, front, k, owner);
      var t := HistoryFrom(policies, s, front);
      match a
      case Tick(to) => if to >= t.clock { TickWithin(policies, t, to, k, owner, Limit(k, policies(owner.project))); }
      case NewRun(o) =>
        SumAppend(t.runs, Run(o, t.clock, Usage(0, 0, 0)), Counted(k, owner, StartOfUTCDay(t.clock)));
      case Reserve(i, r) => if i < |t.runs| { ReserveStaysWithin(policies, t, i, r, k, owner); }
    }
  }

  // ---- what a day's reservations take ----

  lemma {:induction false} Split(grants: seq<Grant>, k: Kind, owner: Owner, day: int)
    ensures Sum(grants, Taken(k, owner, day)) == Sum(grants, Fresh(k, owner, day)) + Sum(grants, Carried(k, owner, day))
  {
    if grants != [] {
      Split(grants[..|grants| - 1], k, owner, day);
    }
  }

  /** Rounding a day's milliseconds up to seconds decides nothing that exact milliseconds would not. */
  lemma RoundingIsExact(millis: int, seconds: int, limit: int)
    ensures (millis + 999) / 1000 + seconds > limit <==> millis + 1000 * seconds > 1000 * limit
  {
  }

  /** In every history, a well-formed request whose calls work is let through if and only if it fits what the
      day's limits leave beside the reservations made today for today's runs; a denial names the calls if they
      do not fit, and the seconds if only those do not. What is let through is charged to its run, a request
      without a positive number of calls as one call. */
  lemma LetThroughIff(policies: string -> Policy, start: int, actions: seq<Action>, i: nat, r: Request)
    requires i < |History(policies, start, actions).runs|
    requires Trim(r.skill, IsGoSpace) != "" && r.attempt && r.load && r.save
    ensures var s := History(policies, start, actions);
            var run, day, t := s.runs[i], Day(s.clock), StepReserve(policies, s, i, r);
            var policy, calls := policies(run.owner.project), if r.calls > 0 then r.calls else 1;
            var seconds := if r.seconds > 0 then r.seconds else 0;
            var callsFit := policy.maxCalls > 0 ==>
                              Sum(s.grants, Fresh(Calls, run.owner, day)) + calls <= policy.maxCalls;
            var millis := Sum(s.grants, Fresh(Millis, run.owner, day)) + 1000 * seconds;
            var secondsFit := policy.maxSeconds > 0 ==> millis <= 1000 * policy.maxSeconds;
            && Answer(policies, s, i, r)
               == (if !callsFit then Denied("tool_calls_per_day")
                   else if !secondsFit then Denied("sandbox_seconds_per_day") else Allowed)
            && t == if !callsFit || !secondsFit then s
                    else
                      var u := run.usage;
                      var usage := Usage(u.calls + calls, u.commands + (if seconds > 0 then 1 else 0),
                                         u.millis + 1000 * seconds);
                      s.(runs := s.runs[i := run.(usage := usage)],
                         grants := s.grants + [Grant(run.owner, s.clock, run.created, calls, 1000 * seconds)])
  {
    var s := History(policies, start, actions);
    var owner, day := s.runs[i].owner, Day(s.clock);
    Always(policies, start, actions, Calls, owner, day);
    Always(policies, start, actions, Millis, owner, day);
    RoundingIsExact(UsedSince(s.runs, Millis, owner, day * DAY), if r.seconds > 0 then r.seconds else 0,
                    policies(owner.project).maxSeconds);
  }

  /** Any other request changes nothing and is not let through. */
  lemma FailsClosed(policies: string -> Policy, s: State, i: nat, r: Request)
    requires i < |s.runs| && (Trim(r.skill, IsGoSpace) == "" || !r.attempt || !r.load || !r.save)
    ensures !Answer(policies, s, i, r).Allowed? && StepReserve(policies, s, i, r) == s
    ensures Answer(policies, s, i, r) == BadRequest <==> Trim(r.skill, IsGoSpace) == ""
  {
  }

  /** On every day of every history an owner's reservations take at most the limit, and what they take for runs
      created on an earlier day, which the handler does not count. */
  lemma DailyLimit(policies: string -> Policy, start: int, actions: seq<Action>, k: Kind, owner: Owner, day: int)
    requires Limit(k, policies(owner.project)) > 0
    ensures var grants := History(policies, start, actions).grants;
            Sum(grants, Taken(k, owner, day)) <= Limit(k, policies(owner.project)) + Sum(grants, Carried(k, owner, day))
  {
    Always(policies, start, actions, k, owner, day);
    Split(History(policies, start, actions).grants, k, owner, day);
  }

  // ---- exactly when the limit holds for the day ----

  /** A request for a whole day's limits. */
  function Full(policy: Policy): Request {
    Request("skill", if policy.maxCalls > 0 then policy.maxCalls else 1,
            if policy.maxSeconds > 0 then policy.maxSeconds else 0, true, true, true)
  }

  function Yesterdays(owner: Owner, usage: Usage, grants: seq<Grant>): State {
    State(DAY, [Run(owner, 0, usage)], grants)
  }

  /** A run created yesterday does not count today, so the handler never turns its requests away. */
  lemma OldRunPasses(policies: string -> Policy, owner: Owner, usage: Usage, grants: seq<Grant>)
    ensures var r := Full(policies(owner.project));
            StepReserve(policies, Yesterdays(owner, usage, grants), 0, r)
            == Yesterdays(owner, Charged(usage, r), grants + [Grant(owner, DAY, 0, CallsOf(r), 1000 * SecondsOf(r))])
  {
    var s, r := Yesterdays(owner, usage, grants), Full(policies(owner.project));
    SkillIsNamed();
    SumAppend([], s.runs[0], Counted(Calls, owner, DAY));
    SumAppend([], s.runs[0], Counted(Millis, owner, DAY));
    assert [] + [s.runs[0]] == s.runs;
    assert StartOfUTCDay(DAY) == DAY;
    assert Answer(policies, s, 0, r) == Allowed;
    assert s.runs[0 := Run(owner, 0, Charged(usage, r))] == [Run(owner, 0, Charged(usage, r))];
  }

  lemma SkillIsNamed()
    ensures Trim("skill", IsGoSpace) == "skill"
  {
    TrimIsTrimmed("skill", IsGoSpace);
  }

  lemma Then(policies: string -> Policy, actions: seq<Action>, a: Action)
    ensures History(policies, 0, actions + [a]) == Step(policies, History(policies, 0, actions), a)
  {
    IterateThen(Stepper(policies), State(0, [], []), actions, a);
  }

  lemma OvernightRun(policies: string -> Policy, owner: Owner)
    ensures History(policies, 0, [NewRun(owner), Tick(DAY)]) == Yesterdays(owner, Usage(0, 0, 0), [])
  {
    Then(policies, [], NewRun(owner));
    Then(policies, [NewRun(owner)], Tick(DAY));
    assert [] + [NewRun(owner)] == [NewRun(owner)] && [NewRun(owner)] + [Tick(DAY)] == [NewRun(owner), Tick(DAY)];
  }

  /** Two full reservations for a run from the day before take twice the limit. */
  lemma TwiceTheLimit(policies: string -> Policy, owner: Owner, k: Kind) returns (actions: seq<Action>)
    requires Limit(k, policies(owner.project)) > 0
    ensures Sum(History(policies, 0, actions).grants, Taken(k, owner, 1)) == 2 * Limit(k, policies(owner.project))
  {
    var r := Full(policies(owner.project));
    var g := Grant(owner, DAY, 0, CallsOf(r), 1000 * SecondsOf(r));
    var night := [NewRun(owner), Tick(DAY)];
    actions := night + [Reserve(0, r)] + [Reserve(0, r)];
    OvernightRun(policies, owner);
    Then(policies, night, Reserve(0, r));
    OldRunPasses(policies, owner, Usage(0, 0, 0), []);
    Then(policies, night + [Reserve(0, r)], Reserve(0, r));
    OldRunPasses(policies, owner, Charged(Usage(0, 0, 0), r), [g]);
    assert [] + [g] == [g] && History(policies, 0, actions).grants == [g] + [g];
    SumAppend([], g, Taken(k, owner, 1));
    SumAppend([g], g, Taken(k, owner, 1));
    assert Day(DAY) == 1;
  }

  /** The owner's reservations of the day are all for runs created that day. */
  predicate SameDay(grants: seq<Grant>, owner: Owner, day: int) {
    forall i :: 0 <= i < |grants| && grants[i].owner == owner && Day(grants[i].at) == day ==>
      Day(grants[i].created) == day
  }

  ghost predicate LimitHolds(policies: string -> Policy, k: Kind, owner: Owner, olderRuns: bool) {
    forall start, actions, day ::
      olderRuns || SameDay(History(policies, start, actions).grants, owner, day) ==>
        Sum(History(policies, start, actions).grants, Taken(k, owner, day)) <= Limit(k, policies(owner.project))
  }

  lemma {:induction false} NothingCarried(grants: seq<Grant>, k: Kind, owner: Owner, day: int)
    requires SameDay(grants, owner, day)
    ensures Sum(grants, Carried(k, owner, day)) == 0
  {
    if grants != [] {
      NothingCarried(grants[..|grants| - 1], k, owner, day);
    }
  }

  /** The daily limit bounds a day's reservations exactly when none may be for a run of an earlier day. */
  lemma LimitHoldsIff(policies: string -> Policy, k: Kind, owner: Owner, olderRuns: bool)
    requires Limit(k, policies(owner.project)) > 0
    ensures LimitHolds(policies, k, owner, olderRuns) <==> !olderRuns
  {
    if olderRuns {
      var actions := TwiceTheLimit(policies, owner, k);
    } else {
      forall start, actions, day | SameDay(History(policies, start, actions).grants, owner, day)
        ensures Sum(History(policies, start, actions).grants, Taken(k, owner, day)) <= Limit(k, policies(owner.project))
      {
        DailyLimit(policies, start, actions, k, owner, day);
        NothingCarried(History(policies, start, actions).grants, k, owner, day);
      }
    }
  }
}

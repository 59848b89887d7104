/** What the run-completion calls guarantee over any sequence of them, and the methods themselves. */
module RunSinkTheorems {
  import opened Common
  import opened RunSink

  // ---- the terminal event ----

  /** Also of a run that was canceled meanwhile. */
  lemma EndedStep(s: State, a: Action)
    requires s.stored.status in {Succeeded, Status.Failed, Canceled}
    ensures Step(s, a) == s
  {
  }

  /** A run that has ended is never written to again, whatever calls follow. */
  lemma {:induction false} NothingAfterTheEnd(run: string, actions: seq<Action>, more: seq<Action>)
    requires Terminal(Run(run, actions).stored.status)
    ensures Run(run, actions + more) == Run(run, actions)
  {
    if more == [] {
      assert actions + more == actions;
    } else {
      var front, last := more[..|more| - 1], more[|more| - 1];
      NothingAfterTheEnd(run, actions, front);
      assert actions + more == (actions + front) + [last];
      IterateThen(Stepper(), Init(run), actions + front, last);
      EndedStep(Run(run, actions), last);
    }
  }

  /** At most one terminal event is ever written, it fits the status, and it is the last event. */
  lemma OneTerminalEvent(run: string, actions: seq<Action>, i: nat)
    requires i < |Run(run, actions).stored.events| && TerminalEvent(Run(run, actions).stored.events[i])
    ensures var stored := Run(run, actions).stored;
            i == |stored.events| - 1 && stored.status == if stored.events[i].RunSucceeded? then Succeeded else Failed
  {
    Always(run, actions);
  }

  // ---- the assistant message ----

  /** A run that succeeded has one message, and one more for every earlier completion whose status
      update failed after its message was written; one that did not succeed has only those. */
  lemma MessagesOfARun(run: string, actions: seq<Action>)
    ensures var s := Run(run, actions);
            s.stored.messages == s.books.stranded + if s.stored.status.Succeeded? then 1 else 0
  {
    Always(run, actions);
  }

  predicate Strands(a: Action) {
    (a.Complete? || a.CompleteWithUsage?) && a.c.message && !a.c.status
  }

  lemma {:induction false} RegisterKeepsRest(s: State, items: seq<Item>)
    ensures var t := RegisterAll(s, items).0;
            && t.books.stranded == s.books.stranded && t.stored.messages == s.stored.messages
            && t.stored.status == s.stored.status && t.stored.usage == s.stored.usage
  {
    if items != [] {
      RegisterKeepsRest(s, items[..|items| - 1]);
    }
  }

  lemma NotStranded(s: State, a: Action)
    requires !Strands(a)
    ensures Step(s, a).books.stranded == s.books.stranded
  {
    if a.Register? {
      RegisterKeepsRest(s, a.items);
    } else if a.Complete? {
      RegisterKeepsRest(s, a.c.items);
    } else if a.CompleteWithUsage? {
      RegisterKeepsRest(s.(stored := s.stored.(usage := Some(a.usage))), a.c.items);
    }
  }

  /** If no completion fails between its message and its status, then success and exactly one message go
      together. */
  lemma {:induction false} OneMessage(run: string, actions: seq<Action>)
    requires forall i :: 0 <= i < |actions| ==> !Strands(actions[i])
    ensures Run(run, actions).stored.messages == if Run(run, actions).stored.status.Succeeded? then 1 else 0
    ensures Run(run, actions).books.stranded == 0
  {
    if actions != [] {
      OneMessage(run, actions[..|actions| - 1]);
      NotStranded(Run(run, actions[..|actions| - 1]), actions[|actions| - 1]);
    }
    Always(run, actions);
  }

  /** Otherwise not: a completion retried after its status update failed leaves two messages. */
  lemma RetriedCompletion(run: string) returns (actions: seq<Action>)
    ensures var stored := Run(run, actions).stored; stored.status == Succeeded && stored.messages == 2
  {
    var first := Complete(Completion(true, true, [], true, false, true));
    var second := Complete(Completion(true, true, [], true, true, true));
    actions := [first, second];
    IterateThen(Stepper(), Init(run), [], first);
    IterateThen(Stepper(), Init(run), [first], second);
    assert [] + [first] == [first] && [first] + [second] == actions;
  }

  // ---- what a completion leaves ----

  /** The usage of a run is that of the last completion that got past its save, whatever failed afterwards. */
  lemma SavedUsage(s: State, a: Action)
    ensures Step(s, a).stored.usage
            == if a.CompleteWithUsage? && a.found && a.save && s.stored.status !in {Succeeded, Status.Failed, Canceled}
               then Some(a.usage) else s.stored.usage
  {
    if a.Register? {
      RegisterKeepsRest(s, a.items);
    } else if a.Complete? {
      RegisterKeepsRest(s, a.c.items);
    } else if a.CompleteWithUsage? {
      RegisterKeepsRest(s.(stored := s.stored.(usage := Some(a.usage))), a.c.items);
    }
  }

  /** A completion of a run that has not ended, if its calls work, registers the artifacts, adds one message, and
      ends the run with its event last. */
  lemma CompletesInFull(s: State, c: Completion)
    requires s.stored.status !in {Succeeded, Status.Failed, Canceled}
    requires c.found && c.again && c.message && c.status && c.event
    requires forall i :: 0 <= i < |c.items| ==> c.items[i].add && c.items[i].event
    ensures var registered, t := RegisterAll(s, c.items), Step(s, Complete(c));
            && registered.1.Some? && |registered.1.value| == |c.items|
            && t.stored.status == Succeeded && t.stored.messages == s.stored.messages + 1
            && t.stored.events == registered.0.stored.events + [RunSucceeded]
            && t.stored.owners == registered.0.stored.owners
  {
    RegistersAll(s, c.items);
    RegisterKeepsRest(s, c.items);
    if c.items == [] {
      assert RegisterAll(s, c.items) == (s, Some([]));
    }
  }

  /** A failure that is written ends the run as failed, with its event last if that can be written. */
  lemma FailsInFull(s: State, event: bool)
    requires s.stored.status !in {Succeeded, Status.Failed, Canceled}
    ensures Step(s, Fail(true, true, event)).stored
            == s.stored.(status := Status.Failed, events := s.stored.events + if event then [RunFailed] else [])
  {
    assert s.stored.events + [] == s.stored.events;
  }

  lemma {:induction false} RegistersAll(s: State, items: seq<Item>)
    requires forall i :: 0 <= i < |items| ==> items[i].add && items[i].event
    ensures var ids := RegisterAll(s, items).1; ids.Some? && |ids.value| == |items|
  {
    if items != [] {
      RegistersAll(s, items[..|items| - 1]);
    }
  }

  predicate EndsLoudly(a: Action) {
    match a
    case Register(_, _) => true
    case Complete(c) => c.event
    case CompleteWithUsage(_, _, _, c) => c.event
    case Fail(_, _, event) => event
  }

  /** If the terminal event can be written, a run that succeeded or failed has it, as its last event. */
  lemma {:induction false} EndIsAnnounced(run: string, actions: seq<Action>)
    requires forall i :: 0 <= i < |actions| ==> EndsLoudly(actions[i])
    ensures var status, events := Run(run, actions).stored.status, Run(run, actions).stored.events;
            && (status == Succeeded ==> events != [] && events[|events| - 1] == RunSucceeded)
            && (status == Status.Failed ==> events != [] && events[|events| - 1] == RunFailed)
  {
    if actions != [] {
      var front, a := actions[..|actions| - 1], actions[|actions| - 1];
      EndIsAnnounced(run, front);
      var s := Run(run, front);
      if a.Register? {
        RegisterKeepsRest(s, a.items);
      } else if a.Complete? {
        RegisterKeepsRest(s, a.c.items);
      } else if a.CompleteWithUsage? {
        RegisterKeepsRest(s.(stored := s.stored.(usage := Some(a.usage))), a.c.items);
      }
    }
  }

  // ---- artifact events ----

  /** Every artifact of the run was announced once, but for events that could not be written and for
      times it was stored over. */
  lemma AnnouncedOnce(run: string, actions: seq<Action>, id: Id)
    ensures var s := Run(run, actions);
            Sum(s.stored.events, Mentions(run, id)) + s.books.lost[id]
            == s.books.overwritten[id] + if Owned(s, id) then 1 else 0
  {
    Always(run, actions);
    assert Announced(Run(run, actions), id);
  }

  function ItemsOf(a: Action): seq<Item> {
    match a
    case Register(_, items) => items
    case Complete(c) => c.items
    case CompleteWithUsage(_, _, _, c) => c.items
    case Fail(_, _, _) => []
  }

  /** All artifact lookups work: none fails, and none misses an artifact that has expired. */
  predicate Reads(actions: seq<Action>) {
    forall i :: 0 <= i < |actions| ==> ReadItems(ItemsOf(actions[i]))
  }

  predicate ReadItems(items: seq<Item>) {
    forall i :: 0 <= i < |items| ==> items[i].lookup
  }

  /** All event writes for artifacts work. */
  predicate Writes(actions: seq<Action>) {
    forall i :: 0 <= i < |actions| ==> WriteItems(ItemsOf(actions[i]))
  }

  predicate WriteItems(items: seq<Item>) {
    forall i :: 0 <= i < |items| ==> items[i].event
  }

  /** Working lookups never let an artifact of the run be stored over, and working writes lose no event. */
  ghost predicate Clean(s: State, lookups: bool, writes: bool) {
    && (writes ==> s.books.lost == multiset{})
    && (lookups ==> s.books.overwritten == multiset{})
    && forall n: nat :: Minted(n) in s.stored.owners ==> n < s.stored.next
  }

  lemma RegisterOneClean(s: State, item: Item, lookups: bool, writes: bool)
    requires Clean(s, lookups, writes) && (lookups ==> item.lookup) && (writes ==> item.event)
    ensures Clean(RegisterOne(s, item).0, lookups, writes)
  {
  }

  lemma {:induction false} RegisterAllClean(s: State, items: seq<Item>, lookups: bool, writes: bool)
    requires Clean(s, lookups, writes) && (lookups ==> ReadItems(items)) && (writes ==> WriteItems(items))
    ensures Clean(RegisterAll(s, items).0, lookups, writes)
  {
    if items != [] {
      RegisterAllClean(s, items[..|items| - 1], lookups, writes);
      RegisterOneClean(RegisterAll(s, items[..|items| - 1]).0, items[|items| - 1], lookups, writes);
    }
  }

  lemma StepClean(s: State, a: Action, lookups: bool, writes: bool)
    requires Clean(s, lookups, writes) && (lookups ==> ReadItems(ItemsOf(a))) && (writes ==> WriteItems(ItemsOf(a)))
    ensures Clean(Step(s, a), lookups, writes)
  {
    match a
    case Register(_, items) => RegisterAllClean(s, items, lookups, writes);
    case Complete(c) => RegisterAllClean(s, c.items, lookups, writes);
    case CompleteWithUsage(_, usage, _, c) =>
      RegisterAllClean(s.(stored := s.stored.(usage := Some(usage))), c.items, lookups, writes);
    case Fail(_, _, _) =>
  }

  lemma {:induction false} AlwaysClean(run: string, actions: seq<Action>, lookups: bool, writes: bool)
    requires (lookups ==> Reads(actions)) && (writes ==> Writes(actions))
    ensures Clean(Run(run, actions), lookups, writes)
  {
    if actions != [] {
      AlwaysClean(run, actions[..|actions| - 1], lookups, writes);
      StepClean(Run(run, actions[..|actions| - 1]), actions[|actions| - 1], lookups, writes);
    }
  }

  /** When lookups and event writes work, an artifact has exactly one event filed under the run if it is
      the run's, and none if it is not, however often it was registered. */
  lemma ExactlyOneEvent(run: string, actions: seq<Action>, id: Id)
    requires Reads(actions) && Writes(actions)
    ensures Sum(Run(run, actions).stored.events, Mentions(run, id)) == if Owned(Run(run, actions), id) then 1 else 0
  {
    AlwaysClean(run, actions, true, true);
    AnnouncedOnce(run, actions, id);
  }

  /** When lookups work, it has at most one, whatever else fails. */
  lemma AtMostOneEvent(run: string, actions: seq<Action>, id: Id)
    requires Reads(actions)
    ensures Sum(Run(run, actions).stored.events, Mentions(run, id)) <= 1
  {
    AlwaysClean(run, actions, true, false);
    AnnouncedOnce(run, actions, id);
  }

  /** Registration that succeeds names one stored artifact for each given one, in order, under its own id if it
      came with one. */
  lemma {:induction false} RegisteredAreStored(s: State, items: seq<Item>)
    requires RegisterAll(s, items).1.Some?
    ensures var (t, ids) := RegisterAll(s, items);
            && |ids.value| == |items| && s.stored.owners.Keys <= t.stored.owners.Keys
            && forall i :: 0 <= i < |items| ==>
                 && ids.value[i] in t.stored.owners
                 && (items[i].artifact.id.Some? ==> ids.value[i] == items[i].artifact.id.value)
  {
    if items != [] {
      RegisteredAreStored(s, items[..|items| - 1]);
    }
  }

  /** An event that could not be written is never made up for: the retry finds the artifact in place. */
  lemma LostAnnouncement(run: string) returns (actions: seq<Action>, id: Id)
    ensures Reads(actions) && Owned(Run(run, actions), id)
    ensures Sum(Run(run, actions).stored.events, Mentions(run, id)) == 0
  {
    id := Named("a");
    var item := Item(Artifact(Some(id), ""), true, true, false);
    actions := [Register(true, [item]), Register(true, [item.(event := true)])];
    TwoRegistrations(run, item, item.(event := true));
  }

  /** An artifact of the run that a lookup misses is stored again and announced again, though every write works
      and nothing is ever filed under another run. */
  lemma MissedLookup(run: string) returns (actions: seq<Action>, id: Id)
    ensures Writes(actions) && FiledAll(actions, run, run) && Owned(Run(run, actions), id)
    ensures Sum(Run(run, actions).stored.events, Mentions(run, id)) == 2
    ensures Sum(Run(run, actions).stored.events, MentionsAny(id)) == 2
  {
    id := Named("a");
    var item := Item(Artifact(Some(id), ""), true, true, true);
    actions := [Register(true, [item]), Register(true, [item.(lookup := false)])];
    RegisteredTwice(run, item);
    var events := Run(run, actions).stored.events;
    TwoEvents(events, ArtifactCreated(id, run), ArtifactCreated(id, run), id);
    SumEqual(events, Mentions(run, id), MentionsAny(id));
  }

  lemma RegisteredTwice(run: string, item: Item)
    requires item.artifact.id.Some? && item.artifact.owner == "" && item.add && item.event
    ensures var s := Run(run, [Register(true, [item]), Register(true, [item.(lookup := false)])]);
            var e := ArtifactCreated(item.artifact.id.value, run);
            s.stored.events == [e, e] && s.run == run && Owned(s, item.artifact.id.value)
  {
    var again := item.(lookup := false);
    TwoRegistrations(run, item, again);
    AnnouncesOnce(Init(run), item, run);
    AnnouncesOnce(Run(run, [Register(true, [item])]), again, run);
  }

  /** Two calls that register one item each. */
  lemma TwoRegistrations(run: string, first: Item, second: Item)
    ensures var register, again := Register(true, [first]), Register(true, [second]);
            && Run(run, [register]) == RegisterOne(Init(run), first).0
            && (!Terminal(Run(run, [register]).stored.status) ==>
                  Run(run, [register, again]) == RegisterOne(Run(run, [register]), second).0)
  {
    var register, again := Register(true, [first]), Register(true, [second]);
    IterateThen(Stepper(), Init(run), [], register);
    IterateThen(Stepper(), Init(run), [register], again);
    assert [] + [register] == [register] && [register] + [again] == [register, again];
    OneItem(Init(run), first);
    if !Terminal(Run(run, [register]).stored.status) {
      OneItem(Run(run, [register]), second);
    }
  }

  lemma OneItem(s: State, item: Item)
    requires !Terminal(s.stored.status)
    ensures RegisterStep(s, true, [item]).0 == RegisterOne(s, item).0
  {
    assert [item][..0] == [];
    assert RegisterAll(s, [item]).0 == RegisterOne(s, item).0;
  }

  /** Every artifact of the run has exactly one event, after any calls whose lookups and event writes fail only
      if they may. */
  ghost predicate EachAnnounced(run: string, lookupsMayFail: bool, eventsMayFail: bool) {
    forall actions, id :: (lookupsMayFail || Reads(actions)) && (eventsMayFail || Writes(actions)) ==>
      Sum(Run(run, actions).stored.events, Mentions(run, id)) == if Owned(Run(run, actions), id) then 1 else 0
  }

  /** That is so if and only if neither an artifact lookup nor an event write may fail. */
  lemma EachAnnouncedIff(run: string, lookupsMayFail: bool, eventsMayFail: bool)
    ensures EachAnnounced(run, lookupsMayFail, eventsMayFail) <==> !lookupsMayFail && !eventsMayFail
  {
    if eventsMayFail {
      var actions, id := LostAnnouncement(run);
    } else if lookupsMayFail {
      var actions, id := MissedLookup(run);
    } else {
      forall actions, id | Reads(actions) && Writes(actions)
        ensures Sum(Run(run, actions).stored.events, Mentions(run, id)) == if Owned(Run(run, actions), id) then 1 else 0
      {
        ExactlyOneEvent(run, actions, id);
      }
    }
  }

  function MentionsAny(id: Id): Event -> int {
    (e: Event) => if e.ArtifactCreated? && e.id == id then 1 else 0
  }

  predicate FiledUnder(items: seq<Item>, run: string, other: string) {
    forall i :: 0 <= i < |items| ==>
      items[i].artifact.owner == "" || items[i].artifact.owner == run || items[i].artifact.owner == other
  }

  /** Calls that file artifacts under this run or `other`. */
  predicate FiledAll(actions: seq<Action>, run: string, other: string) {
    forall i :: 0 <= i < |actions| ==> FiledUnder(ItemsOf(actions[i]), run, other)
  }

  /** Events filed under another run come on top: an artifact registered for another run first and then for
      this one is announced twice. */
  lemma ForeignThenOwned(run: string, other: string) returns (actions: seq<Action>, id: Id)
    requires run != other && other != ""
    ensures Reads(actions) && FiledAll(actions, run, other)
    ensures Sum(Run(run, actions).stored.events, MentionsAny(id)) == 2
  {
    id := Named("a");
    var first := Item(Artifact(Some(id), other), true, true, true);
    var second := first.(artifact := Artifact(Some(id), ""));
    actions := [Register(true, [first]), Register(true, [second])];
    TwoRegistrations(run, first, second);
    AnnouncesOnce(Init(run), first, other);
    AnnouncesOnce(Run(run, [actions[0]]), second, run);
    TwoEvents(Run(run, actions).stored.events, ArtifactCreated(id, other), ArtifactCreated(id, run), id);
  }

  lemma TwoEvents(events: seq<Event>, e: Event, f: Event, id: Id)
    requires events == [e, f] && e.ArtifactCreated? && f.ArtifactCreated? && e.id == id == f.id
    ensures Sum(events, MentionsAny(id)) == 2
  {
    SumAppend([], e, MentionsAny(id));
    SumAppend([e], f, MentionsAny(id));
    assert [] + [e] == [e] && [e] + [f] == events;
  }

  lemma AnnouncesOnce(s: State, item: Item, owner: string)
    requires !Terminal(s.stored.status) && !Known(s, item) && item.add && item.event && item.artifact.id.Some?
    requires owner == OwnerFor(s, item.artifact)
    ensures var t := RegisterStep(s, true, [item]).0;
            && t.stored.events == s.stored.events + [ArtifactCreated(item.artifact.id.value, owner)]
            && t.stored.owners == s.stored.owners[item.artifact.id.value := owner]
            && t.stored.status == s.stored.status && t.run == s.run && t == RegisterOne(s, item).0
  {
    OneItem(s, item);
  }

  predicate OwnEvents(s: State) {
    forall i :: 0 <= i < |s.stored.events| && s.stored.events[i].ArtifactCreated? ==> s.stored.events[i].owner == s.run
  }

  lemma {:induction false} RegisterAllOwn(s: State, items: seq<Item>)
    requires OwnEvents(s) && FiledUnder(items, s.run, s.run)
    ensures OwnEvents(RegisterAll(s, items).0)
  {
    RegisterSameRun(s, items[..if items == [] then 0 else |items| - 1]);
    if items != [] {
      RegisterAllOwn(s, items[..|items| - 1]);
    }
  }

  lemma StepOwn(s: State, a: Action)
    requires OwnEvents(s) && FiledUnder(ItemsOf(a), s.run, s.run)
    ensures OwnEvents(Step(s, a))
  {
    var t := if a.CompleteWithUsage? then s.(stored := s.stored.(usage := Some(a.usage))) else s;
    RegisterAllOwn(t, ItemsOf(a));
    RegisterSameRun(t, ItemsOf(a));
  }

  lemma {:induction false} AlwaysOwn(run: string, actions: seq<Action>)
    requires FiledAll(actions, run, run)
    ensures OwnEvents(Run(run, actions))
  {
    if actions != [] {
      var front, last := actions[..|actions| - 1], actions[|actions| - 1];
      AlwaysOwn(run, front);
      Always(run, front);
      StepOwn(Run(run, front), last);
    }
  }

  /** Every artifact id is announced at most once, under whichever run, after any calls that file artifacts under
      this run or `other` and whose lookups fail only if they may. */
  ghost predicate AtMostOneEach(run: string, other: string, lookupsMayFail: bool) {
    forall actions, id :: (lookupsMayFail || Reads(actions)) && FiledAll(actions, run, other) ==>
      Sum(Run(run, actions).stored.events, MentionsAny(id)) <= 1
  }

  /** That is so if and only if lookups may not fail and artifacts are filed under this run alone. Failing event
      writes do no harm here. */
  lemma AtMostOneEachIff(run: string, other: string, lookupsMayFail: bool)
    ensures AtMostOneEach(run, other, lookupsMayFail) <==> !lookupsMayFail && (other == "" || other == run)
  {
    if lookupsMayFail {
      var actions, id := MissedLookup(run);
      assert FiledAll(actions, run, other);
    } else if other == "" || other == run {
      forall actions, id | Reads(actions) && FiledAll(actions, run, other)
        ensures Sum(Run(run, actions).stored.events, MentionsAny(id)) <= 1
      {
        assert FiledAll(actions, run, run);
        AlwaysOwn(run, actions);
        Always(run, actions);
        AtMostOneEvent(run, actions, id);
        SumEqual(Run(run, actions).stored.events, MentionsAny(id), Mentions(run, id));
      }
    } else {
      var actions, id := ForeignThenOwned(run, other);
    }
  }

  // ---- the methods ----

  class Repository {
    const run: string
    var stored: Stored
    ghost var books: Books

    constructor (run: string)
      ensures this.run == run && Now() == Init(run)
    {
      this.run := run;
      stored, books := Stored(Running, 0, [], map[], 0, None), Books(multiset{}, multiset{}, 0);
    }

    ghost function Now(): State
      reads this
    {
      State(run, stored, books)
    }

    method AddEvent(e: Event, ok: bool) returns (failed: bool)
      modifies this`stored
      ensures failed == !ok && Now() == WithEvent(old(Now()), e, ok)
    {
      if ok {
        stored := stored.(events := stored.events + [e]);
      }
      return !ok;
    }

    /** The run an artifact is filed under, if the lookup works and finds it. */
    method GetArtifact(id: Id, ok: bool) returns (owner: Option<string>)
      ensures owner == if ok && id in stored.owners then Some(stored.owners[id]) else None
    {
      return if ok && id in stored.owners then Some(stored.owners[id]) else None;
    }

    method AddArtifact(a: Artifact, ok: bool) returns (saved: Option<Id>)
      modifies this
      ensures saved == if ok then Some(IdFor(old(Now()), a)) else None
      ensures Now() == if ok then File(old(Now()), IdFor(old(Now()), a), a.owner) else old(Now())
    {
      if !ok {
        return None;
      }
      var id := if a.id.Some? then a.id.value else Minted(stored.next);
      if id in stored.owners && stored.owners[id] == run {
        books := books.(overwritten := books.overwritten + multiset{id});
      }
      stored := stored.(owners := stored.owners[id := a.owner], next := NextAfter(stored.next, id));
      return Some(id);
    }

    method AddAssistantMessage(ok: bool) returns (failed: bool)
      modifies this`stored
      ensures failed == !ok
      ensures stored == if ok then old(stored).(messages := old(stored).messages + 1) else old(stored)
    {
      if ok {
        stored := stored.(messages := stored.messages + 1);
      }
      return !ok;
    }

    method SaveRunUsage(usage: Usage, ok: bool) returns (failed: bool)
      modifies this`stored
      ensures failed == !ok && stored == if ok then old(stored).(usage := Some(usage)) else old(stored)
    {
      if ok {
        stored := stored.(usage := Some(usage));
      }
      return !ok;
    }

    /** A terminal status is never replaced by another. */
    method UpdateRunStatus(status: Status, ok: bool) returns (failed: bool)
      modifies this`stored
      ensures failed == !ok
      ensures stored == if ok && !Terminal(old(stored).status) then old(stored).(status := status) else old(stored)
    {
      if ok && !(Terminal(stored.status) && stored.status != status) {
        stored := stored.(status := status);
      }
      return !ok;
    }
  }

  class RepositorySink {
    const repo: Repository

    constructor (repo: Repository)
      ensures this.repo == repo
    {
      this.repo := repo;
    }

    method RegisterArtifact(item: Item) returns (saved: Option<Id>)
      modifies repo
      ensures (repo.Now(), saved) == RegisterOne(old(repo.Now()), item)
    {
      if item.artifact.id.Some? {
        var owner := repo.GetArtifact(item.artifact.id.value, item.lookup);
        if owner == Some(repo.run) {
          return item.artifact.id;
        }
      }
      var owner := if item.artifact.owner != "" then item.artifact.owner else repo.run;
      saved := repo.AddArtifact(item.artifact.(owner := owner), item.add);
      if saved.None? {
        return;
      }
      var failed := repo.AddEvent(ArtifactCreated(saved.value, owner), item.event);
      if failed {
        if owner == repo.run {
          repo.books := repo.books.(lost := repo.books.lost + multiset{saved.value});
        }
        return None;
      }
    }

    method RegisterArtifacts(found: bool, items: seq<Item>) returns (saved: Option<seq<Id>>)
      modifies repo
      ensures (repo.Now(), saved) == RegisterStep(old(repo.Now()), found, items)
    {
      if !found {
        return None;
      }
      if Terminal(repo.stored.status) {
        return Some([]);
      }
      var ids: seq<Id> := [];
      for i := 0 to |items|
        invariant (repo.Now(), Some(ids)) == RegisterAll(old(repo.Now()), items[..i])
      {
        assert items[..i + 1][..i] == items[..i];
        var id := RegisterArtifact(items[i]);
        if id.None? {
          Cut(old(repo.Now()), items, i + 1);
          return None;
        }
        ids := ids + [id.value];
      }
      assert items[..|items|] == items;
      return Some(ids);
    }

    method Complete(c: Completion) returns (failed: bool)
      modifies repo
      ensures repo.Now() == CompleteStep(old(repo.Now()), c)
      ensures !failed ==> Terminal(repo.stored.status)
    {
      if !c.found {
        return true;
      }
      if Terminal(repo.stored.status) {
        return false;
      }
      if |c.items| > 0 {
        var saved := RegisterArtifacts(c.again, c.items);
        if saved.None? {
          return true;
        }
      }
      failed := repo.AddAssistantMessage(c.message);
      if failed {
        return;
      }
      RegisterKeepsRest(old(repo.Now()), c.items);
      failed := repo.UpdateRunStatus(Succeeded, c.status);
      if failed {
        repo.books := repo.books.(stranded := repo.books.stranded + 1);
        return;
      }
      failed := repo.AddEvent(RunSucceeded, c.event);
    }

    method CompleteWithUsage(found: bool, usage: Usage, save: bool, c: Completion) returns (failed: bool)
      modifies repo
      ensures repo.Now() == Step(old(repo.Now()), Action.CompleteWithUsage(found, usage, save, c))
      ensures !failed ==> Terminal(repo.stored.status)
    {
      if !found {
        return true;
      }
      if Terminal(repo.stored.status) {
        return false;
      }
      failed := repo.SaveRunUsage(usage, save);
      if failed {
        return;
      }
      failed := Complete(c);
    }

    method Fail(found: bool, status: bool, event: bool) returns (failed: bool)
      modifies repo
      ensures repo.Now() == FailStep(old(repo.Now()), found, status, event)
      ensures !failed ==> Terminal(repo.stored.status)
    {
      if !found {
        return true;
      }
      if Terminal(repo.stored.status) {
        return false;
      }
      failed := repo.UpdateRunStatus(Failed, status);
      if failed {
        return;
      }
      failed := repo.AddEvent(RunFailed, event);
    }
  }

  lemma {:induction false} Cut(s: State, items: seq<Item>, n: nat)
    requires n <= |items| && RegisterAll(s, items[..n]).1.None?
    ensures RegisterAll(s, items) == RegisterAll(s, items[..n])
    decreases |items|
  {
    if n < |items| {
      assert items[..|items| - 1][..n] == items[..n];
      Cut(s, items[..|items| - 1], n);
    } else {
      assert items[..n] == items;
    }
  }
}

/** How a run's results reach the repository (control-plane/internal/app/runs.go), seen by one run with no
  other writer. Every repository call may fail without effect. */
module RunSink {
  import opened Common

  datatype Status = Queued | Running | Succeeded | Failed | Canceled

  /** Ids given by callers, and ids the repository mints for artifacts that come without one. */
  datatype Id = Named(name: string) | Minted(n: nat)

  datatype Event = ArtifactCreated(id: Id, owner: string) | RunSucceeded | RunFailed

  /** `owner` is the run an artifact is filed under; empty on arrival means the run at hand. */
  datatype Artifact = Artifact(id: Option<Id>, owner: string)

  datatype Usage = Usage(tokens: int, toolCalls: int, sandboxMillis: int)

  /** The run and what is stored for it. `owners` covers all artifacts, `next` is beyond all minted ids. */
  datatype Stored = Stored(status: Status, messages: nat, events: seq<Event>, owners: map<Id, string>, next: nat,
                           usage: Option<Usage>)

  /** What went wrong on the way: events that could not be written for a stored artifact, artifacts of
      the run that were stored over, and messages written by a completion that then failed. */
  datatype Books = Books(lost: multiset<Id>, overwritten: multiset<Id>, stranded: nat)

  datatype State = State(run: string, stored: Stored, books: Books)

  datatype Item = Item(artifact: Artifact, lookup: bool, add: bool, event: bool)

  datatype Completion = Completion(found: bool, again: bool, items: seq<Item>, message: bool, status: bool, event: bool)

  datatype Action =
    | Register(found: bool, items: seq<Item>)
    | Complete(c: Completion)
    | CompleteWithUsage(found: bool, usage: Usage, save: bool, c: Completion)
    | Fail(found: bool, status: bool, event: bool)

  predicate Terminal(status: Status) {
    status.Succeeded? || status.Failed? || status.Canceled?
  }

  predicate TerminalEvent(e: Event) {
    e.RunSucceeded? || e.RunFailed?
  }

  // ---- what each call does ----

  predicate Owned(s: State, id: Id) {
    id in s.stored.owners && s.stored.owners[id] == s.run
  }

  function WithEvent(s: State, e: Event, ok: bool): State {
    if ok then s.(stored := s.stored.(events := s.stored.events + [e])) else s
  }

  function IdFor(s: State, a: Artifact): Id {
    if a.id.Some? then a.id.value else Minted(s.stored.next)
  }

  function OwnerFor(s: State, a: Artifact): string {
    if a.owner == "" then s.run else a.owner
  }

  function NextAfter(next: nat, id: Id): nat {
    if id.Minted? && id.n >= next then id.n + 1 else next
  }

  /** `AddArtifact`: stores the artifact, over whatever had its id. */
  function File(s: State, id: Id, owner: string): State {
    s.(stored := s.stored.(owners := s.stored.owners[id := owner], next := NextAfter(s.stored.next, id)),
       books := if Owned(s, id) then s.books.(overwritten := s.books.overwritten + multiset{id}) else s.books)
  }

  /** The event for a stored artifact; its failure is final, as a retry finds the artifact in place. */
  function Announce(s: State, id: Id, owner: string, ok: bool): State {
    if !ok && owner == s.run then s.(books := s.books.(lost := s.books.lost + multiset{id}))
    else WithEvent(s, ArtifactCreated(id, owner), ok)
  }

  predicate Known(s: State, item: Item) {
    item.artifact.id.Some? && item.lookup && Owned(s, item.artifact.id.value)
  }

  /** The artifact's id, or nothing if a call failed. */
  function RegisterOne(s: State, item: Item): (State, Option<Id>) {
    if Known(s, item) then (s, item.artifact.id)
    else if !item.add then (s, None)
    else
      var id, owner := IdFor(s, item.artifact), OwnerFor(s, item.artifact);
      (Announce(File(s, id, owner), id, owner, item.event), if item.event then Some(id) else None)
  }

  function RegisterAll(s: State, items: seq<Item>): (State, Option<seq<Id>>) {
    if items == [] then (s, Some([]))
    else
      var (t, ids) := RegisterAll(s, items[..|items| - 1]);
      if ids.None? then (t, None)
      else
        var (u, id) := RegisterOne(t, items[|items| - 1]);
        (u, if id.None? then None else Some(ids.value + [id.value]))
  }

  function RegisterStep(s: State, found: bool, items: seq<Item>): (State, Option<seq<Id>>) {
    if !found then (s, None) else if Terminal(s.stored.status) then (s, Some([])) else RegisterAll(s, items)
  }

  /** A message, then the status, then the event; a status that cannot be written strands the message. */
  function Finish(s: State, c: Completion): State {
    if !c.message then s
    else
      var t := s.(stored := s.stored.(messages := s.stored.messages + 1));
      if !c.status then t.(books := t.books.(stranded := t.books.stranded + 1))
      else WithEvent(t.(stored := t.stored.(status := Succeeded)), RunSucceeded, c.event)
  }

  function CompleteStep(s: State, c: Completion): State {
    if !c.found || Terminal(s.stored.status) then s
    else
      var (t, ids) := if c.items != [] then RegisterStep(s, c.again, c.items) else (s, Some([]));
      if ids.None? then t else Finish(t, c)
  }

  function FailStep(s: State, found: bool, status: bool, event: bool): State {
    if !found || Terminal(s.stored.status) || !status then s
    else WithEvent(s.(stored := s.stored.(status := Failed)), RunFailed, event)
  }

  function Step(s: State, a: Action): State {
    match a
    case Register(found, items) => RegisterStep(s, found, items).0
    case Complete(c) => CompleteStep(s, c)
    case CompleteWithUsage(found, usage, save, c) =>
      if !found || Terminal(s.stored.status) || !save then s
      else CompleteStep(s.(stored := s.stored.(usage := Some(usage))), c)
    case Fail(found, status, event) => FailStep(s, found, status, event)
  }

  function Stepper(): (State, Action) -> State {
    (s: State, a: Action) => Step(s, a)
  }

  function Init(run: string): State {
    State(run, Stored(Running, 0, [], map[], 0, None), Books(multiset{}, multiset{}, 0))
  }

  function Run(run: string, actions: seq<Action>): State {
    Iterate(Stepper(), Init(run), actions)
  }

  // ---- the invariant ----

  function Mentions(run: string, id: Id): Event -> int {
    (e: Event) => if e == ArtifactCreated(id, run) then 1 else 0
  }

  /** Terminal events come last and tell the status. */
  predicate EndsOnce(s: State) {
    forall i :: 0 <= i < |s.stored.events| && TerminalEvent(s.stored.events[i]) ==>
      i == |s.stored.events| - 1
      && s.stored.status == if s.stored.events[i].RunSucceeded? then Succeeded else Failed
  }

  predicate MessagesFit(s: State) {
    s.stored.messages == s.books.stranded + if s.stored.status.Succeeded? then 1 else 0
  }

  /** Events announcing an artifact of the run, written or lost, against its place in the repository. */
  predicate Announced(s: State, id: Id) {
    Sum(s.stored.events, Mentions(s.run, id)) + s.books.lost[id]
    == s.books.overwritten[id] + if Owned(s, id) then 1 else 0
  }

  ghost predicate Inv(s: State) {
    EndsOnce(s) && MessagesFit(s) && forall id :: Announced(s, id)
  }

  lemma RegisterOneAnnounced(s: State, item: Item, id: Id)
    requires Announced(s, id)
    ensures Announced(RegisterOne(s, item).0, id)
  {
    if !Known(s, item) && item.add {
      var i, owner := IdFor(s, item.artifact), OwnerFor(s, item.artifact);
      SumAppend(s.stored.events, ArtifactCreated(i, owner), Mentions(s.run, id));
      FileAnnounced(s, i, owner, item.event, id);
    }
  }

  lemma FileAnnounced(s: State, i: Id, owner: string, ok: bool, id: Id)
    requires Announced(s, id)
    requires Sum(s.stored.events + [ArtifactCreated(i, owner)], Mentions(s.run, id))
          == Sum(s.stored.events, Mentions(s.run, id)) + Mentions(s.run, id)(ArtifactCreated(i, owner))
    ensures Announced(Announce(File(s, i, owner), i, owner, ok), id)
  {
    var t := File(s, i, owner);
    assert Owned(t, id) <==> if i == id then owner == s.run else Owned(s, id);
  }

  lemma RegisterOneKeeps(s: State, item: Item)
    requires Inv(s) && !Terminal(s.stored.status)
    ensures var t := RegisterOne(s, item).0; Inv(t) && t.stored.status == s.stored.status && t.run == s.run
  {
    var t := RegisterOne(s, item).0;
    forall id ensures Announced(t, id) {
      assert Announced(s, id);
      RegisterOneAnnounced(s, item, id);
    }
  }

  lemma {:induction false} RegisterAllKeeps(s: State, items: seq<Item>)
    requires Inv(s) && !Terminal(s.stored.status)
    ensures var t := RegisterAll(s, items).0; Inv(t) && t.stored.status == s.stored.status && t.run == s.run
  {
    if items != [] {
      RegisterAllKeeps(s, items[..|items| - 1]);
      RegisterOneKeeps(RegisterAll(s, items[..|items| - 1]).0, items[|items| - 1]);
    }
  }

  // A terminal event mentions no artifact, and follows no other terminal event.
  lemma EndKeeps(s: State, t: State, e: Event, ok: bool)
    requires Inv(s) && !Terminal(s.stored.status) && TerminalEvent(e)
    requires t.run == s.run && t.books == s.books && t.stored.owners == s.stored.owners
    requires t.stored.events == s.stored.events
    requires t.stored.status == if e.RunSucceeded? then Succeeded else Failed
    requires MessagesFit(t)
    ensures Inv(WithEvent(t, e, ok))
  {
    var u := WithEvent(t, e, ok);
    forall id ensures Announced(u, id) {
      assert Announced(s, id);
      SumAppend(s.stored.events, e, Mentions(s.run, id));
    }
  }

  lemma FinishKeeps(s: State, c: Completion)
    requires Inv(s) && !Terminal(s.stored.status)
    ensures Inv(Finish(s, c))
  {
    if c.message {
      var t := s.(stored := s.stored.(messages := s.stored.messages + 1));
      if c.status {
        EndKeeps(s, t.(stored := t.stored.(status := Succeeded)), RunSucceeded, c.event);
      } else {
        forall id ensures Announced(Finish(s, c), id) {
          assert Announced(s, id);
        }
      }
    }
  }

  lemma CompleteKeeps(s: State, c: Completion)
    requires Inv(s)
    ensures Inv(CompleteStep(s, c))
  {
    if c.found && !Terminal(s.stored.status) {
      RegisterAllKeeps(s, c.items);
      var (t, ids) := if c.items != [] then RegisterStep(s, c.again, c.items) else (s, Some([]));
      if ids.Some? {
        FinishKeeps(t, c);
      }
    }
  }

  lemma UsageKeeps(s: State, usage: Usage, c: Completion)
    requires Inv(s)
    ensures Inv(CompleteStep(s.(stored := s.stored.(usage := Some(usage))), c))
  {
    var t := s.(stored := s.stored.(usage := Some(usage)));
    forall id ensures Announced(t, id) {
      assert Announced(s, id);
    }
    CompleteKeeps(t, c);
  }

  lemma StepKeeps(s: State, a: Action)
    requires Inv(s)
    ensures Inv(Step(s, a))
  {
    match a
    case Register(found, items) => if !Terminal(s.stored.status) { RegisterAllKeeps(s, items); }
    case Complete(c) => CompleteKeeps(s, c);
    case CompleteWithUsage(_, usage, _, c) => UsageKeeps(s, usage, c);
    case Fail(found, status, event) =>
      if !Terminal(s.stored.status) {
        EndKeeps(s, s.(stored := s.stored.(status := Failed)), RunFailed, event);
      }
  }

  lemma {:induction false} Always(run: string, actions: seq<Action>)
    ensures Inv(Run(run, actions)) && Run(run, actions).run == run
  {
    if actions != [] {
      Always(run, actions[..|actions| - 1]);
      var s, a := Run(run, actions[..|actions| - 1]), actions[|actions| - 1];
      StepKeeps(s, a);
      SameRun(s, a);
    }
  }

  lemma {:induction false} RegisterSameRun(s: State, items: seq<Item>)
    ensures RegisterAll(s, items).0.run == s.run
  {
    if items != [] {
      RegisterSameRun(s, items[..|items| - 1]);
    }
  }

  lemma SameRun(s: State, a: Action)
    ensures Step(s, a).run == s.run
  {
    match a
    case Register(_, items) => RegisterSameRun(s, items);
    case Complete(c) => RegisterSameRun(s, c.items);
    case CompleteWithUsage(_, usage, _, c) =>
      RegisterSameRun(s.(stored := s.stored.(usage := Some(usage))), c.items);
    case Fail(_, _, _) =>
  }
}

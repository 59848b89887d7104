/** The Redis Streams run queue: one stream and consumer group, any number of workers that may crash at
  any step, and store calls that may fail without effect (runqueue/worker.go, dispatch/queue.go). */
module RunQueue {
  import opened Common

  /** A stream entry. `deliveries` is its delivery count, `first`, `seen` and `blind` how often it was handed
      to execution: on first delivery, after a claim whose count query found the entry, and after a
      claim whose count query failed or found the entry gone. */
  datatype Message = Message(decodable: bool, deliveries: nat, first: nat, seen: nat, blind: nat)

  /** A claimed entry and the delivery count its claim gave it. */
  datatype Claimed = Claimed(id: nat, count: nat)

  datatype Worker =
    | Idle
    | Checking(claims: seq<Claimed>)
    | Lettering(id: nat, rest: seq<Claimed>)
    | AckDead(id: nat, rest: seq<Claimed>)
    | LetterBad(id: nat)
    | AckBad(id: nat)
    | Running(id: nat)
    | AckDone(id: nat)

  /** `next` is the group's cursor, `pending` its pending entries list, `letters` the dead-letter stream. */
  datatype State = State(
    messages: seq<Message>, next: nat, pending: set<nat>, acked: set<nat>,
    workers: seq<Worker>, letters: seq<nat>, executed: set<nat>, terminal: set<nat>)

  datatype Result = Executed | AlreadyTerminal | Failed

  datatype Action =
    | Enqueue(decodable: bool)
    | Start
    | Crash(w: nat)
    | Read(w: nat)
    | Claim(w: nat, ids: seq<nat>)
    | Check(w: nat, ok: bool)
    | Letter(w: nat, ok: bool)
    | Finish(w: nat, result: Result)
    | Ack(w: nat, ok: bool)

  const INIT := State([], 0, {}, {}, [], [], {}, {})

  predicate Distinct(ids: seq<nat>) {
    forall i, j :: 0 <= i < j < |ids| ==> ids[i] != ids[j]
  }

  function Go(s: State, w: nat, pc: Worker): State
    requires w < |s.workers|
  {
    s.(workers := s.workers[w := pc])
  }

  /** `XACK`: removes the pending entry if it is still there. */
  function Acknowledge(s: State, id: nat, ok: bool): State {
    if ok && id in s.pending then s.(pending := s.pending - {id}, acked := s.acked + {id}) else s
  }

  /** What a worker does with a message it is to execute: undecodable ones go to the dead letters. */
  function HandOver(s: State, w: nat, id: nat, m: Message): State
    requires w < |s.workers| && id < |s.messages|
  {
    if m.decodable then Go(s.(messages := s.messages[id := m]), w, Running(id)) else Go(s, w, LetterBad(id))
  }

  /** `XREADGROUP >`: the next entry, with delivery count 1. */
  function StepRead(s: State, w: nat): State
    requires w < |s.workers|
  {
    if !s.workers[w].Idle? || s.next >= |s.messages| then s
    else
      var id := s.next;
      var m := s.messages[id].(deliveries := 1);
      HandOver(s.(messages := s.messages[id := m], next := id + 1, pending := s.pending + {id}), w, id,
               m.(first := m.first + 1))
  }

  function Bump(messages: seq<Message>, ids: seq<nat>): seq<Message> {
    seq(|messages|, i requires 0 <= i < |messages| =>
      if i in ids then messages[i].(deliveries := messages[i].deliveries + 1) else messages[i])
  }

  predicate AllBelow(ids: seq<nat>, n: nat) {
    forall i :: 0 <= i < |ids| ==> ids[i] < n
  }

  function Claims(messages: seq<Message>, ids: seq<nat>): seq<Claimed>
    requires AllBelow(ids, |messages|)
  {
    seq(|ids|, i requires 0 <= i < |ids| => Claimed(ids[i], messages[ids[i]].deliveries))
  }

  predicate Claimable(s: State, ids: seq<nat>) {
    Distinct(ids) && AllBelow(ids, |s.messages|) && forall i :: 0 <= i < |ids| ==> ids[i] in s.pending
  }

  /** `XAUTOCLAIM`: some pending entries change owner and their delivery counts go up. */
  function StepClaim(s: State, w: nat, ids: seq<nat>): State
    requires w < |s.workers|
  {
    if !s.workers[w].Idle? || !Claimable(s, ids) then s
    else
      var messages := Bump(s.messages, ids);
      Go(s.(messages := messages), w, Checking(Claims(messages, ids)))
  }

  /** One round of the claim loop: query the pending entry's count and decide. A failed query and a
      missing entry both read as 0. */
  function StepCheck(maxDeliveries: nat, s: State, w: nat, ok: bool): State
    requires w < |s.workers|
  {
    if !s.workers[w].Checking? then s
    else
      var claims := s.workers[w].claims;
      if claims == [] || claims[0].id >= |s.messages| then Go(s, w, Idle)
      else
        var id, m := claims[0].id, s.messages[claims[0].id];
        var known := ok && id in s.pending;
        var count := if known then m.deliveries else 0;
        if maxDeliveries > 0 && count >= maxDeliveries then Go(s, w, Lettering(id, claims[1..]))
        else HandOver(s, w, id, if known then m.(seen := m.seen + 1) else m.(blind := m.blind + 1))
  }

  /** `XADD` to the dead-letter stream; its failure is ignored for an undecodable message. */
  function StepLetter(s: State, w: nat, ok: bool): State
    requires w < |s.workers|
  {
    match s.workers[w]
    case Lettering(id, rest) =>
      if ok then Go(s.(letters := s.letters + [id]), w, AckDead(id, rest)) else Go(s, w, Idle)
    case LetterBad(id) => Go(if ok then s.(letters := s.letters + [id]) else s, w, AckBad(id))
    case _ => s
  }

  function StepFinish(s: State, w: nat, result: Result): State
    requires w < |s.workers|
  {
    if !s.workers[w].Running? then s
    else
      var id := s.workers[w].id;
      match result
      case Executed => Go(s.(executed := s.executed + {id}), w, AckDone(id))
      case AlreadyTerminal => Go(s.(terminal := s.terminal + {id}), w, AckDone(id))
      case Failed => Go(s, w, Idle)
  }

  function StepAck(s: State, w: nat, ok: bool): State
    requires w < |s.workers|
  {
    match s.workers[w]
    case AckDead(id, rest) => Go(Acknowledge(s, id, ok), w, if ok && rest != [] then Checking(rest) else Idle)
    case AckBad(id) => Go(Acknowledge(s, id, ok), w, Idle)
    case AckDone(id) => Go(Acknowledge(s, id, ok), w, Idle)
    case _ => s
  }

  function Step(maxDeliveries: nat, s: State, a: Action): State {
    match a
    case Enqueue(decodable) => s.(messages := s.messages + [Message(decodable, 0, 0, 0, 0)])
    case Start => s.(workers := s.workers + [Idle])
    case Crash(w) => if w < |s.workers| then Go(s, w, Idle) else s
    case Read(w) => if w < |s.workers| then StepRead(s, w) else s
    case Claim(w, ids) => if w < |s.workers| then StepClaim(s, w, ids) else s
    case Check(w, ok) => if w < |s.workers| then StepCheck(maxDeliveries, s, w, ok) else s
    case Letter(w, ok) => if w < |s.workers| then StepLetter(s, w, ok) else s
    case Finish(w, result) => if w < |s.workers| then StepFinish(s, w, result) else s
    case Ack(w, ok) => if w < |s.workers| then StepAck(s, w, ok) else s
  }

  function Stepper(maxDeliveries: nat): (State, Action) -> State {
    (s: State, a: Action) => Step(maxDeliveries, s, a)
  }

  function Run(maxDeliveries: nat, s: State, actions: seq<Action>): State {
    Iterate(Stepper(maxDeliveries), s, actions)
  }

  // ---- no message is lost ----

  /** Why an acknowledged message was acknowledged. */
  predicate Accounted(s: State, id: nat)
    requires id < |s.messages|
  {
    id in s.executed || id in s.terminal || id in s.letters || !s.messages[id].decodable
  }

  predicate WorkerOk(s: State, w: Worker) {
    match w
    case AckDead(id, _) => id in s.letters
    case LetterBad(id) => id < |s.messages| && !s.messages[id].decodable
    case AckBad(id) => id < |s.messages| && !s.messages[id].decodable
    case AckDone(id) => id in s.executed || id in s.terminal
    case _ => true
  }

  ghost predicate Placed(s: State) {
    && s.next <= |s.messages|
    && s.pending !! s.acked
    && (forall id :: id in s.pending || id in s.acked <==> 0 <= id < s.next)
    && (forall id :: id in s.acked ==> id < |s.messages| && Accounted(s, id))
    && (forall i :: 0 <= i < |s.workers| ==> WorkerOk(s, s.workers[i]))
  }

  lemma PlacedTake(maxDeliveries: nat, s: State, a: Action)
    requires Placed(s) && (a.Read? || a.Claim? || a.Check?)
    ensures Placed(Step(maxDeliveries, s, a))
  {
  }

  lemma PlacedGrow(maxDeliveries: nat, s: State, a: Action)
    requires Placed(s) && (a.Enqueue? || a.Start?)
    ensures Placed(Step(maxDeliveries, s, a))
  {
  }

  lemma PlacedRest(maxDeliveries: nat, s: State, a: Action)
    requires Placed(s) && !(a.Read? || a.Claim? || a.Check?)
    ensures Placed(Step(maxDeliveries, s, a))
  {
    match a
    case Enqueue(_) => PlacedGrow(maxDeliveries, s, a);
    case Start => PlacedGrow(maxDeliveries, s, a);
    case Crash(_) =>
    case Letter(w, _) => assert w < |s.workers| ==> WorkerOk(s, s.workers[w]);
    case Finish(_, _) =>
    case Ack(w, _) => assert w < |s.workers| ==> WorkerOk(s, s.workers[w]);
  }

  lemma {:induction false} AlwaysPlaced(maxDeliveries: nat, actions: seq<Action>)
    ensures Placed(Run(maxDeliveries, INIT, actions))
  {
    if actions != [] {
      var n := |actions| - 1;
      AlwaysPlaced(maxDeliveries, actions[..n]);
      var s := Run(maxDeliveries, INIT, actions[..n]);
      if actions[n].Read? || actions[n].Claim? || actions[n].Check? {
        PlacedTake(maxDeliveries, s, actions[n]);
      } else {
        PlacedRest(maxDeliveries, s, actions[n]);
      }
    }
  }

  /** No lost run: whatever crashes or fails, every enqueued message is exactly one of undelivered, pending
      and acknowledged, and an acknowledged one was executed to return, found terminal when claimed,
      written to the dead letters, or undecodable. */
  lemma NoLostRun(maxDeliveries: nat, actions: seq<Action>, id: nat)
    requires id < |Run(maxDeliveries, INIT, actions).messages|
    ensures var s := Run(maxDeliveries, INIT, actions);
            && ((if id >= s.next then 1 else 0) + (if id in s.pending then 1 else 0)
                + (if id in s.acked then 1 else 0) == 1)
            && (id in s.acked ==> Accounted(s, id))
  {
    AlwaysPlaced(maxDeliveries, actions);
  }

  // ---- bounded redelivery ----

  function LiveAt(id: nat, max: nat): Claimed -> int {
    (c: Claimed) => if c.id == id && c.count < max then 1 else 0
  }

  function ClaimsOf(w: Worker): seq<Claimed> {
    match w
    case Checking(claims) => claims
    case Lettering(_, rest) => rest
    case AckDead(_, rest) => rest
    case _ => []
  }

  /** Claims of `id` a worker still has to decide on and that may yet be handed to execution. */
  function WorkerLiveAt(id: nat, max: nat): Worker -> int {
    (w: Worker) => Sum(ClaimsOf(w), LiveAt(id, max))
  }

  /** Hand-offs that `d` deliveries allow after the first. */
  function Budget(d: nat, max: nat): nat {
    var m := if d < max then d else if max > 0 then max - 1 else 0;
    if m > 0 then m - 1 else 0
  }

  predicate ClaimsOk(messages: seq<Message>, claims: seq<Claimed>) {
    forall i :: 0 <= i < |claims| ==>
      claims[i].id < |messages| && claims[i].count <= messages[claims[i].id].deliveries
  }

  /** Delivery counts start with the first delivery, and there is one first hand-off at most. */
  predicate CountOk(m: Message, delivered: bool) {
    m.first <= 1 && (if delivered then m.deliveries >= 1 else m.deliveries == m.first == 0)
  }

  ghost predicate Counts(s: State) {
    && s.next <= |s.messages|
    && (forall id :: id in s.pending ==> id < s.next)
    && (forall id :: 0 <= id < |s.messages| ==> CountOk(s.messages[id], id < s.next))
  }

  predicate ClaimsFine(s: State) {
    forall i :: 0 <= i < |s.workers| ==> ClaimsOk(s.messages, ClaimsOf(s.workers[i]))
  }

  /** The measure behind the bound: hand-offs made after a claim, and claims that may still become one,
      never outgrow what the entry's delivery count allows. */
  predicate WithinBudget(max: nat, s: State, id: nat)
    requires id < |s.messages|
  {
    s.messages[id].seen + Sum(s.workers, WorkerLiveAt(id, max)) <= Budget(s.messages[id].deliveries, max)
  }

  predicate Budgeted(max: nat, s: State) {
    forall id :: 0 <= id < |s.messages| ==> WithinBudget(max, s, id)
  }

  lemma LiveNonNegative(claims: seq<Claimed>, id: nat, max: nat)
    ensures 0 <= Sum(claims, LiveAt(id, max))
  {
    SumNonNegative(claims, LiveAt(id, max));
  }

  lemma {:induction false} SumFromHead(claims: seq<Claimed>, id: nat, max: nat)
    requires claims != []
    ensures Sum(claims, LiveAt(id, max)) == LiveAt(id, max)(claims[0]) + Sum(claims[1..], LiveAt(id, max))
  {
    var n := |claims| - 1;
    if n > 0 {
      SumFromHead(claims[..n], id, max);
      assert claims[1..][..n - 1] == claims[..n][1..];
    }
  }

  lemma {:induction false} SumAllZero<T>(xs: seq<T>, f: T -> int)
    requires forall x :: x in xs ==> f(x) == 0
    ensures Sum(xs, f) == 0
  {
    if xs != [] {
      SumAllZero(xs[..|xs| - 1], f);
    }
  }

  /** A claim adds one live claim of an entry at most, and only if its new count is below the maximum. */
  lemma {:induction false} NewClaims(messages: seq<Message>, ids: seq<nat>, id: nat, max: nat)
    requires Distinct(ids) && AllBelow(ids, |messages|) && id < |messages|
    ensures Sum(Claims(messages, ids), LiveAt(id, max))
            == if id in ids && messages[id].deliveries < max then 1 else 0
  {
    if ids != [] {
      var n := |ids| - 1;
      var front, last := ids[..n], Claimed(ids[n], messages[ids[n]].deliveries);
      NewClaims(messages, front, id, max);
      assert Claims(messages, ids) == Claims(messages, front) + [last];
      SumAppend(Claims(messages, front), last, LiveAt(id, max));
      LastClaim(ids, id);
    }
  }

  lemma LastClaim(ids: seq<nat>, id: nat)
    requires ids != [] && Distinct(ids)
    ensures id in ids <==> id in ids[..|ids| - 1] || id == ids[|ids| - 1]
    ensures ids[|ids| - 1] !in ids[..|ids| - 1]
  {
    assert ids == ids[..|ids| - 1] + [ids[|ids| - 1]];
  }

  // Claims stay covered by delivery counts: counts never go down, and only worker w's claims change.
  lemma ClaimsKept(s: State, t: State, w: nat)
    requires ClaimsFine(s) && w < |s.workers| == |t.workers| && t.workers == s.workers[w := t.workers[w]]
    requires |s.messages| == |t.messages|
    requires forall id :: 0 <= id < |s.messages| ==> s.messages[id].deliveries <= t.messages[id].deliveries
    requires ClaimsOk(t.messages, ClaimsOf(t.workers[w]))
    ensures ClaimsFine(t)
  {
    forall i | 0 <= i < |t.workers| ensures ClaimsOk(t.messages, ClaimsOf(t.workers[i])) {
      assert ClaimsOk(s.messages, ClaimsOf(s.workers[i]));
    }
  }

  predicate Narrower(to: Worker, from: Worker) {
    || ClaimsOf(to) == []
    || ClaimsOf(to) == ClaimsOf(from)
    || (ClaimsOf(from) != [] && ClaimsOf(to) == ClaimsOf(from)[1..])
  }

  lemma NarrowerLive(to: Worker, from: Worker, id: nat, max: nat)
    requires Narrower(to, from)
    ensures WorkerLiveAt(id, max)(to) <= WorkerLiveAt(id, max)(from)
  {
    LiveNonNegative(ClaimsOf(from), id, max);
    if ClaimsOf(from) != [] {
      SumFromHead(ClaimsOf(from), id, max);
    }
  }

  // Steps that hand nothing over after a claim only drop or keep the worker's claims.
  lemma BudgetKept(max: nat, s: State, t: State, w: nat, id: nat)
    requires w < |s.workers| == |t.workers| && t.workers == s.workers[w := t.workers[w]]
    requires id < |s.messages| == |t.messages|
    requires Narrower(t.workers[w], s.workers[w]) && WithinBudget(max, s, id)
    requires t.messages[id].seen == s.messages[id].seen
    requires Budget(s.messages[id].deliveries, max) <= Budget(t.messages[id].deliveries, max)
    ensures WithinBudget(max, t, id)
  {
    SumUpdate(s.workers, w, t.workers[w], WorkerLiveAt(id, max));
    NarrowerLive(t.workers[w], s.workers[w], id, max);
  }

  ghost predicate Counted(max: nat, s: State) {
    Counts(s) && ClaimsFine(s) && Budgeted(max, s)
  }

  // Crash, Letter, Finish and Ack touch no message.
  lemma QuietStep(max: nat, s: State, a: Action)
    requires (a.Crash? || a.Letter? || a.Finish? || a.Ack?) && a.w < |s.workers|
    ensures var t := Step(max, s, a);
            && t.messages == s.messages && t.next == s.next && t.pending <= s.pending
            && |t.workers| == |s.workers| && t.workers == s.workers[a.w := t.workers[a.w]]
            && Narrower(t.workers[a.w], s.workers[a.w])
  {
  }

  lemma QuietCounted(max: nat, s: State, a: Action)
    requires Counted(max, s) && (a.Crash? || a.Letter? || a.Finish? || a.Ack?) && a.w < |s.workers|
    ensures Counted(max, Step(max, s, a))
  {
    var t := Step(max, s, a);
    QuietStep(max, s, a);
    NarrowerClaims(s, t.workers[a.w], a.w);
    ClaimsKept(s, t, a.w);
    forall id | 0 <= id < |t.messages| ensures WithinBudget(max, t, id) {
      assert WithinBudget(max, s, id);
      BudgetKept(max, s, t, a.w, id);
    }
  }

  lemma NarrowerClaims(s: State, to: Worker, w: nat)
    requires ClaimsFine(s) && w < |s.workers| && Narrower(to, s.workers[w])
    ensures ClaimsOk(s.messages, ClaimsOf(to))
  {
    assert ClaimsOk(s.messages, ClaimsOf(s.workers[w]));
  }

  // The first delivery takes the entry's count from 0 to 1 and allows no further hand-off yet.
  lemma ReadStep(s: State, w: nat)
    requires Counts(s) && w < |s.workers| && s.workers[w].Idle? && s.next < |s.messages|
    ensures var t := StepRead(s, w);
            && |t.messages| == |s.messages| && |t.workers| == |s.workers|
            && t.workers == s.workers[w := t.workers[w]] && ClaimsOf(t.workers[w]) == []
            && t.next == s.next + 1 && t.pending == s.pending + {s.next}
            && t.messages == s.messages[s.next := t.messages[s.next]]
            && CountOk(t.messages[s.next], true) && t.messages[s.next].deliveries == 1
            && t.messages[s.next].seen == s.messages[s.next].seen
  {
    assert CountOk(s.messages[s.next], false);
  }

  lemma ReadCounted(max: nat, s: State, w: nat)
    requires Counted(max, s) && w < |s.workers| && s.workers[w].Idle? && s.next < |s.messages|
    ensures Counted(max, StepRead(s, w))
  {
    var t := StepRead(s, w);
    ReadStep(s, w);
    assert CountOk(s.messages[s.next], false);
    ClaimsKept(s, t, w);
    forall id | 0 <= id < |t.messages| ensures WithinBudget(max, t, id) {
      assert WithinBudget(max, s, id);
      BudgetKept(max, s, t, w, id);
    }
    forall id | 0 <= id < |t.messages| ensures CountOk(t.messages[id], id < t.next) {
      assert CountOk(s.messages[id], id < s.next);
    }
  }

  // A claim raises the count of each of its entries by one.
  lemma ClaimStep(s: State, w: nat, ids: seq<nat>)
    requires w < |s.workers| && s.workers[w].Idle? && Claimable(s, ids)
    ensures var t := StepClaim(s, w, ids);
            && t.messages == Bump(s.messages, ids) && t.next == s.next && t.pending == s.pending
            && AllBelow(ids, |t.messages|)
            && t.workers == s.workers[w := Checking(Claims(t.messages, ids))]
  {
  }

  lemma ClaimBudget(max: nat, s: State, w: nat, ids: seq<nat>, id: nat)
    requires Counts(s) && w < |s.workers| && s.workers[w].Idle? && Claimable(s, ids) && id < |s.messages|
    requires WithinBudget(max, s, id)
    ensures id < |StepClaim(s, w, ids).messages| && WithinBudget(max, StepClaim(s, w, ids), id)
  {
    var t := StepClaim(s, w, ids);
    ClaimStep(s, w, ids);
    NewClaims(t.messages, ids, id, max);
    SumUpdate(s.workers, w, t.workers[w], WorkerLiveAt(id, max));
    assert CountOk(s.messages[id], id < s.next);
    assert id in ids ==> id in s.pending;
  }

  lemma ClaimCounted(max: nat, s: State, w: nat, ids: seq<nat>)
    requires Counted(max, s) && w < |s.workers| && s.workers[w].Idle? && Claimable(s, ids)
    ensures Counted(max, StepClaim(s, w, ids))
  {
    var t := StepClaim(s, w, ids);
    ClaimStep(s, w, ids);
    ClaimsKept(s, t, w);
    forall id | 0 <= id < |t.messages| ensures WithinBudget(max, t, id) {
      assert WithinBudget(max, s, id);
      ClaimBudget(max, s, w, ids, id);
    }
    forall id | 0 <= id < |t.messages| ensures CountOk(t.messages[id], id < t.next) {
      assert CountOk(s.messages[id], id < s.next);
      assert id in ids ==> id in s.pending;
    }
  }

  // A check decides on the first claim: it hands over at most that one, and a counted hand-off uses it up.
  lemma CheckStep(max: nat, s: State, w: nat, ok: bool)
    requires max > 0 && w < |s.workers| && s.workers[w].Checking?
    ensures var t := StepCheck(max, s, w, ok);
            && t.next == s.next && t.pending == s.pending && |t.messages| == |s.messages|
            && |t.workers| == |s.workers| && t.workers == s.workers[w := t.workers[w]]
            && Narrower(t.workers[w], s.workers[w])
            && forall id :: 0 <= id < |s.messages| ==>
                 && t.messages[id].deliveries == s.messages[id].deliveries
                 && t.messages[id].first == s.messages[id].first
                 && (t.messages[id].seen == s.messages[id].seen || UsedUp(max, s, t, w, id))
  {
  }

  predicate UsedUp(max: nat, s: State, t: State, w: nat, id: nat)
    requires w < |s.workers| == |t.workers| && id < |s.messages| == |t.messages|
  {
    && t.messages[id].seen == s.messages[id].seen + 1
    && s.messages[id].deliveries < max
    && s.workers[w].Checking? && s.workers[w].claims != [] && s.workers[w].claims[0].id == id
    && ClaimsOf(t.workers[w]) == []
  }

  lemma CheckBudget(max: nat, s: State, t: State, w: nat, id: nat)
    requires ClaimsFine(s) && w < |s.workers| == |t.workers| && t.workers == s.workers[w := t.workers[w]]
    requires id < |s.messages| == |t.messages| && WithinBudget(max, s, id) && UsedUp(max, s, t, w, id)
    requires t.messages[id].deliveries == s.messages[id].deliveries
    ensures WithinBudget(max, t, id)
  {
    var claims := s.workers[w].claims;
    assert ClaimsOk(s.messages, ClaimsOf(s.workers[w]));
    assert claims[0].count < max;
    SumFromHead(claims, id, max);
    LiveNonNegative(claims[1..], id, max);
    SumUpdate(s.workers, w, t.workers[w], WorkerLiveAt(id, max));
  }

  lemma CheckCounted(max: nat, s: State, w: nat, ok: bool)
    requires max > 0 && Counted(max, s) && w < |s.workers| && s.workers[w].Checking?
    ensures Counted(max, StepCheck(max, s, w, ok))
  {
    var t := StepCheck(max, s, w, ok);
    CheckStep(max, s, w, ok);
    NarrowerClaims(s, t.workers[w], w);
    ClaimsKept(s, t, w);
    forall id | 0 <= id < |t.messages| ensures WithinBudget(max, t, id) {
      assert WithinBudget(max, s, id);
      if t.messages[id].seen == s.messages[id].seen {
        BudgetKept(max, s, t, w, id);
      } else {
        CheckBudget(max, s, t, w, id);
      }
    }
    forall id | 0 <= id < |t.messages| ensures CountOk(t.messages[id], id < t.next) {
      assert CountOk(s.messages[id], id < s.next);
    }
  }

  lemma GrowBudget(max: nat, s: State, a: Action, id: nat)
    requires Counted(max, s) && (a.Enqueue? || a.Start?) && id < |Step(max, s, a).messages|
    ensures WithinBudget(max, Step(max, s, a), id)
  {
    SumAppend(s.workers, Idle, WorkerLiveAt(id, max));
    if id < |s.messages| {
      assert WithinBudget(max, s, id);
    } else {
      NoClaimsYet(max, s, id);
    }
  }

  lemma GrowCounted(max: nat, s: State, a: Action)
    requires Counted(max, s) && (a.Enqueue? || a.Start?)
    ensures Counted(max, Step(max, s, a))
  {
    var t := Step(max, s, a);
    forall id | 0 <= id < |t.messages| ensures WithinBudget(max, t, id) {
      GrowBudget(max, s, a, id);
    }
    forall i | 0 <= i < |t.workers| ensures ClaimsOk(t.messages, ClaimsOf(t.workers[i])) {
      assert i < |s.workers| ==> ClaimsOk(s.messages, ClaimsOf(s.workers[i]));
    }
    forall id | 0 <= id < |t.messages| ensures CountOk(t.messages[id], id < t.next) {
      assert id < |s.messages| ==> CountOk(s.messages[id], id < s.next);
    }
  }

  lemma NoClaimsYet(max: nat, s: State, id: nat)
    requires ClaimsFine(s) && id >= |s.messages|
    ensures Sum(s.workers, WorkerLiveAt(id, max)) == 0
  {
    forall w | w in s.workers ensures WorkerLiveAt(id, max)(w) == 0 {
      assert ClaimsOk(s.messages, ClaimsOf(w));
      SumAllZero(ClaimsOf(w), LiveAt(id, max));
    }
    SumAllZero(s.workers, WorkerLiveAt(id, max));
  }

  lemma StepCounted(max: nat, s: State, a: Action)
    requires max > 0 && Counted(max, s)
    ensures Counted(max, Step(max, s, a))
  {
    match a
    case Enqueue(_) => GrowCounted(max, s, a);
    case Start => GrowCounted(max, s, a);
    case Read(w) => if w < |s.workers| && s.workers[w].Idle? && s.next < |s.messages| { ReadCounted(max, s, w); }
    case Claim(w, ids) =>
      if w < |s.workers| && s.workers[w].Idle? && Claimable(s, ids) { ClaimCounted(max, s, w, ids); }
    case Check(w, ok) => if w < |s.workers| && s.workers[w].Checking? { CheckCounted(max, s, w, ok); }
    case Crash(w) => if w < |s.workers| { QuietCounted(max, s, a); }
    case Letter(w, _) => if w < |s.workers| { QuietCounted(max, s, a); }
    case Finish(w, _) => if w < |s.workers| { QuietCounted(max, s, a); }
    case Ack(w, _) => if w < |s.workers| { QuietCounted(max, s, a); }
  }

  lemma {:induction false} AlwaysCounted(max: nat, actions: seq<Action>)
    requires max > 0
    ensures Counted(max, Run(max, INIT, actions))
  {
    if actions != [] {
      var n := |actions| - 1;
      AlwaysCounted(max, actions[..n]);
      StepCounted(max, Run(max, INIT, actions[..n]), actions[n]);
    }
  }

  function HandedOver(m: Message): nat {
    m.first + m.seen + m.blind
  }

  function Limit(max: nat): nat {
    if max > 2 then max - 1 else 1
  }

  /** Bounded redelivery: a message is handed to execution at most max(1, maxDeliveries - 1) times, plus once for
      every claim whose count query failed or no longer found the entry. */
  lemma BoundedRedelivery(max: nat, actions: seq<Action>, id: nat)
    requires max > 0 && id < |Run(max, INIT, actions).messages|
    ensures var m := Run(max, INIT, actions).messages[id];
            HandedOver(m) <= Limit(max) + m.blind
  {
    AlwaysCounted(max, actions);
    var s := Run(max, INIT, actions);
    assert WithinBudget(max, s, id);
    assert CountOk(s.messages[id], id < s.next);
    forall w | w in s.workers ensures 0 <= WorkerLiveAt(id, max)(w) {
      LiveNonNegative(ClaimsOf(w), id, max);
    }
    SumNonNegative(s.workers, WorkerLiveAt(id, max));
  }

  function HandOffs(): Message -> int {
    (m: Message) => HandedOver(m)
  }

  function BlindHandOffs(): Message -> int {
    (m: Message) => m.blind
  }

  function Allowance(max: nat): Message -> int {
    (m: Message) => Limit(max) + m.blind
  }

  lemma {:induction false} SumAllowance(messages: seq<Message>, max: nat)
    ensures Sum(messages, Allowance(max)) == Limit(max) * |messages| + Sum(messages, BlindHandOffs())
  {
    if messages != [] {
      SumAllowance(messages[..|messages| - 1], max);
    }
  }

  /** All redelivery together ends: with counts known, n messages are handed over n times the limit at most,
      however many workers crash and however often they claim. */
  lemma TotalRedelivery(max: nat, actions: seq<Action>)
    requires max > 0
    ensures var messages := Run(max, INIT, actions).messages;
            Sum(messages, HandOffs()) <= Limit(max) * |messages| + Sum(messages, BlindHandOffs())
  {
    var messages := Run(max, INIT, actions).messages;
    forall m | m in messages ensures HandOffs()(m) <= Allowance(max)(m) {
      var id: nat :| id < |messages| && messages[id] == m;
      BoundedRedelivery(max, actions, id);
    }
    SumMonotone(messages, HandOffs(), Allowance(max));
    SumAllowance(messages, max);
  }
}

/** End-to-end delivery of a run's events: the log, the local subscription with its bounded channel,
  the fanout, the two replays of `runEvents`, the wire, and a client that reconnects and drops what it
  has seen. An event stands for its sequence number; the log holds 1 to `length`. */
module EventDelivery {
  import opened Common
  import opened EventFanout

  datatype Phase = Connected | Replayed | Subscribed | Merging | Live

  /** Event `taken` was forwarded although `missing`, before it, had been neither forwarded nor written. */
  datatype Jump = Jump(missing: nat, taken: nat)

  /** One SSE connection, to a replica where the run's events are appended (`feed`) or to another one.
      `local` is the repository's channel to this subscriber, which last sent event `fed`; `fan.out` is what
      the fanout has forwarded and the handler not yet read, `wire` what was written and not yet received. A
      `direct` connection reads the local channel without a fanout. `jump` records its first jump. */
  datatype Conn = Conn(phase: Phase, afterSeq: nat, wire: seq<nat>, feed: bool, local: seq<nat>, fed: nat,
                       direct: bool, fan: Fan, jump: Option<Jump>)

  /** The browser: last number seen, what was applied, and the two resume points of its EventSource. `lost`
      records the first jump whose event it received. */
  datatype Client = Client(lastSeq: nat, applied: seq<nat>, urlAfter: nat, lastEventId: nat, open: bool,
                           lost: Option<Jump>)

  /** `capacity` bounds the local channel; an append that finds it full is not sent. */
  datatype State = State(capacity: nat, length: nat, conn: Option<Conn>, client: Client)

  datatype Action =
    | Append
    | Open(feed: bool)
    | Reconnect(feed: bool)
    | Disconnect
    | Advance(busUp: bool)
    | TakeLocal
    | TakeNudge(upTo: int)
    | Serve
    | Deliver

  function Init(capacity: nat): State {
    State(capacity, 0, None, Client(0, [], 0, 0, false, None))
  }

  function NewConn(afterSeq: nat, feed: bool): Conn {
    Conn(Connected, afterSeq, [], feed, [], 0, false, Fan(0, []), None)
  }

  predicate Listening(c: Conn) {
    c.feed && c.phase !in {Connected, Replayed}
  }

  function StepAppend(s: State): State {
    var n := s.length + 1;
    if s.conn.None? || !Listening(s.conn.value) || |s.conn.value.local| >= s.capacity then s.(length := n)
    else s.(length := n, conn := Some(s.conn.value.(local := s.conn.value.local + [n], fed := n)))
  }

  /** `openEvents`: a new EventSource that resumes after the last number seen. */
  function StepOpen(s: State, feed: bool): State {
    s.(conn := Some(NewConn(s.client.lastSeq, feed)),
       client := s.client.(urlAfter := s.client.lastSeq, lastEventId := 0, open := true))
  }

  /** The browser reconnects to the same URL; `after` wins over the Last-Event-ID header. */
  function StepReconnect(s: State, feed: bool): State {
    if s.conn.Some? || !s.client.open then s
    else s.(conn := Some(NewConn(if s.client.urlAfter > 0 then s.client.urlAfter else s.client.lastEventId, feed)))
  }

  /** The part of the log a replay writes. */
  function ReplayFrom(afterSeq: nat, length: nat): seq<nat> {
    if afterSeq < length then Range(afterSeq, length) else []
  }

  function Max(a: nat, b: nat): nat {
    if a < b then b else a
  }

  function Min(a: nat, b: nat): nat {
    if a < b then a else b
  }

  /** One replay: everything in the log beyond what was written. */
  function Replay(c: Conn, length: nat): Conn {
    c.(wire := c.wire + ReplayFrom(c.afterSeq, length), afterSeq := Max(c.afterSeq, length))
  }

  /** The handler's own progress: replay, subscribe, start the fanout, replay again, go live. */
  function Progress(c: Conn, length: nat, busUp: bool): Conn {
    match c.phase
    case Connected => Replay(c, length).(phase := Replayed)
    case Replayed => c.(phase := Subscribed, fed := length, fan := Fan(length, []))
    case Subscribed => c.(phase := Merging, direct := !busUp, fan := Fan(if busUp then length else c.fan.lastSeq, []))
    case Merging => Replay(c, length).(phase := Live)
    case Live => c
  }

  predicate Fanning(c: Conn) {
    c.phase in {Merging, Live}
  }

  /** The next local event leaves out one that was neither forwarded nor written. Before the connection is
      live this does no harm, as the second replay is still to come. */
  predicate Jumping(c: Conn) {
    c.phase.Live? && c.local != [] && c.local[0] > Max(c.fan.lastSeq, c.afterSeq) + 1
  }

  function Noted(c: Conn): Option<Jump> {
    if c.jump.None? && Jumping(c) then Some(Jump(Max(c.fan.lastSeq, c.afterSeq) + 1, c.local[0])) else c.jump
  }

  function FanLocal(c: Conn): Conn {
    if !Fanning(c) || c.local == [] then c
    else
      var e := c.local[0];
      var fan := if c.direct then Fan(e, c.fan.out + [e]) else FanStep(c.fan, Local(e));
      c.(local := c.local[1..], fan := fan, jump := Noted(c))
  }

  function FanNudge(c: Conn, upTo: int, length: nat): Conn {
    if !Fanning(c) || c.direct then c else c.(fan := FanStep(c.fan, Nudge(upTo, length)))
  }

  function ServeNext(c: Conn): Conn {
    if c.phase != Live || c.fan.out == [] then c
    else
      var e, rest := c.fan.out[0], c.fan.(out := c.fan.out[1..]);
      if e > c.afterSeq then c.(fan := rest, wire := c.wire + [e], afterSeq := e) else c.(fan := rest)
  }

  /** `markRunEventSeen` and what follows it. */
  function Receive(client: Client, e: nat): Client {
    if e <= client.lastSeq then client.(lastEventId := e)
    else client.(lastEventId := e, lastSeq := e, applied := client.applied + [e])
  }

  /** The event at the head of the wire is received; so is, with it, a jump on this connection. */
  function StepDeliver(s: State): State {
    if s.conn.None? || s.conn.value.wire == [] then s
    else
      var c := s.conn.value;
      var e := c.wire[0];
      var lost := if s.client.lost.None? && c.jump.Some? && c.jump.value.taken == e then c.jump else s.client.lost;
      s.(conn := Some(c.(wire := c.wire[1..])), client := Receive(s.client, e).(lost := lost))
  }

  function Step(s: State, a: Action): State {
    match a
    case Append => StepAppend(s)
    case Open(feed) => StepOpen(s, feed)
    case Reconnect(feed) => StepReconnect(s, feed)
    case Disconnect => s.(conn := None)
    case Advance(busUp) =>
      if s.conn.None? then s else s.(conn := Some(Progress(s.conn.value, s.length, busUp)))
    case TakeLocal => if s.conn.None? then s else s.(conn := Some(FanLocal(s.conn.value)))
    case TakeNudge(upTo) => if s.conn.None? then s else s.(conn := Some(FanNudge(s.conn.value, upTo, s.length)))
    case Serve => if s.conn.None? then s else s.(conn := Some(ServeNext(s.conn.value)))
    case Deliver => StepDeliver(s)
  }

  function Run(s: State, actions: seq<Action>): State {
    Iterate(Step, s, actions)
  }

  // ---- the invariant: up to a jump, every queue holds all that is still to come ----

  predicate Sorted(q: seq<nat>) {
    forall i, j :: 0 <= i < j < |q| ==> q[i] < q[j]
  }

  predicate UpTo(q: seq<nat>, top: nat) {
    forall i :: 0 <= i < |q| ==> q[i] <= top
  }

  predicate Above(q: seq<nat>, floor: nat) {
    forall i :: 0 <= i < |q| ==> floor < q[i]
  }

  /** All numbers after `lo` up to `hi` are in the queue. */
  predicate Covers(q: seq<nat>, lo: nat, hi: nat) {
    forall n :: lo < n <= hi ==> n in q
  }

  /** Nothing between a jump's missing event and the one taken instead. */
  predicate Avoids(q: seq<nat>, j: Jump) {
    forall i :: 0 <= i < |q| ==> q[i] < j.missing || j.taken <= q[i]
  }

  /** How far up to `top` the connection is complete. */
  function Complete(c: Conn, top: nat): nat {
    if c.jump.None? || c.jump.value.missing == 0 then top else Min(top, c.jump.value.missing - 1)
  }

  predicate QueuesOk(c: Conn, length: nat) {
    && c.afterSeq <= length
    && Sorted(c.wire) && UpTo(c.wire, c.afterSeq)
    && Sorted(c.local) && UpTo(c.local, length) && (!Listening(c) ==> c.local == [])
    && Sorted(c.fan.out) && UpTo(c.fan.out, c.fan.lastSeq) && c.fan.lastSeq <= length
    && (c.phase in {Connected, Replayed, Subscribed} ==> c.fan.out == [])
    && (c.phase.Subscribed? || (Fanning(c) && c.direct) ==> Above(c.local, c.fan.lastSeq))
  }

  /** The event taken is on its way: not yet written, or written and not yet received. */
  predicate JumpOk(c: Conn, j: Jump) {
    && c.phase.Live? && 0 < j.missing < j.taken <= c.fan.lastSeq
    && Avoids(c.fan.out, j) && Avoids(c.wire, j)
    && (if c.afterSeq < j.missing then j.taken in c.fan.out else j.taken <= c.afterSeq && j.taken in c.wire)
  }

  predicate ConnOk(s: State, c: Conn) {
    && QueuesOk(c, s.length)
    && (if c.phase.Connected? then c.afterSeq <= s.client.lastSeq else s.client.lastSeq <= c.afterSeq)
    && Covers(c.wire, s.client.lastSeq, Complete(c, c.afterSeq))
    && (c.phase.Live? ==> Covers(c.fan.out, c.afterSeq, Complete(c, c.fan.lastSeq)))
    && (c.jump.Some? ==> JumpOk(c, c.jump.value) && s.client.lastSeq < c.jump.value.missing)
  }

  /** Whatever is lost, nothing is applied twice or out of order. */
  predicate ClientOk(s: State) {
    && s.client.lastSeq <= s.length && s.client.urlAfter <= s.client.lastSeq && s.client.lastEventId <= s.client.lastSeq
    && Sorted(s.client.applied) && UpTo(s.client.applied, s.client.lastSeq)
  }

  predicate GapFree(s: State) {
    s.client.applied == Range(0, s.client.lastSeq)
  }

  predicate LostOk(client: Client) {
    client.lost.Some? ==> 0 < client.lost.value.missing < client.lastSeq && client.lost.value.missing !in client.applied
  }

  predicate Inv(s: State) {
    && ClientOk(s) && LostOk(s.client)
    && (s.conn.Some? ==> QueuesOk(s.conn.value, s.length))
    && (s.client.lost.None? ==> GapFree(s) && (s.conn.Some? ==> ConnOk(s, s.conn.value)))
  }

  lemma RangeSorted(a: nat, b: nat)
    requires a <= b
    ensures Sorted(Range(a, b)) && UpTo(Range(a, b), b) && Above(Range(a, b), a) && Covers(Range(a, b), a, b)
  {
    forall n | a < n <= b ensures n in Range(a, b) {
      assert Range(a, b)[n - a - 1] == n;
    }
  }

  /** A queue grows by later numbers. */
  lemma QueueGrows(q: seq<nat>, top: nat, more: seq<nat>, next: nat)
    requires Sorted(q) && UpTo(q, top) && Sorted(more) && Above(more, top) && UpTo(more, next) && top <= next
    ensures Sorted(q + more) && UpTo(q + more, next)
  {
  }

  lemma CoversMore(q: seq<nat>, lo: nat, hi: nat, more: seq<nat>, mid: nat, top: nat)
    requires Covers(q, lo, hi) && Covers(more, mid, top) && mid <= hi
    ensures Covers(q + more, lo, top)
  {
    forall n | lo < n <= top ensures n in q + more {
      assert n in q || n in more;
    }
  }

  lemma CoversTail(q: seq<nat>, lo: nat, hi: nat, floor: nat)
    requires Covers(q, lo, hi) && q != [] && q[0] <= floor && lo <= floor
    ensures Covers(q[1..], floor, hi)
  {
    forall n | floor < n <= hi ensures n in q[1..] {
      assert n in q && n != q[0];
      assert q == [q[0]] + q[1..];
    }
  }

  /** The head of a queue that covers what follows `lo` is next, or nothing that follows `lo` is due. */
  lemma HeadIsNext(q: seq<nat>, lo: nat, hi: nat)
    requires Covers(q, lo, hi) && Sorted(q) && q != [] && lo < q[0] && lo + 1 <= hi
    ensures q[0] == lo + 1
  {
    assert lo + 1 in q;
    var i :| 0 <= i < |q| && q[i] == lo + 1;
  }

  lemma TailQueue(q: seq<nat>, top: nat)
    requires Sorted(q) && UpTo(q, top) && q != []
    ensures Sorted(q[1..]) && UpTo(q[1..], top) && Above(q[1..], q[0])
  {
  }

  // ---- appends ----

  lemma AppendQueues(c: Conn, length: nat)
    requires QueuesOk(c, length)
    ensures QueuesOk(c, length + 1)
    ensures Listening(c) ==> QueuesOk(c.(local := c.local + [length + 1], fed := length + 1), length + 1)
  {
    QueueGrows(c.local, length, [length + 1], length + 1);
  }

  /** The rest of a connection does not look at the channel or the log. */
  lemma AppendConn(s: State, t: State, c: Conn)
    requires s.conn.Some? && ConnOk(s, s.conn.value) && t.client == s.client
    requires c == s.conn.value.(local := c.local, fed := c.fed) && QueuesOk(c, t.length)
    ensures ConnOk(t, c)
  {
    assert Complete(c, c.afterSeq) == Complete(s.conn.value, c.afterSeq);
  }

  lemma AppendKeeps(s: State)
    requires Inv(s)
    ensures Inv(StepAppend(s))
  {
    if s.conn.Some? {
      var t := StepAppend(s);
      AppendQueues(s.conn.value, s.length);
      if s.client.lost.None? {
        AppendConn(s, t, t.conn.value);
      }
    }
  }

  // ---- replays and phases ----

  lemma ReplayQueues(c: Conn, length: nat)
    requires QueuesOk(c, length)
    ensures var d := Replay(c, length);
            && Sorted(d.wire) && UpTo(d.wire, d.afterSeq) && d.afterSeq == length
            && (forall lo :: Covers(c.wire, lo, c.afterSeq) ==> Covers(d.wire, lo, d.afterSeq))
  {
    var d := Replay(c, length);
    if c.afterSeq < length {
      RangeSorted(c.afterSeq, length);
      QueueGrows(c.wire, c.afterSeq, Range(c.afterSeq, length), length);
      forall lo | Covers(c.wire, lo, c.afterSeq) ensures Covers(d.wire, lo, d.afterSeq) {
        CoversMore(c.wire, lo, c.afterSeq, Range(c.afterSeq, length), c.afterSeq, length);
      }
    } else {
      assert d.wire == c.wire;
    }
  }

  lemma ProgressQueues(c: Conn, length: nat, busUp: bool)
    requires QueuesOk(c, length)
    ensures QueuesOk(Progress(c, length, busUp), length)
  {
    ReplayQueues(c, length);
  }

  lemma ProgressKeeps(s: State, busUp: bool)
    requires Inv(s) && s.conn.Some?
    ensures Inv(Step(s, Advance(busUp)))
  {
    var c := s.conn.value;
    ProgressQueues(c, s.length, busUp);
    ReplayQueues(c, s.length);
    if s.client.lost.None? && c.phase != Live {
      assert c.jump.None?;
      assert Covers(c.wire, s.client.lastSeq, c.afterSeq);
    }
  }

  // ---- the fanout ----

  lemma LocalQueues(c: Conn, length: nat)
    requires QueuesOk(c, length)
    ensures QueuesOk(FanLocal(c), length)
  {
    if Fanning(c) && c.local != [] {
      TailQueue(c.local, length);
      if c.direct || c.local[0] > c.fan.lastSeq {
        QueueGrows(c.fan.out, c.fan.lastSeq, [c.local[0]], c.local[0]);
      }
    }
  }

  lemma LocalKeeps(s: State)
    requires Inv(s) && s.conn.Some?
    ensures Inv(Step(s, TakeLocal))
  {
    var c := s.conn.value;
    LocalQueues(c, s.length);
    if s.client.lost.None? && Fanning(c) && c.local != [] && (c.direct || c.local[0] > c.fan.lastSeq) {
      ForwardCovers(c);
      if Jumping(c) && c.jump.None? {
        NewJump(c);
      } else if c.jump.Some? {
        OldJump(c, c.jump.value);
      }
    }
  }

  lemma ForwardCovers(c: Conn)
    requires Sorted(c.fan.out) && UpTo(c.fan.out, c.fan.lastSeq)
    requires Fanning(c) && c.local != [] && c.local[0] > c.fan.lastSeq
    requires c.phase.Live? ==> Covers(c.fan.out, c.afterSeq, Complete(c, c.fan.lastSeq))
    requires c.jump.Some? ==> JumpOk(c, c.jump.value)
    ensures var d := FanLocal(c); d.phase.Live? ==> Covers(d.fan.out, d.afterSeq, Complete(d, d.fan.lastSeq))
  {
    if c.phase.Live? {
      var d := FanLocal(c);
      var e := c.local[0];
      forall n | d.afterSeq < n <= Complete(d, d.fan.lastSeq) ensures n in d.fan.out {
        assert n <= Complete(c, c.fan.lastSeq) || n == e;
      }
    }
  }

  lemma NewJump(c: Conn)
    requires Sorted(c.fan.out) && UpTo(c.fan.out, c.fan.lastSeq) && UpTo(c.wire, c.afterSeq)
    requires Jumping(c) && c.jump.None?
    ensures JumpOk(FanLocal(c), FanLocal(c).jump.value)
  {
  }

  lemma OldJump(c: Conn, j: Jump)
    requires c.jump == Some(j) && JumpOk(c, j) && c.local != [] && c.local[0] > c.fan.lastSeq
    ensures JumpOk(FanLocal(c), j)
  {
  }

  lemma NudgeQueues(c: Conn, upTo: int, length: nat)
    requires QueuesOk(c, length)
    ensures QueuesOk(FanNudge(c, upTo, length), length)
  {
    RangeSorted(c.fan.lastSeq, length);
    QueueGrows(c.fan.out, c.fan.lastSeq, Range(c.fan.lastSeq, length), length);
  }

  lemma NudgeKeeps(s: State, upTo: int)
    requires Inv(s) && s.conn.Some?
    ensures Inv(Step(s, TakeNudge(upTo)))
  {
    var c := s.conn.value;
    NudgeQueues(c, upTo, s.length);
    RangeSorted(c.fan.lastSeq, s.length);
    if s.client.lost.None? && c.phase.Live? {
      NudgeCovers(c, s.length);
    }
  }

  lemma NudgeCovers(c: Conn, length: nat)
    requires c.fan.lastSeq <= length && Covers(c.fan.out, c.afterSeq, Complete(c, c.fan.lastSeq))
    requires c.jump.Some? ==> JumpOk(c, c.jump.value)
    ensures var out := c.fan.out + Range(c.fan.lastSeq, length);
            Covers(out, c.afterSeq, Complete(c, length)) && (c.jump.Some? ==> Avoids(out, c.jump.value))
  {
    RangeSorted(c.fan.lastSeq, length);
    if c.jump.None? {
      CoversMore(c.fan.out, c.afterSeq, c.fan.lastSeq, Range(c.fan.lastSeq, length), c.fan.lastSeq, length);
    } else {
      assert Complete(c, length) == Complete(c, c.fan.lastSeq);
    }
  }

  // ---- the handler and the wire ----

  lemma ServeQueues(c: Conn, length: nat)
    requires QueuesOk(c, length)
    ensures QueuesOk(ServeNext(c), length)
  {
    if c.phase.Live? && c.fan.out != [] {
      TailQueue(c.fan.out, c.fan.lastSeq);
      if c.fan.out[0] > c.afterSeq {
        QueueGrows(c.wire, c.afterSeq, [c.fan.out[0]], c.fan.out[0]);
      }
    }
  }

  lemma ServeKeeps(s: State)
    requires Inv(s) && s.conn.Some?
    ensures Inv(Step(s, Serve))
  {
    var c := s.conn.value;
    ServeQueues(c, s.length);
    if s.client.lost.None? && c.phase.Live? && c.fan.out != [] {
      ServeOut(c);
      if c.fan.out[0] > c.afterSeq {
        ServeWire(c, s.client.lastSeq);
      }
      if c.jump.Some? {
        ServeJump(c, c.jump.value);
      }
    }
  }

  lemma ServeOut(c: Conn)
    requires c.phase.Live? && c.fan.out != [] && Covers(c.fan.out, c.afterSeq, Complete(c, c.fan.lastSeq))
    ensures var d := ServeNext(c); Covers(d.fan.out, d.afterSeq, Complete(d, d.fan.lastSeq))
  {
    CoversTail(c.fan.out, c.afterSeq, Complete(c, c.fan.lastSeq), Max(c.afterSeq, c.fan.out[0]));
  }

  lemma ServeWire(c: Conn, lo: nat)
    requires c.phase.Live? && c.fan.out != [] && c.fan.out[0] > c.afterSeq
    requires Sorted(c.fan.out) && UpTo(c.fan.out, c.fan.lastSeq)
    requires Covers(c.fan.out, c.afterSeq, Complete(c, c.fan.lastSeq)) && Covers(c.wire, lo, Complete(c, c.afterSeq))
    ensures var d := ServeNext(c); Covers(d.wire, lo, Complete(d, d.afterSeq))
  {
    var d, e := ServeNext(c), c.fan.out[0];
    forall n | lo < n <= Complete(d, d.afterSeq) ensures n in d.wire {
      if n > c.afterSeq {
        assert n in c.fan.out;
        assert n >= e;
      } else {
        assert n in c.wire;
      }
    }
  }

  lemma ServeJump(c: Conn, j: Jump)
    requires c.jump == Some(j) && JumpOk(c, j) && c.fan.out != [] && Sorted(c.fan.out)
    ensures JumpOk(ServeNext(c), j)
  {
    assert c.fan.out == [c.fan.out[0]] + c.fan.out[1..];
  }

  lemma DeliverKeeps(s: State)
    requires Inv(s) && s.conn.Some? && s.conn.value.wire != []
    ensures Inv(StepDeliver(s))
  {
    var c, e := s.conn.value, s.conn.value.wire[0];
    TailQueue(c.wire, c.afterSeq);
    if e > s.client.lastSeq {
      QueueGrows(s.client.applied, s.client.lastSeq, [e], e);
    }
    if s.client.lost.None? {
      if c.jump.Some? && c.jump.value.taken == e {
        assert c.jump.value.missing !in Range(0, s.client.lastSeq);
      } else {
        DeliverNext(s, c);
      }
    }
  }

  lemma DeliverNext(s: State, c: Conn)
    requires Inv(s) && s.client.lost.None? && s.conn == Some(c) && c.wire != []
    requires c.jump.Some? ==> c.jump.value.taken != c.wire[0]
    ensures var t := StepDeliver(s); GapFree(t) && ConnOk(t, t.conn.value)
  {
    var e := c.wire[0];
    assert c.wire == [e] + c.wire[1..];
    TailQueue(c.wire, c.afterSeq);
    if c.jump.Some? {
      BeforeTheJump(c, c.jump.value);
    }
    if e > s.client.lastSeq {
      HeadIsNext(c.wire, s.client.lastSeq, Complete(c, c.afterSeq));
      assert Range(0, s.client.lastSeq) + [e] == Range(0, e);
    }
    CoversTail(c.wire, s.client.lastSeq, Complete(c, c.afterSeq), Max(s.client.lastSeq, e));
  }

  /** What is received before the event that jumped was missing nothing. */
  lemma BeforeTheJump(c: Conn, j: Jump)
    requires JumpOk(c, j) && Sorted(c.wire) && UpTo(c.wire, c.afterSeq) && c.wire != [] && c.wire[0] != j.taken
    ensures c.wire[0] < j.missing
  {
    if c.afterSeq >= j.missing {
      var i :| 0 <= i < |c.wire| && c.wire[i] == j.taken;
    }
  }

  lemma StepKeeps(s: State, a: Action)
    requires Inv(s)
    ensures Inv(Step(s, a))
  {
    match a
    case Append => AppendKeeps(s);
    case Open(_) =>
    case Reconnect(_) =>
    case Disconnect =>
    case Advance(busUp) => if s.conn.Some? { ProgressKeeps(s, busUp); }
    case TakeLocal => if s.conn.Some? { LocalKeeps(s); }
    case TakeNudge(upTo) => if s.conn.Some? { NudgeKeeps(s, upTo); }
    case Serve => if s.conn.Some? { ServeKeeps(s); }
    case Deliver => if s.conn.Some? && s.conn.value.wire != [] { DeliverKeeps(s); }
  }

  lemma {:induction false} Reachable(capacity: nat, actions: seq<Action>)
    ensures Inv(Run(Init(capacity), actions))
  {
    if actions != [] {
      Reachable(capacity, actions[..|actions| - 1]);
      StepKeeps(Run(Init(capacity), actions[..|actions| - 1]), actions[|actions| - 1]);
    }
  }

  // ---- exactly once ----

  /** In every run whatsoever: what the client has applied is in order and free of duplicates, and it is a
      gap-free prefix of the log exactly as long as the client has received no event that a live fanout took
      from its channel past a missing one. Overflows that a nudge, a replay or a reconnect repairs do no harm. */
  lemma ExactlyOnceIff(capacity: nat, actions: seq<Action>)
    ensures var s := Run(Init(capacity), actions);
            && s.client.lastSeq <= s.length && Sorted(s.client.applied) && UpTo(s.client.applied, s.client.lastSeq)
            && (GapFree(s) <==> s.client.lost.None?)
  {
    Reachable(capacity, actions);
    var client := Run(Init(capacity), actions).client;
    if client.lost.Some? {
      assert Range(0, client.lastSeq)[client.lost.value.missing - 1] == client.lost.value.missing;
    }
  }

  predicate JumpsAt(s: State, actions: seq<Action>, i: nat)
    requires i < |actions|
  {
    var t := Run(s, actions[..i]);
    actions[i].TakeLocal? && t.conn.Some? && Jumping(t.conn.value)
  }

  /** No live fanout is ever about to take an event past a missing one. */
  predicate NeverJumps(s: State, actions: seq<Action>) {
    forall i :: 0 <= i < |actions| ==> !JumpsAt(s, actions, i)
  }

  lemma {:induction false} NoJumpNoLoss(capacity: nat, actions: seq<Action>)
    requires NeverJumps(Init(capacity), actions)
    ensures var s := Run(Init(capacity), actions);
            s.client.lost.None? && (s.conn.Some? ==> s.conn.value.jump.None?)
  {
    if actions != [] {
      var front := actions[..|actions| - 1];
      forall i | 0 <= i < |front| ensures !JumpsAt(Init(capacity), front, i) {
        assert front[..i] == actions[..i];
        assert !JumpsAt(Init(capacity), actions, i);
      }
      NoJumpNoLoss(capacity, front);
      assert !JumpsAt(Init(capacity), actions, |front|);
    }
  }

  /** End-to-end exactly once: if no live fanout jumps, what the client has applied is a gap-free,
      duplicate-free prefix of the log in order, over any number of disconnects, reconnects, replicas and
      resume points, for any dropped events and any lost, repeated or spurious nudges. */
  lemma ExactlyOnce(capacity: nat, actions: seq<Action>)
    requires NeverJumps(Init(capacity), actions)
    ensures var s := Run(Init(capacity), actions);
            s.client.lastSeq <= s.length && s.client.applied == Range(0, s.client.lastSeq)
  {
    NoJumpNoLoss(capacity, actions);
    ExactlyOnceIff(capacity, actions);
  }

  // ---- nothing is left behind ----

  /** The channel's last event is the last one sent. */
  predicate FedOk(c: Conn, length: nat) {
    && c.fed <= length
    && (Listening(c) ==> if c.local == [] then c.fed <= c.fan.lastSeq else c.local[|c.local| - 1] == c.fed)
  }

  lemma FedStep(s: State, a: Action)
    requires Inv(s) && (s.conn.Some? ==> FedOk(s.conn.value, s.length))
    ensures var t := Step(s, a); t.conn.Some? ==> FedOk(t.conn.value, t.length)
  {
    if s.conn.Some? {
      var c := s.conn.value;
      match a
      case Append =>
      case Open(_) =>
      case Reconnect(_) =>
      case Disconnect =>
      case Advance(busUp) =>
      case TakeLocal => assert Fanning(c) && c.local != [] ==> |FanLocal(c).local| == |c.local| - 1;
      case TakeNudge(_) =>
      case Serve =>
      case Deliver =>
    }
  }

  lemma {:induction false} AlwaysFed(capacity: nat, actions: seq<Action>)
    ensures var s := Run(Init(capacity), actions); s.conn.Some? ==> FedOk(s.conn.value, s.length)
  {
    if actions != [] {
      AlwaysFed(capacity, actions[..|actions| - 1]);
      Reachable(capacity, actions[..|actions| - 1]);
      FedStep(Run(Init(capacity), actions[..|actions| - 1]), actions[|actions| - 1]);
    }
  }

  /** Nothing is under way between the fanout and the client. */
  predicate Drained(s: State) {
    s.conn.Some? && s.conn.value.phase.Live? && s.conn.value.wire == [] && s.conn.value.fan.out == []
  }

  lemma CoversSomething(q: seq<nat>, lo: nat, hi: nat)
    requires Covers(q, lo, hi)
    ensures hi <= lo || q != []
  {
    assert lo < hi ==> hi in q;
  }

  lemma DrainedKnows(s: State)
    requires Inv(s) && Drained(s) && s.client.lost.None?
    ensures s.conn.value.jump.None?
    ensures s.conn.value.fan.lastSeq <= s.conn.value.afterSeq == s.client.lastSeq
  {
    var c := s.conn.value;
    CoversSomething(c.wire, s.client.lastSeq, Complete(c, c.afterSeq));
    CoversSomething(c.fan.out, c.afterSeq, Complete(c, c.fan.lastSeq));
  }

  /** A live connection whose queues are drained, and that lost nothing, has brought the client up to what the
      fanout has seen, and up to the whole log if the channel was sent the last append. */
  lemma CaughtUp(capacity: nat, actions: seq<Action>)
    requires var s := Run(Init(capacity), actions); Drained(s) && s.client.lost.None?
    ensures var s := Run(Init(capacity), actions);
            && s.conn.value.fan.lastSeq <= s.client.lastSeq
            && (s.conn.value.feed && s.conn.value.local == [] && s.conn.value.fed == s.length ==>
                  s.client.applied == Range(0, s.length))
  {
    Reachable(capacity, actions);
    AlwaysFed(capacity, actions);
    DrainedKnows(Run(Init(capacity), actions));
  }

  /** The connection stays: neither the page nor the network ends it. */
  predicate Keeps(more: seq<Action>) {
    forall i :: 0 <= i < |more| ==> !more[i].Open? && !more[i].Disconnect?
  }

  /** How far a connection has got: what it forwarded or wrote. */
  function Reached(c: Conn): nat {
    Max(c.fan.lastSeq, c.afterSeq)
  }

  lemma StepReaches(s: State, a: Action)
    requires Inv(s) && s.conn.Some? && s.conn.value.phase.Live? && !a.Open? && !a.Disconnect?
    ensures var t := Step(s, a);
            && t.conn.Some? && t.conn.value.phase.Live? && Reached(s.conn.value) <= Reached(t.conn.value)
  {
    var c := s.conn.value;
    if a.TakeLocal? && c.local != [] && c.direct {
      assert Above(c.local, c.fan.lastSeq);
    }
  }

  lemma {:induction false} RunReaches(s: State, more: seq<Action>)
    requires Inv(s) && s.conn.Some? && s.conn.value.phase.Live? && Keeps(more)
    ensures var t := Run(s, more);
            && Inv(t) && t.conn.Some? && t.conn.value.phase.Live? && Reached(s.conn.value) <= Reached(t.conn.value)
  {
    if more != [] {
      var front := more[..|more| - 1];
      RunReaches(s, front);
      StepReaches(Run(s, front), more[|more| - 1]);
      StepKeeps(Run(s, front), more[|more| - 1]);
    }
  }

  /** Whatever reaches a connection reaches the client: a nudge for a logged event that a live fanout takes, at
      any replica; the next event of its channel; and everything in the log when the second replay runs. However
      the connection goes on, once its queues are drained a client that lost nothing is at least that far, with no
      event left out. */
  lemma GetsThrough(capacity: nat, actions: seq<Action>, a: Action, more: seq<Action>, upTo: nat)
    requires var s := Run(Init(capacity), actions);
             && s.conn.Some? && upTo <= s.length
             && (|| (a == TakeNudge(upTo) && s.conn.value.phase.Live? && !s.conn.value.direct)
                 || (a == TakeLocal && s.conn.value.phase.Live? && s.conn.value.local != []
                     && upTo == s.conn.value.local[0])
                 || (a.Advance? && s.conn.value.phase.Merging?))
             && Keeps(more) && Drained(Run(Step(s, a), more))
             && Run(Step(s, a), more).client.lost.None?
    ensures var t := Run(Step(Run(Init(capacity), actions), a), more);
            upTo <= t.client.lastSeq && t.client.applied == Range(0, t.client.lastSeq)
  {
    var s := Run(Init(capacity), actions);
    Reachable(capacity, actions);
    StepKeeps(s, a);
    RunReaches(Step(s, a), more);
    DrainedKnows(Run(Step(s, a), more));
  }

  /** And the queues of a live connection can always be drained, by the handler and the browser alone. */
  lemma Drains(s: State) returns (more: seq<Action>)
    requires s.conn.Some? && s.conn.value.phase.Live?
    ensures Drained(Run(s, more)) && forall i :: 0 <= i < |more| ==> more[i].Serve? || more[i].Deliver?
  {
    more := ServesAll(s);
    var rest := DeliversAll(Run(s, more));
    IterateConcat(Step, s, more, rest);
    more := more + rest;
  }

  lemma {:induction false} ServesAll(s: State) returns (more: seq<Action>)
    requires s.conn.Some? && s.conn.value.phase.Live?
    ensures forall i :: 0 <= i < |more| ==> more[i].Serve?
    ensures var t := Run(s, more);
            t.conn.Some? && t.conn.value.phase.Live? && t.conn.value.fan.out == []
    decreases |s.conn.value.fan.out|
  {
    more := [];
    if s.conn.value.fan.out != [] {
      var rest := ServesAll(Step(s, Serve));
      RunFirst(s, Serve, rest);
      more := [Serve] + rest;
    }
  }

  lemma {:induction false} DeliversAll(s: State) returns (more: seq<Action>)
    requires s.conn.Some? && s.conn.value.phase.Live? && s.conn.value.fan.out == []
    ensures Drained(Run(s, more)) && forall i :: 0 <= i < |more| ==> more[i].Deliver?
    decreases |s.conn.value.wire|
  {
    more := [];
    if s.conn.value.wire != [] {
      var rest := DeliversAll(Step(s, Deliver));
      RunFirst(s, Deliver, rest);
      more := [Deliver] + rest;
    }
  }

  lemma RunFirst(s: State, a: Action, rest: seq<Action>)
    ensures Run(s, [a] + rest) == Run(Step(s, a), rest)
  {
    IterateConcat(Step, s, [a], rest);
    IterateThen(Step, s, [], a);
    assert [] + [a] == [a];
  }

  // ---- nothing is sent again ----

  predicate OnlyAbove(s: State, start: nat) {
    s.conn.Some? && start <= s.conn.value.afterSeq && Above(s.conn.value.wire, start)
  }

  lemma StepOnlyAbove(s: State, a: Action, start: nat)
    requires OnlyAbove(s, start) && !a.Open? && !a.Disconnect?
    ensures OnlyAbove(Step(s, a), start)
  {
  }

  lemma {:induction false} RunOnlyAbove(s: State, more: seq<Action>, start: nat)
    requires OnlyAbove(s, start) && Keeps(more)
    ensures OnlyAbove(Run(s, more), start)
  {
    if more != [] {
      RunOnlyAbove(s, more[..|more| - 1], start);
      StepOnlyAbove(Run(s, more[..|more| - 1]), more[|more| - 1], start);
    }
  }

  /** A connection carries only events above its resume point: for a new EventSource all that its page has seen, and
      for one that the browser reconnects the `after` of its URL if that is positive, whatever Last-Event-ID says,
      and Last-Event-ID if not. */
  lemma NothingBefore(s: State, feed: bool, more: seq<Action>)
    requires Keeps(more)
    ensures OnlyAbove(Run(Step(s, Open(feed)), more), s.client.lastSeq)
    ensures s.conn.None? && s.client.open ==>
              var start := if s.client.urlAfter > 0 then s.client.urlAfter else s.client.lastEventId;
              Step(s, Reconnect(feed)).conn.value.afterSeq == start
              && OnlyAbove(Run(Step(s, Reconnect(feed)), more), start)
  {
    RunOnlyAbove(Step(s, Open(feed)), more, s.client.lastSeq);
    if s.conn.None? && s.client.open {
      var start := if s.client.urlAfter > 0 then s.client.urlAfter else s.client.lastEventId;
      RunOnlyAbove(Step(s, Reconnect(feed)), more, start);
    }
  }

  // ---- a jump decides ----

  predicate Stays(a: Action) {
    !a.Open? && !a.Disconnect? && !a.TakeLocal?
  }

  lemma {:induction false} JumpStays(s: State, more: seq<Action>)
    requires s.conn.Some? && s.conn.value.phase.Live? && forall i :: 0 <= i < |more| ==> Stays(more[i])
    ensures var t := Run(s, more); t.conn.Some? && t.conn.value.phase.Live? && t.conn.value.jump == s.conn.value.jump
  {
    if more != [] {
      JumpStays(s, more[..|more| - 1]);
    }
  }

  lemma {:induction false} RunKeeps(s: State, more: seq<Action>)
    requires Inv(s)
    ensures Inv(Run(s, more)) && (s.client.lost.Some? ==> Run(s, more).client.lost == s.client.lost)
  {
    if more != [] {
      RunKeeps(s, more[..|more| - 1]);
      StepKeeps(Run(s, more[..|more| - 1]), more[|more| - 1]);
    }
  }

  /** The guard is exact. When the fanout of a live, intact connection takes its next local event and what is
      under way then reaches the client, the client has a gap if and only if that event jumps. */
  lemma JumpDecides(capacity: nat, actions: seq<Action>, more: seq<Action>)
    requires var s := Run(Init(capacity), actions);
             && s.client.lost.None? && s.conn.Some? && s.conn.value.phase.Live? && s.conn.value.jump.None?
             && s.conn.value.local != []
             && (forall i :: 0 <= i < |more| ==> Stays(more[i])) && Drained(Run(Step(s, TakeLocal), more))
    ensures var s := Run(Init(capacity), actions);
            GapFree(Run(Step(s, TakeLocal), more)) <==> !Jumping(s.conn.value)
  {
    var s := Run(Init(capacity), actions);
    Reachable(capacity, actions);
    StepKeeps(s, TakeLocal);
    var t := Step(s, TakeLocal);
    JumpStays(t, more);
    RunKeeps(t, more);
    GapFreeIffNotLost(Run(t, more));
    if Run(t, more).client.lost.None? {
      DrainedKnows(Run(t, more));
    } else {
      LostByJump(t, more);
    }
  }

  lemma GapFreeIffNotLost(s: State)
    requires Inv(s)
    ensures GapFree(s) <==> s.client.lost.None?
  {
    if s.client.lost.Some? {
      assert Range(0, s.client.lastSeq)[s.client.lost.value.missing - 1] == s.client.lost.value.missing;
    }
  }

  lemma {:induction false} LostByJump(s: State, more: seq<Action>)
    requires s.client.lost.None? && s.conn.Some? && s.conn.value.phase.Live?
    requires (forall i :: 0 <= i < |more| ==> Stays(more[i])) && Run(s, more).client.lost.Some?
    ensures s.conn.value.jump.Some?
  {
    if more != [] {
      JumpStays(s, more[..|more| - 1]);
      if Run(s, more[..|more| - 1]).client.lost.Some? {
        LostByJump(s, more[..|more| - 1]);
      }
    }
  }

  /** What is lost stays lost: no later step, reconnect or replay closes the gap. */
  lemma LostForGood(capacity: nat, actions: seq<Action>, more: seq<Action>)
    requires Run(Init(capacity), actions).client.lost.Some?
    ensures !GapFree(Run(Init(capacity), actions + more))
    ensures Run(Init(capacity), actions).client.lost.value.missing
            !in Run(Init(capacity), actions + more).client.applied
  {
    IterateConcat(Step, Init(capacity), actions, more);
    Reachable(capacity, actions);
    RunKeeps(Run(Init(capacity), actions), more);
    GapFreeIffNotLost(Run(Init(capacity), actions + more));
  }

  // ---- when the channel overflows ----

  /** A live connection with nothing between the local channel and the client. */
  predicate Idle(s: State, at: nat) {
    && s.conn.Some? && s.conn.value.feed && s.conn.value.phase == Live && !s.conn.value.direct
    && s.conn.value.wire == [] && s.conn.value.fan == Fan(at, []) && s.conn.value.afterSeq == at
    && s.client.lastSeq == at
  }

  /** The head of the local channel travels all the way to the client. */
  lemma Pump(s: State, at: nat)
    requires Idle(s, at) && s.conn.value.local != [] && s.conn.value.local[0] > at
    ensures var e := s.conn.value.local[0];
            var t := Step(Step(Step(s, TakeLocal), Serve), Deliver);
            && Idle(t, e) && t.client.applied == s.client.applied + [e]
            && t.conn.value.local == s.conn.value.local[1..]
            && t.length == s.length && t.capacity == s.capacity
  {
    var e := s.conn.value.local[0];
    var s1 := Step(s, TakeLocal);
    assert s1.conn.value.fan == Fan(e, [] + [e]) && s1.client == s.client;
    var s2 := Step(s1, Serve);
    assert s2.conn.value.wire == [] + [e] && s2.conn.value.fan.out == [];
  }

  function Pumps(k: nat): seq<Action> {
    if k == 0 then [] else Pumps(k - 1) + [TakeLocal, Serve, Deliver]
  }

  function Appends(k: nat): seq<Action> {
    if k == 0 then [] else Appends(k - 1) + [Append]
  }

  lemma RunMore(s: State, actions: seq<Action>, a: Action, b: Action, c: Action)
    ensures Run(s, actions + [a, b, c]) == Step(Step(Step(Run(s, actions), a), b), c)
  {
    var t := Run(s, actions);
    IterateConcat(Step, s, actions, [a, b, c]);
    IterateThen(Step, t, [], a);
    IterateThen(Step, t, [a], b);
    IterateThen(Step, t, [a, b], c);
    assert [] + [a] == [a] && [a] + [b] == [a, b] && [a, b] + [c] == [a, b, c];
  }

  lemma {:induction false} PumpMany(s: State, k: nat)
    requires Idle(s, 0) && s.client.applied == [] && k <= |s.conn.value.local|
    requires s.conn.value.local == Range(0, |s.conn.value.local|)
    ensures var t := Run(s, Pumps(k));
            && Idle(t, k) && t.client.applied == Range(0, k)
            && t.conn.value.local == s.conn.value.local[k..]
            && t.length == s.length && t.capacity == s.capacity
  {
    if k > 0 {
      PumpMany(s, k - 1);
      Pump(Run(s, Pumps(k - 1)), k - 1);
      RunMore(s, Pumps(k - 1), TakeLocal, Serve, Deliver);
    }
  }

  function Filled(s: State, k: nat): State
    requires s.conn.Some?
  {
    s.(length := k, conn := Some(s.conn.value.(local := Range(0, k), fed := k)))
  }

  lemma AppendOnce(s: State, k: nat)
    requires s.conn.Some? && Listening(s.conn.value) && k < s.capacity
    ensures StepAppend(Filled(s, k)) == Filled(s, k + 1)
  {
    assert Range(0, k) + [k + 1] == Range(0, k + 1);
  }

  lemma {:induction false} AppendMany(s: State, k: nat)
    requires Idle(s, 0) && s == Filled(s, 0) && k <= s.capacity
    ensures Run(s, Appends(k)) == Filled(s, k)
  {
    if k > 0 {
      AppendMany(s, k - 1);
      IterateThen(Step, s, Appends(k - 1), Append);
      AppendOnce(s, k - 1);
    }
  }

  /** Connect, subscribe and go live on an empty log. */
  const CONNECTED: seq<Action> := [Open(true), Advance(true), Advance(true), Advance(true), Advance(true)]

  lemma Connects(capacity: nat)
    ensures var s := Run(Init(capacity), CONNECTED);
            && Idle(s, 0) && s.conn.value.local == [] && s.length == 0 == s.conn.value.fed && s.capacity == capacity
            && s.client.applied == []
  {
    var s0, up := Init(capacity), Advance(true);
    var s1 := s0.(conn := Some(NewConn(0, true)), client := s0.client.(open := true));
    var s2 := s1.(conn := Some(NewConn(0, true).(phase := Replayed)));
    assert Step(s0, Open(true)) == s1;
    assert Step(s1, up) == s2 by { assert [] + ReplayFrom(0, 0) == []; }
    IterateThen(Step, s0, [], Open(true));
    IterateThen(Step, s0, [Open(true)], up);
    assert [] + [Open(true)] == [Open(true)] && [Open(true)] + [up] == [Open(true), up];
    assert Run(s0, [Open(true), up]) == s2;
    GoesLive(s2);
    RunMore(s0, [Open(true), up], up, up, up);
    assert [Open(true), up] + [up, up, up] == CONNECTED;
  }

  lemma GoesLive(s: State)
    requires s.length == 0 && s.conn == Some(NewConn(0, true).(phase := Replayed)) && s.client.lastSeq == 0
    ensures var up := Advance(true);
            var t := Step(Step(Step(s, up), up), up);
            && Idle(t, 0) && t.conn.value.local == [] && t.length == 0 == t.conn.value.fed && t.capacity == s.capacity
            && t.client == s.client
  {
    var c := s.conn.value;
    var c1 := c.(phase := Subscribed);
    var c2 := c1.(phase := Merging);
    assert Progress(c, 0, true) == c1 && Progress(c1, 0, true) == c2;
    assert Progress(c2, 0, true) == c2.(phase := Live) by { assert [] + ReplayFrom(0, 0) == []; }
  }

  /** A burst of one event more than the channel holds, and one more event after the burst was read. */
  function Burst(capacity: nat): seq<Action> {
    CONNECTED + Appends(capacity) + [Append] + Pumps(capacity) + [Append] + Pumps(1)
  }

  lemma SixParts(s: State, a: seq<Action>, b: seq<Action>, c: seq<Action>, d: seq<Action>, e: seq<Action>,
                 f: seq<Action>)
    ensures Run(s, a + b + c + d + e + f) == Run(Run(Run(Run(Run(Run(s, a), b), c), d), e), f)
  {
    IterateConcat(Step, s, a, b);
    IterateConcat(Step, s, a + b, c);
    IterateConcat(Step, s, a + b + c, d);
    IterateConcat(Step, s, a + b + c + d, e);
    IterateConcat(Step, s, a + b + c + d + e, f);
  }

  lemma One(s: State, a: Action)
    ensures Run(s, [a]) == Step(s, a)
  {
    IterateThen(Step, s, [], a);
    assert [] + [a] == [a];
  }

  /** The channel fills up, one append is dropped, and the channel is read. */
  lemma FillAndRead(s: State)
    requires Idle(s, 0) && s == Filled(s, 0) && s.client.applied == [] && s.capacity > 0
    ensures var t := Run(Run(Run(s, Appends(s.capacity)), [Append]), Pumps(s.capacity));
            && Idle(t, s.capacity) && t.client.applied == Range(0, s.capacity) && t.conn.value.local == []
            && t.length == s.capacity + 1 && t.capacity == s.capacity
  {
    AppendMany(s, s.capacity);
    var full := Filled(s, s.capacity);
    One(full, Append);
    PumpMany(full.(length := s.capacity + 1), s.capacity);
  }

  /** The event that did not fit is never applied, and the client's resume point is already past it. */
  lemma OverflowLosesAnEvent(capacity: nat)
    requires capacity > 0
    ensures var s := Run(Init(capacity), Burst(capacity));
            && s.length == capacity + 2 && s.client.lastSeq == capacity + 2
            && s.client.applied == Range(0, capacity) + [capacity + 2]
            && capacity + 1 !in s.client.applied
  {
    var s0 := Init(capacity);
    Connects(capacity);
    var s1 := Run(s0, CONNECTED);
    assert s1.conn.value.local == Range(0, 0);
    FillAndRead(s1);
    var s4 := Run(Run(Run(s1, Appends(capacity)), [Append]), Pumps(capacity));
    One(s4, Append);
    var s5 := Run(s4, [Append]);
    assert s5.conn.value.local == [] + [capacity + 2];
    Pump(s5, capacity);
    RunMore(s5, [], TakeLocal, Serve, Deliver);
    assert Pumps(1) == [] + [TakeLocal, Serve, Deliver];
    SixParts(s0, CONNECTED, Appends(capacity), [Append], Pumps(capacity), [Append], Pumps(1));
  }

  // ---- exactly how much growth the delivery tolerates ----

  /** While the log is short, the channel is complete but for its very last event. */
  predicate Roomy(s: State) {
    s.length <= s.capacity + 1 ==>
      && s.client.lost.None?
      && (s.conn.Some? ==> s.conn.value.jump.None? && (Listening(s.conn.value) ==> Unbroken(s, s.conn.value)))
  }

  predicate Unbroken(s: State, c: Conn) {
    && |c.local| <= c.fed <= s.length && c.local == Range(c.fed - |c.local|, c.fed)
    && c.fed - |c.local| <= c.fan.lastSeq
    && (c.fed == s.length || s.length == s.capacity + 1)
  }

  lemma RoomyAppend(s: State)
    requires Roomy(s)
    ensures Roomy(StepAppend(s))
  {
    if s.length <= s.capacity && s.conn.Some? && Listening(s.conn.value) {
      var c := s.conn.value;
      if |c.local| < s.capacity {
        assert c.local + [s.length + 1] == Range(c.fed - |c.local|, s.length + 1);
      }
    }
  }

  lemma RoomyLocal(s: State)
    requires Roomy(s) && s.conn.Some?
    requires QueuesOk(s.conn.value, s.length)
    ensures Roomy(Step(s, TakeLocal))
  {
    var c := s.conn.value;
    if s.length <= s.capacity + 1 && Fanning(c) && c.local != [] {
      assert c.local[0] == c.fed - |c.local| + 1;
      assert c.local[1..] == Range(c.fed - |c.local| + 1, c.fed);
    }
  }

  lemma RoomyAdvance(s: State, busUp: bool)
    requires Roomy(s) && s.conn.Some? && QueuesOk(s.conn.value, s.length)
    ensures Roomy(Step(s, Advance(busUp)))
  {
    assert Range(s.length, s.length) == [];
  }

  lemma RoomyQuiet(s: State, a: Action)
    requires Roomy(s) && s.conn.Some? && QueuesOk(s.conn.value, s.length) && (a.TakeNudge? || a.Serve?)
    ensures Roomy(Step(s, a))
  {
  }

  lemma RoomyStep(s: State, a: Action)
    requires Roomy(s) && Inv(s)
    ensures Roomy(Step(s, a))
  {
    match a
    case Append => RoomyAppend(s);
    case Open(_) =>
    case Reconnect(_) =>
    case Disconnect =>
    case Advance(busUp) => if s.conn.Some? { RoomyAdvance(s, busUp); }
    case TakeLocal => if s.conn.Some? { RoomyLocal(s); }
    case TakeNudge(_) => if s.conn.Some? { RoomyQuiet(s, a); }
    case Serve => if s.conn.Some? { RoomyQuiet(s, a); }
    case Deliver =>
  }

  lemma {:induction false} AlwaysRoomy(capacity: nat, actions: seq<Action>)
    ensures Roomy(Run(Init(capacity), actions)) && Run(Init(capacity), actions).capacity == capacity
  {
    if actions != [] {
      AlwaysRoomy(capacity, actions[..|actions| - 1]);
      Reachable(capacity, actions[..|actions| - 1]);
      RoomyStep(Run(Init(capacity), actions[..|actions| - 1]), actions[|actions| - 1]);
    }
  }

  /** Every run whose log has at most `k` events delivers without a gap if and only if `k` is at most one
      more than the channel holds. */
  lemma GapFreeIff(capacity: nat, k: nat)
    requires capacity > 0
    ensures (forall actions :: Run(Init(capacity), actions).length <= k ==> GapFree(Run(Init(capacity), actions)))
            <==> k <= capacity + 1
  {
    if k <= capacity + 1 {
      forall actions | Run(Init(capacity), actions).length <= k ensures GapFree(Run(Init(capacity), actions)) {
        AlwaysRoomy(capacity, actions);
        ExactlyOnceIff(capacity, actions);
      }
    } else {
      OverflowLosesAnEvent(capacity);
      var s := Run(Init(capacity), Burst(capacity));
      assert !GapFree(s) by {
        assert |s.client.applied| == capacity + 1;
      }
    }
  }
}

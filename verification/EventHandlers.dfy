/** The imperative ends of the delivery path: the SSE handler on the server and the event bookkeeping of
  the browser. What they do to a connection and a client is what EventDelivery's steps do. */
module EventHandlers {
  import opened EventFanout
  import opened EventDelivery

  /** The buffer of a repository subscription. */
  const LOCAL_CHANNEL_CAPACITY: nat := 32

  /** With that buffer, 33 events are delivered without a gap in every run, and 34 are not. */
  lemma LocalChannelTolerates()
    ensures forall actions :: Run(Init(LOCAL_CHANNEL_CAPACITY), actions).length <= 33
                              ==> GapFree(Run(Init(LOCAL_CHANNEL_CAPACITY), actions))
    ensures exists actions :: Run(Init(LOCAL_CHANNEL_CAPACITY), actions).length <= 34
                              && !GapFree(Run(Init(LOCAL_CHANNEL_CAPACITY), actions))
  {
    GapFreeIff(LOCAL_CHANNEL_CAPACITY, 33);
    GapFreeIff(LOCAL_CHANNEL_CAPACITY, 34);
  }

  function Numbers(events: seq<Event>): seq<int> {
    seq(|events|, i requires 0 <= i < |events| => events[i].seqNo)
  }

  /** The numbers a replay writes are the part of the log that the delivery model replays. */
  lemma ReplayMatches(log: seq<Event>, afterSeq: nat)
    requires Contiguous(log)
    ensures Numbers(ListEvents(log, afterSeq)) == ReplayFrom(afterSeq, |log|)
  {
    ListEventsIsSuffix(log, afterSeq);
    var numbers, replayed := Numbers(ListEvents(log, afterSeq)), ReplayFrom(afterSeq, |log|);
    assert |numbers| == |replayed|;
    assert forall i :: 0 <= i < |numbers| ==> numbers[i] == afterSeq + 1 + i == replayed[i];
  }

  /** Where a replay that resumes at a number starts in the log. */
  function ReplayStart(after: int): nat {
    if after > 0 then after else 0
  }

  /** The events above a number are numbered on from it. */
  lemma DueNumber(log: seq<Event>, after: int, i: nat)
    requires Contiguous(log) && i < |ListEvents(log, after)|
    ensures ListEvents(log, after)[i].seqNo == ReplayStart(after) + i + 1
  {
    ListEventsIsSuffix(log, after);
  }

  lemma NumbersGrow(events: seq<Event>, i: nat)
    requires i < |events|
    ensures Numbers(events[..i + 1]) == Numbers(events[..i]) + [events[i].seqNo]
  {
  }

  /** `runEvents`: what it has written and where it would resume. A request may ask for a negative start. */
  class EventStream {
    var afterSeq: int
    var written: seq<int>

    constructor (after: int)
      ensures afterSeq == after && written == []
    {
      afterSeq, written := after, [];
    }

    ghost predicate Shows(c: Conn)
      reads this
    {
      afterSeq == c.afterSeq && written == c.wire
    }

    /** `writeReplayEvents`; the connection breaks after `writes` successful writes. Unbroken, it does to a
        connection what either replay of the model does. */
    method WriteReplayEvents(log: seq<Event>, writes: nat, ghost c: Conn) returns (failed: bool)
      requires Contiguous(log)
      modifies this
      ensures var due := ListEvents(log, old(afterSeq));
              var n := if failed then writes else |due|;
              && (failed <==> writes < |due|)
              && written == old(written) + Numbers(due[..n])
              && afterSeq == if n == 0 then old(afterSeq) else ReplayStart(old(afterSeq)) + n
      ensures old(Shows(c)) && !failed ==> Shows(Replay(c, |log|))
    {
      var events := ListEvents(log, afterSeq);
      if afterSeq >= 0 {
        ReplayMatches(log, afterSeq);
      }
      for i := 0 to |events|
        invariant i <= writes && afterSeq == if i == 0 then old(afterSeq) else ReplayStart(old(afterSeq)) + i
        invariant written == old(written) + Numbers(events[..i])
      {
        if i == writes {
          return true;
        }
        NumbersGrow(events, i);
        DueNumber(log, old(afterSeq), i);
        written := written + [events[i].seqNo];
        afterSeq := events[i].seqNo;
      }
      assert events[..|events|] == events;
      return false;
    }

    /** One event from the subscription: written only if it is beyond the last one. */
    method Forward(e: int, ok: bool, ghost c: Conn) returns (failed: bool)
      modifies this
      ensures failed <==> e > old(afterSeq) && !ok
      ensures afterSeq == if e > old(afterSeq) && ok then e else old(afterSeq)
      ensures written == if e > old(afterSeq) && ok then old(written) + [e] else old(written)
      ensures old(Shows(c)) && c.phase.Live? && c.fan.out != [] && c.fan.out[0] == e && !failed ==>
                Shows(ServeNext(c))
    {
      if e > afterSeq {
        if !ok {
          return true;
        }
        written := written + [e];
        afterSeq := e;
      }
      return false;
    }
  }

  /** The browser's per-run bookkeeping. `applied` is what the open run's listener let through. */
  class SeenEvents {
    var lastSeqByRun: map<string, nat>
    var applied: seq<int>

    constructor ()
      ensures lastSeqByRun == map[] && applied == []
    {
      lastSeqByRun, applied := map[], [];
    }

    function LastSeq(run: string): nat
      reads this
    {
      if run in lastSeqByRun then lastSeqByRun[run] else 0
    }

    ghost predicate Shows(run: string, client: Client)
      reads this
    {
      LastSeq(run) == client.lastSeq && applied == client.applied
    }

    /** `markRunEventSeen`: events of other runs are refused, unnumbered ones always pass. */
    method MarkRunEventSeen(expectedRun: string, eventRun: string, seqNo: int) returns (isNew: bool)
      modifies this`lastSeqByRun
      ensures isNew <==> eventRun in {"", expectedRun} && (seqNo <= 0 || seqNo > old(LastSeq(expectedRun)))
      ensures lastSeqByRun == if isNew && seqNo > 0 then old(lastSeqByRun)[expectedRun := seqNo] else old(lastSeqByRun)
    {
      if eventRun != "" && eventRun != expectedRun {
        return false;
      }
      if seqNo <= 0 {
        return true;
      }
      var lastSeq := if expectedRun in lastSeqByRun then lastSeqByRun[expectedRun] else 0;
      if seqNo <= lastSeq {
        return false;
      }
      lastSeqByRun := lastSeqByRun[expectedRun := seqNo];
      return true;
    }

    /** The listener of `openEvents`: a numbered event of its run does what the model's client does with it, an
        unnumbered one is applied and leaves no trace, and an event of another run does nothing. */
    method OnEvent(run: string, eventRun: string, seqNo: int, ghost client: Client)
      modifies this
      ensures old(Shows(run, client)) && eventRun in {"", run} && seqNo > 0 ==> Shows(run, Receive(client, seqNo))
      ensures eventRun in {"", run} && seqNo <= 0 ==>
                applied == old(applied) + [seqNo] && lastSeqByRun == old(lastSeqByRun)
      ensures eventRun !in {"", run} ==> applied == old(applied) && lastSeqByRun == old(lastSeqByRun)
      ensures forall other :: other != run ==> LastSeq(other) == old(LastSeq(other))
    {
      var isNew := MarkRunEventSeen(run, eventRun, seqNo);
      if isNew {
        applied := applied + [seqNo];
      }
    }
  }
}

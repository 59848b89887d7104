/** The run event log and the fanout that merges local events with lossy nudges (eventbus.go). */
module EventFanout {
  import opened Common

  datatype Event = Event(seqNo: int, body: string)

  /** The sequence numbers after `a`, up to and including `b`. */
  function Range(a: nat, b: nat): seq<nat>
    requires a <= b
  {
    seq(b - a, i requires 0 <= i => a + 1 + i)
  }

  /** A run's log: numbered from 1 without gaps. */
  predicate Contiguous(log: seq<Event>) {
    forall i :: 0 <= i < |log| ==> log[i].seqNo == i + 1
  }

  /** `ListEvents`: everything numbered above `after`, in log order. */
  function ListEvents(log: seq<Event>, after: int): seq<Event>
  {
    if log == [] then []
    else
      var last := log[|log| - 1];
      ListEvents(log[..|log| - 1], after) + (if last.seqNo > after then [last] else [])
  }

  /** On a contiguous log that is the suffix after `after`. */
  lemma {:induction false} ListEventsIsSuffix(log: seq<Event>, after: int)
    requires Contiguous(log)
    ensures ListEvents(log, after)
            == if after <= 0 then log else if after < |log| then log[after..] else []
  {
    if log != [] {
      var n := |log| - 1;
      ListEventsIsSuffix(log[..n], after);
      assert log == log[..n] + [log[n]];
      if 0 < after <= n {
        assert log[after..] == log[..n][after..] + [log[n]];
      }
    }
  }

  /** `maxEventSeq`: the largest number, or 0. */
  method MaxEventSeq(events: seq<Event>) returns (max: int)
    ensures max >= 0 && forall e :: e in events ==> e.seqNo <= max
    ensures max == 0 || exists e :: e in events && e.seqNo == max
  {
    max := 0;
    for i := 0 to |events|
      invariant max >= 0 && forall j :: 0 <= j < i ==> events[j].seqNo <= max
      invariant max == 0 || exists j :: 0 <= j < i && events[j].seqNo == max
    {
      if events[i].seqNo > max {
        max := events[i].seqNo;
      }
    }
  }

  /** The fanout goroutine: the last forwarded number and everything forwarded so far. */
  datatype Fan = Fan(lastSeq: nat, out: seq<nat>)

  /** A local event, or a nudge handled when the log has `length` events. */
  datatype Input = Local(seqNo: nat) | Nudge(upTo: int, length: nat)

  function FanStep(f: Fan, i: Input): Fan {
    match i
    case Local(e) => if e > f.lastSeq then Fan(e, f.out + [e]) else f
    case Nudge(s, n) =>
      if s <= f.lastSeq || n <= f.lastSeq then f else Fan(n, f.out + Range(f.lastSeq, n))
  }

  function FanRun(start: nat, inputs: seq<Input>): Fan {
    Iterate(FanStep, Fan(start, []), inputs)
  }

  /** The loop body is that step: a local event is forwarded only above `lastSeq`, a nudge replays
      the log above `lastSeq` and stops early only if the subscriber is gone. */
  method FanoutLoop(start: nat, inputs: seq<Input>) returns (out: seq<nat>, lastSeq: nat)
    ensures Fan(lastSeq, out) == FanRun(start, inputs)
  {
    out, lastSeq := [], start;
    for i := 0 to |inputs|
      invariant Fan(lastSeq, out) == FanRun(start, inputs[..i])
    {
      ghost var before := Fan(lastSeq, out);
      match inputs[i] {
        case Local(e) =>
          if e > lastSeq {
            out, lastSeq := out + [e], e;
          }
        case Nudge(s, n) =>
          if s > lastSeq {
            var next := lastSeq + 1;
            ghost var base := lastSeq;
            while next <= n
              invariant base < next && lastSeq == next - 1
              invariant next <= n + 1 || next == base + 1
              invariant out == before.out + Range(base, lastSeq)
            {
              out, lastSeq := out + [next], next;
              next := next + 1;
            }
          }
      }
      assert inputs[..i + 1] == inputs[..i] + [inputs[i]];
      IterateThen(FanStep, Fan(start, []), inputs[..i], inputs[i]);
    }
    assert inputs[..|inputs|] == inputs;
  }

  predicate StrictlyIncreasing(s: seq<nat>) {
    forall i, j :: 0 <= i < j < |s| ==> s[i] < s[j]
  }

  /** Strictly increasing, above `lo` and up to `hi`. */
  predicate Inside(s: seq<nat>, lo: nat, hi: nat) {
    lo <= hi && StrictlyIncreasing(s) && forall i :: 0 <= i < |s| ==> lo < s[i] <= hi
  }

  /** Whatever is lost, duplicated or reordered, the forwarded numbers increase strictly. */
  lemma {:induction false} FanIncreases(start: nat, inputs: seq<Input>)
    ensures Inside(FanRun(start, inputs).out, start, FanRun(start, inputs).lastSeq)
  {
    if inputs != [] {
      FanIncreases(start, inputs[..|inputs| - 1]);
    }
  }

  /** A local event that skips a number is forwarded at some point. */
  predicate Jumps(start: nat, inputs: seq<Input>) {
    exists i :: 0 <= i < |inputs| && JumpsAt(start, inputs, i)
  }

  predicate JumpsAt(start: nat, inputs: seq<Input>, i: nat)
    requires i < |inputs|
  {
    inputs[i].Local? && inputs[i].seqNo > FanRun(start, inputs[..i]).lastSeq + 1
  }

  lemma JumpsLast(start: nat, inputs: seq<Input>)
    requires inputs != []
    ensures var n := |inputs| - 1;
            Jumps(start, inputs) <==> Jumps(start, inputs[..n]) || JumpsAt(start, inputs, n)
  {
    var n := |inputs| - 1;
    forall i | 0 <= i < n ensures JumpsAt(start, inputs, i) <==> JumpsAt(start, inputs[..n], i) {
      assert inputs[..n][..i] == inputs[..i];
    }
  }

  /** The forwarded numbers are a contiguous piece of the log exactly when no local event ahead of
      the next number is forwarded. */
  lemma {:induction false} FanContiguousIff(start: nat, inputs: seq<Input>)
    ensures var f := FanRun(start, inputs);
            f.lastSeq >= start && (f.out == Range(start, f.lastSeq) <==> !Jumps(start, inputs))
  {
    FanIncreases(start, inputs);
    if inputs != [] {
      var n := |inputs| - 1;
      FanContiguousIff(start, inputs[..n]);
      FanIncreases(start, inputs[..n]);
      JumpsLast(start, inputs);
      var g, f := FanRun(start, inputs[..n]), FanRun(start, inputs);
      CountBound(g.out, start, g.lastSeq);
      ContiguousByCount(g.out, start, g.lastSeq);
      ContiguousByCount(f.out, start, f.lastSeq);
    }
  }

  lemma {:induction false} CountBound(s: seq<nat>, lo: nat, hi: nat)
    requires Inside(s, lo, hi)
    ensures |s| <= hi - lo
    decreases |s|
  {
    if s != [] {
      var n := |s| - 1;
      assert Inside(s[..n], lo, s[n] - 1);
      CountBound(s[..n], lo, s[n] - 1);
    }
  }

  /** An increasing sequence inside a range fills it exactly when it is long enough. */
  lemma {:induction false} ContiguousByCount(s: seq<nat>, lo: nat, hi: nat)
    requires Inside(s, lo, hi)
    ensures s == Range(lo, hi) <==> |s| == hi - lo
    decreases |s|
  {
    if |s| == hi - lo && s != [] {
      var n := |s| - 1;
      assert Inside(s[..n], lo, s[n] - 1);
      CountBound(s[..n], lo, s[n] - 1);
      assert s[n] == hi;
      ContiguousByCount(s[..n], lo, hi - 1);
      assert s == s[..n] + [hi];
    }
  }

  /** After a nudge for an event that is in the log, everything up to that event has been forwarded,
      unless a local event had already jumped ahead. */
  lemma NudgeCatchesUp(start: nat, inputs: seq<Input>, s: nat, length: nat)
    requires start <= s <= length
    ensures var f := FanRun(start, inputs + [Nudge(s, length)]);
            && s <= f.lastSeq
            && (!Jumps(start, inputs) ==> Range(start, s) <= f.out)
  {
    IterateThen(FanStep, Fan(start, []), inputs, Nudge(s, length));
    FanContiguousIff(start, inputs);
  }
}

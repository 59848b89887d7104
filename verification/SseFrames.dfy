/** Server-sent event frames: the writer of packages/common/platform/sse.go and the line reader of
  scripts/smoke_sse_replay.py. Payloads are texts; what JSON decoding makes of them is a parameter. */
module SseFrames {
  import opened Common
  import opened Text

  datatype Frame = Frame(id: string, event: string, payload: string)

  datatype Received = Received(event: string, data: string)

  // ---- the writer ----

  function IdLine(id: string): string {
    if id == "" then "" else "id: " + id + "\n"
  }

  function EventLine(event: string): string {
    if event == "" then "" else "event: " + event + "\n"
  }

  function FrameText(f: Frame): string {
    IdLine(f.id) + (EventLine(f.event) + ("data: " + f.payload + "\n\n"))
  }

  class ResponseWriter {
    var body: string

    constructor ()
      ensures body == ""
    {
      body := "";
    }

    method Print(text: string, ok: bool) returns (failed: bool)
      modifies this
      ensures failed == !ok && body == if ok then old(body) + text else old(body)
    {
      if ok {
        body := body + text;
      }
      return !ok;
    }
  }

  /** What of a frame gets out when `ok` says for each of the three writes whether it works. */
  function Written(f: Frame, ok: (bool, bool, bool)): string {
    if f.id != "" && !ok.0 then ""
    else if f.event != "" && !ok.1 then IdLine(f.id)
    else if !ok.2 then IdLine(f.id) + EventLine(f.event)
    else FrameText(f)
  }

  lemma Regroup(body: string, a: string, b: string, c: string)
    ensures body + a + b == body + (a + b)
    ensures body + a + b + c == body + (a + (b + c))
  {
  }

  method WriteIdLine(w: ResponseWriter, id: string, ok: bool) returns (failed: bool)
    modifies w
    ensures failed <==> id != "" && !ok
    ensures w.body == old(w.body) + if failed then "" else IdLine(id)
  {
    if id != "" {
      failed := w.Print("id: " + id + "\n", ok);
    } else {
      failed := false;
    }
  }

  method WriteEventLine(w: ResponseWriter, event: string, ok: bool) returns (failed: bool)
    modifies w
    ensures failed <==> event != "" && !ok
    ensures w.body == old(w.body) + if failed then "" else EventLine(event)
  {
    if event != "" {
      failed := w.Print("event: " + event + "\n", ok);
    } else {
      failed := false;
    }
  }

  /** A payload that cannot be marshalled is `None`. */
  method WriteSSEWithID(w: ResponseWriter, id: string, event: string, value: Option<string>, ok: (bool, bool, bool))
    returns (failed: bool)
    modifies w
    ensures failed <==> value.None? || (id != "" && !ok.0) || (event != "" && !ok.1) || !ok.2
    ensures w.body == if value.Some? then old(w.body) + Written(Frame(id, event, value.value), ok) else old(w.body)
  {
    if value.None? {
      return true;
    }
    ghost var was, data := w.body, "data: " + value.value + "\n\n";
    Regroup(was, IdLine(id), EventLine(event), data);
    failed := WriteIdLine(w, id, ok.0);
    if failed {
      return;
    }
    failed := WriteEventLine(w, event, ok.1);
    if failed {
      return;
    }
    failed := w.Print("data: " + value.value + "\n\n", ok.2);
  }

  /** A frame that could not be written is cut off before its data line. */
  lemma WrittenInFull(f: Frame, ok: (bool, bool, bool))
    ensures Written(f, ok) <= FrameText(f)
    ensures Written(f, ok) == FrameText(f) <==> (f.id == "" || ok.0) && (f.event == "" || ok.1) && ok.2
  {
    var data := "data: " + f.payload + "\n\n";
    assert FrameText(f) == IdLine(f.id) + EventLine(f.event) + data;
    assert |data| > 0;
  }

  // ---- the reader ----

  /** What the reader holds between two lines. */
  datatype Reader = Reader(event: string, data: seq<string>, events: seq<Received>)

  const FRESH := Reader("", [], [])

  function Strip(s: string): string {
    Trim(s, IsPythonSpace)
  }

  function Join(lines: seq<string>): string {
    if lines == [] then "" else if |lines| == 1 then lines[0] else lines[0] + "\n" + Join(lines[1..])
  }

  predicate StartsWith(s: string, prefix: string) {
    prefix <= s
  }

  /** A line without its line feed loses one carriage return at its end. */
  function DropReturn(line: string): string {
    if line != "" && line[|line| - 1] == '\r' then line[..|line| - 1] else line
  }

  function Feed(r: Reader, text: string): Reader {
    if text == "" then
      Reader("", [], if r.data == [] then r.events else r.events + [Received(r.event, Join(r.data))])
    else if StartsWith(text, "event:") then r.(event := Strip(text[6..]))
    else if StartsWith(text, "data:") then r.(data := r.data + [Strip(text[5..])])
    else r
  }

  /** Where the first line ends. */
  function LineLength(s: string): (n: nat)
    ensures n <= |s| && (forall i :: 0 <= i < n ==> s[i] != '\n') && (n < |s| ==> s[n] == '\n')
  {
    if s == "" || s[0] == '\n' then 0 else 1 + LineLength(s[1..])
  }

  function Rest(s: string): string {
    if LineLength(s) < |s| then s[LineLength(s) + 1..] else ""
  }

  /** When to stop: after `count` events if that is positive, or at an event of type `kind` if that is not
      empty. `decode` gives the type of a payload, or nothing for one that is not a JSON object. */
  datatype Stop = Stop(count: nat, kind: string, decode: string -> Option<string>)

  /** How reading ends: with the events asked for, at the end of the stream, or at an invalid payload. */
  datatype Ending = Found(events: seq<Received>) | Exhausted | Invalid

  /** Whether one more event ends the reading. */
  function AtEvent(events: seq<Received>, e: Received, stop: Stop): Option<Ending> {
    match stop.decode(e.data)
    case None => Some(Invalid)
    case Some(kind) =>
      if (stop.count > 0 && |events| + 1 >= stop.count) || (stop.kind != "" && kind == stop.kind)
      then Some(Found(events + [e])) else None
  }

  /** Only the blank line after data makes an event. */
  function AtLine(r: Reader, text: string, stop: Stop): Option<Ending> {
    if text != "" || r.data == [] then None else AtEvent(r.events, Received(r.event, Join(r.data)), stop)
  }

  function ReadFrom(r: Reader, s: string, stop: Stop): Ending
    decreases |s|
  {
    if s == "" then Exhausted
    else
      var text := DropReturn(s[..LineLength(s)]);
      match AtLine(r, text, stop)
      case Some(ending) => ending
      case None => ReadFrom(Feed(r, text), Rest(s), stop)
  }

  /** `read_sse_events`, before its deadline. */
  method ReadSseEvents(stream: string, stop: Stop) returns (ending: Ending)
    ensures ending == ReadFrom(FRESH, stream, stop)
  {
    var eventName, dataLines: seq<string>, events: seq<Received> := "", [], [];
    var rest := stream;
    while rest != ""
      invariant ReadFrom(FRESH, stream, stop) == ReadFrom(Reader(eventName, dataLines, events), rest, stop)
      decreases |rest|
    {
      ghost var before := Reader(eventName, dataLines, events);
      var n := LineLength(rest);
      var text := DropReturn(rest[..n]);
      rest := if n < |rest| then rest[n + 1..] else "";
      if text == "" {
        if dataLines != [] {
          var payload := Join(dataLines);
          var kind := stop.decode(payload);
          if kind.None? {
            return Invalid;
          }
          events := events + [Received(eventName, payload)];
          if stop.count > 0 && |events| >= stop.count {
            return Found(events);
          }
          if stop.kind != "" && kind.value == stop.kind {
            return Found(events);
          }
        }
        eventName, dataLines := "", [];
      } else if StartsWith(text, "event:") {
        eventName := Strip(text[6..]);
      } else if StartsWith(text, "data:") {
        dataLines := dataLines + [Strip(text[5..])];
      }
      assert Reader(eventName, dataLines, events) == Feed(before, text);
    }
    return Exhausted;
  }

  // ---- the round trip ----

  predicate OneLine(s: string) {
    forall i :: 0 <= i < |s| ==> s[i] != '\n'
  }

  predicate OneLiner(f: Frame) {
    OneLine(f.id) && OneLine(f.event) && OneLine(f.payload)
  }

  lemma LineLengthOf(line: string, tail: string)
    requires OneLine(line)
    ensures LineLength(line + "\n" + tail) == |line|
    ensures Rest(line + "\n" + tail) == tail
  {
    var s := line + "\n" + tail;
    assert s[|line|] == '\n';
    assert forall i :: 0 <= i < |line| ==> s[i] == line[i];
    assert s[|line| + 1..] == tail;
  }

  function Continue(at: Option<Ending>, next: Ending): Ending {
    match at
    case Some(ending) => ending
    case None => next
  }

  lemma ReadLine(r: Reader, line: string, tail: string, stop: Stop)
    requires OneLine(line)
    ensures var text := DropReturn(line);
            ReadFrom(r, line + "\n" + tail, stop)
            == Continue(AtLine(r, text, stop), ReadFrom(Feed(r, text), tail, stop))
  {
    LineLengthOf(line, tail);
    assert (line + "\n" + tail)[..|line|] == line;
  }

  /** The blank after a field's colon and a final carriage return vanish in the stripped value. */
  lemma FieldValue(name: string, value: string)
    ensures |name| <= |DropReturn(name + " " + value)|
    ensures StartsWith(DropReturn(name + " " + value), name)
    ensures Strip(DropReturn(name + " " + value)[|name|..]) == Strip(value)
  {
    var line := name + " " + value;
    TrimIgnoresLeading(' ', value, IsPythonSpace);
    assert line[|name|..] == [' '] + value;
    if value != "" && value[|value| - 1] == '\r' {
      var front := value[..|value| - 1];
      assert value == front + ['\r'];
      assert DropReturn(line)[|name|..] == [' '] + front;
      TrimIgnoresLeading(' ', front, IsPythonSpace);
      TrimIgnoresTrailing(front, '\r', IsPythonSpace);
    } else {
      assert line[|line| - 1] != '\r';
    }
  }

  lemma FeedId(r: Reader, id: string)
    ensures DropReturn("id: " + id) != "" && Feed(r, DropReturn("id: " + id)) == r
  {
    var text := DropReturn("id: " + id);
    assert text != "" && text[0] == 'i';
    assert "event:"[0] == 'e' && "data:"[0] == 'd';
  }

  lemma FeedEvent(r: Reader, event: string)
    ensures DropReturn("event: " + event) != ""
    ensures Feed(r, DropReturn("event: " + event)) == r.(event := Strip(event))
  {
    FieldValue("event:", event);
    assert "event:" + " " + event == "event: " + event;
  }

  lemma FeedData(r: Reader, payload: string)
    ensures DropReturn("data: " + payload) != ""
    ensures Feed(r, DropReturn("data: " + payload)) == r.(data := r.data + [Strip(payload)])
  {
    FieldValue("data:", payload);
    assert "data:" + " " + payload == "data: " + payload;
    assert DropReturn("data: " + payload)[0] == 'd';
  }

  function Stripped(f: Frame): Received {
    Received(Strip(f.event), Strip(f.payload))
  }

  lemma OneLinePlus(prefix: string, s: string)
    requires OneLine(prefix) && OneLine(s)
    ensures OneLine(prefix + s)
  {
  }

  lemma ReadIdLine(r: Reader, id: string, tail: string, stop: Stop)
    requires OneLine(id)
    ensures ReadFrom(r, IdLine(id) + tail, stop) == ReadFrom(r, tail, stop)
  {
    if id == "" {
      assert IdLine(id) + tail == tail;
    } else {
      OneLinePlus("id: ", id);
      ReadLine(r, "id: " + id, tail, stop);
      assert IdLine(id) + tail == "id: " + id + "\n" + tail;
      FeedId(r, id);
    }
  }

  lemma ReadEventLine(r: Reader, event: string, tail: string, stop: Stop)
    requires OneLine(event) && r.event == ""
    ensures ReadFrom(r, EventLine(event) + tail, stop) == ReadFrom(r.(event := Strip(event)), tail, stop)
  {
    if event == "" {
      assert EventLine(event) + tail == tail;
    } else {
      OneLinePlus("event: ", event);
      ReadLine(r, "event: " + event, tail, stop);
      assert EventLine(event) + tail == "event: " + event + "\n" + tail;
      FeedEvent(r, event);
    }
  }

  lemma ReadBlankLine(r: Reader, tail: string, stop: Stop)
    ensures ReadFrom(r, "\n" + tail, stop) == Continue(AtLine(r, "", stop), ReadFrom(Feed(r, ""), tail, stop))
  {
    var s := "\n" + tail;
    assert LineLength(s) == 0 && s[..0] == "" && s[1..] == tail;
    assert Rest(s) == tail;
  }

  lemma AtBlank(r: Reader, data: string, stop: Stop)
    ensures var full, e := r.(data := [data]), Received(r.event, data);
            AtLine(full, "", stop) == AtEvent(r.events, e, stop) && Feed(full, "") == Reader("", [], r.events + [e])
  {
  }

  lemma ReadDataLine(r: Reader, payload: string, tail: string, stop: Stop)
    requires OneLine(payload) && r.data == []
    ensures var e := Received(r.event, Strip(payload));
            ReadFrom(r, "data: " + payload + "\n\n" + tail, stop)
            == Continue(AtEvent(r.events, e, stop), ReadFrom(Reader("", [], r.events + [e]), tail, stop))
  {
    OneLinePlus("data: ", payload);
    assert "data: " + payload + "\n\n" + tail == "data: " + payload + "\n" + ("\n" + tail);
    ReadLine(r, "data: " + payload, "\n" + tail, stop);
    FeedData(r, payload);
    AtBlank(r, Strip(payload), stop);
    assert r.data + [Strip(payload)] == [Strip(payload)];
    ReadBlankLine(r.(data := [Strip(payload)]), tail, stop);
  }

  lemma ReadFrame(events: seq<Received>, f: Frame, tail: string, stop: Stop)
    requires OneLiner(f)
    ensures ReadFrom(Reader("", [], events), FrameText(f) + tail, stop)
            == Continue(AtEvent(events, Stripped(f), stop),
                        ReadFrom(Reader("", [], events + [Stripped(f)]), tail, stop))
  {
    var r := Reader("", [], events);
    var data := "data: " + f.payload + "\n\n" + tail;
    assert FrameText(f) + tail == IdLine(f.id) + (EventLine(f.event) + data);
    ReadIdLine(r, f.id, EventLine(f.event) + data, stop);
    ReadEventLine(r, f.event, data, stop);
    ReadDataLine(r.(event := Strip(f.event)), f.payload, tail, stop);
  }

  function Stream(frames: seq<Frame>): string {
    if frames == [] then "" else FrameText(frames[0]) + Stream(frames[1..])
  }

  lemma StreamSplit(frames: seq<Frame>, tail: string)
    requires frames != []
    ensures Stream(frames) + tail == FrameText(frames[0]) + (Stream(frames[1..]) + tail)
  {
  }

  function AllStripped(frames: seq<Frame>): seq<Received> {
    seq(|frames|, i requires 0 <= i < |frames| => Stripped(frames[i]))
  }

  predicate OneLiners(frames: seq<Frame>) {
    forall i :: 0 <= i < |frames| ==> OneLiner(frames[i])
  }

  /** Reading frame by frame: where it ends, if it does. */
  function AtFrames(events: seq<Received>, frames: seq<Frame>, stop: Stop): Option<Ending>
    decreases |frames|
  {
    if frames == [] then None
    else
      match AtEvent(events, Stripped(frames[0]), stop)
      case Some(ending) => Some(ending)
      case None => AtFrames(events + [Stripped(frames[0])], frames[1..], stop)
  }

  lemma MoreStripped(events: seq<Received>, frames: seq<Frame>)
    requires frames != []
    ensures events + [Stripped(frames[0])] + AllStripped(frames[1..]) == events + AllStripped(frames)
  {
    assert [Stripped(frames[0])] + AllStripped(frames[1..]) == AllStripped(frames);
  }

  /** Reading what was written, line by line, is reading frame by frame, and then what follows: event names and
      payloads arrive in order with outer white space gone, whatever ends the reading, with or without id
      and event lines. */
  lemma {:induction false} ReadFrames(events: seq<Received>, frames: seq<Frame>, tail: string, stop: Stop)
    requires OneLiners(frames)
    ensures ReadFrom(Reader("", [], events), Stream(frames) + tail, stop)
            == Continue(AtFrames(events, frames, stop),
                        ReadFrom(Reader("", [], events + AllStripped(frames)), tail, stop))
    decreases |frames|
  {
    if frames == [] {
      assert Stream(frames) + tail == tail && events + AllStripped(frames) == events;
    } else {
      var first, others := frames[0], frames[1..];
      assert OneLiner(first) && OneLiners(others);
      StreamSplit(frames, tail);
      MoreStripped(events, frames);
      ReadFrame(events, first, Stream(others) + tail, stop);
      ReadFrames(events + [Stripped(first)], others, tail, stop);
    }
  }

  /** All payloads are valid as they arrive, and none but perhaps the last is of the type to stop at. */
  predicate Plain(frames: seq<Frame>, stop: Stop) {
    forall i :: 0 <= i < |frames| ==>
      var kind := stop.decode(Strip(frames[i].payload));
      kind.Some? && (stop.kind != "" && i < |frames| - 1 ==> kind.value != stop.kind)
  }

  lemma {:induction false} AllFrames(events: seq<Received>, frames: seq<Frame>, stop: Stop)
    requires frames != [] && Plain(frames, stop)
    requires stop.count == 0 || |events| + |frames| <= stop.count
    requires stop.count == |events| + |frames|
             || (stop.kind != "" && stop.decode(Strip(frames[|frames| - 1].payload)) == Some(stop.kind))
    ensures AtFrames(events, frames, stop) == Some(Found(events + AllStripped(frames)))
    decreases |frames|
  {
    var more := events + [Stripped(frames[0])];
    MoreStripped(events, frames);
    if |frames| == 1 {
      assert more == events + AllStripped(frames);
    } else {
      AllFrames(more, frames[1..], stop);
    }
  }

  /** So reading up to a count, or up to the first event of a type, gives back exactly the frames up to there,
      stripped, whatever follows. */
  lemma RoundTrip(frames: seq<Frame>, tail: string, stop: Stop)
    requires frames != [] && OneLiners(frames) && Plain(frames, stop)
    requires stop.count == 0 || |frames| <= stop.count
    requires stop.count == |frames|
             || (stop.kind != "" && stop.decode(Strip(frames[|frames| - 1].payload)) == Some(stop.kind))
    ensures ReadFrom(FRESH, Stream(frames) + tail, stop) == Found(AllStripped(frames))
  {
    ReadFrames([], frames, tail, stop);
    AllFrames([], frames, stop);
    assert [] + AllStripped(frames) == AllStripped(frames);
  }

  function Sent(frames: seq<Frame>): seq<Received> {
    seq(|frames|, i requires 0 <= i < |frames| => Received(frames[i].event, frames[i].payload))
  }

  predicate Tidy(f: Frame) {
    Trimmed(f.event, IsPythonSpace) && Trimmed(f.payload, IsPythonSpace)
  }

  /** One-line frames arrive unchanged exactly when no event name or payload has outer white space. */
  lemma RoundTripIff(frames: seq<Frame>, tail: string, stop: Stop)
    requires frames != [] && OneLiners(frames) && Plain(frames, stop) && stop.count == |frames|
    ensures ReadFrom(FRESH, Stream(frames) + tail, stop) == Found(Sent(frames))
            <==> forall i :: 0 <= i < |frames| ==> Tidy(frames[i])
  {
    RoundTrip(frames, tail, stop);
    forall i | 0 <= i < |frames| ensures AllStripped(frames)[i] == Sent(frames)[i] <==> Tidy(frames[i]) {
      TrimIsTrimmed(frames[i].event, IsPythonSpace);
      TrimIsTrimmed(frames[i].payload, IsPythonSpace);
    }
    if forall i :: 0 <= i < |frames| ==> Tidy(frames[i]) {
      assert AllStripped(frames) == Sent(frames);
    }
  }

  // ---- the id a browser resumes with ----

  /** What a field line makes of the last event id, by section 9.2.6 of the HTML standard. */
  function IdAfter(line: string, seen: string): string {
    if line == "id" then ""
    else if !StartsWith(line, "id:") then seen
    else
      var value := if StartsWith(line[3..], " ") then line[4..] else line[3..];
      if '\0' in value then seen else value
  }

  /** The last event id after the complete lines of a stream. */
  function LastId(s: string, seen: string): string
    decreases |s|
  {
    if LineLength(s) == |s| then seen else LastId(Rest(s), IdAfter(s[..LineLength(s)], seen))
  }

  /** No part of the frame breaks its line, by a carriage return either, and the id has no null character. */
  predicate Unbroken(f: Frame) {
    OneLiner(f) && '\r' !in f.id && '\r' !in f.event && '\r' !in f.payload && '\0' !in f.id
  }

  lemma IdOfLine(line: string, tail: string, seen: string)
    requires OneLine(line)
    ensures LastId(line + "\n" + tail, seen) == LastId(tail, IdAfter(line, seen))
  {
    LineLengthOf(line, tail);
    assert (line + "\n" + tail)[..|line|] == line;
  }

  lemma IdOfOther(line: string, tail: string, seen: string)
    requires OneLine(line) && (line == "" || line[0] != 'i')
    ensures LastId(line + "\n" + tail, seen) == LastId(tail, seen)
  {
    IdOfLine(line, tail, seen);
    assert "id"[0] == 'i' && "id:"[0] == 'i';
  }

  lemma IdOfIdLine(id: string, tail: string, seen: string)
    requires OneLine(id) && '\0' !in id
    ensures LastId(IdLine(id) + tail, seen) == LastId(tail, if id != "" then id else seen)
  {
    if id == "" {
      assert IdLine(id) + tail == tail;
    } else {
      OneLinePlus("id: ", id);
      IdOfLine("id: " + id, tail, seen);
      assert IdLine(id) + tail == "id: " + id + "\n" + tail;
      assert ("id: " + id)[3..] == " " + id && ("id: " + id)[4..] == id;
    }
  }

  lemma IdOfEventLine(event: string, tail: string, seen: string)
    requires OneLine(event)
    ensures LastId(EventLine(event) + tail, seen) == LastId(tail, seen)
  {
    if event == "" {
      assert EventLine(event) + tail == tail;
    } else {
      OneLinePlus("event: ", event);
      IdOfOther("event: " + event, tail, seen);
      assert EventLine(event) + tail == "event: " + event + "\n" + tail;
    }
  }

  lemma IdOfDataLine(payload: string, tail: string, seen: string)
    requires OneLine(payload)
    ensures LastId("data: " + payload + "\n\n" + tail, seen) == LastId(tail, seen)
  {
    var line, rest := "data: " + payload, "" + "\n" + tail;
    OneLinePlus("data: ", payload);
    assert line + "\n\n" + tail == line + "\n" + rest;
    IdOfOther(line, rest, seen);
    IdOfOther("", tail, seen);
  }

  lemma IdOfFrame(f: Frame, tail: string, seen: string)
    requires Unbroken(f)
    ensures LastId(FrameText(f) + tail, seen) == LastId(tail, if f.id != "" then f.id else seen)
  {
    var last, rest := if f.id != "" then f.id else seen, "data: " + f.payload + "\n\n" + tail;
    assert FrameText(f) + tail == IdLine(f.id) + (EventLine(f.event) + rest);
    IdOfIdLine(f.id, EventLine(f.event) + rest, seen);
    IdOfEventLine(f.event, rest, last);
    IdOfDataLine(f.payload, tail, last);
  }

  /** The last id given, if any. */
  function LastGiven(frames: seq<Frame>, seen: string): string {
    if frames == [] then seen else LastGiven(frames[1..], if frames[0].id != "" then frames[0].id else seen)
  }

  predicate AllUnbroken(frames: seq<Frame>) {
    forall i :: 0 <= i < |frames| ==> Unbroken(frames[i])
  }

  lemma {:induction false} IdOfStream(frames: seq<Frame>, tail: string, seen: string)
    requires AllUnbroken(frames)
    ensures LastId(Stream(frames) + tail, seen) == LastId(tail, LastGiven(frames, seen))
    decreases |frames|
  {
    if frames == [] {
      assert Stream(frames) + tail == tail;
    } else {
      StreamSplit(frames, tail);
      IdOfFrame(frames[0], Stream(frames[1..]) + tail, seen);
      IdOfStream(frames[1..], tail, if frames[0].id != "" then frames[0].id else seen);
    }
  }

  lemma {:induction false} LastGivenIs(frames: seq<Frame>, seen: string, i: nat)
    requires i < |frames| && frames[i].id != "" && forall j :: i < j < |frames| ==> frames[j].id == ""
    ensures LastGiven(frames, seen) == frames[i].id
    decreases |frames|
  {
    var given := if frames[0].id != "" then frames[0].id else seen;
    if i > 0 {
      LastGivenIs(frames[1..], given, i - 1);
    } else {
      NoneGiven(frames[1..], given);
    }
  }

  lemma {:induction false} NoneGiven(frames: seq<Frame>, seen: string)
    requires forall j :: 0 <= j < |frames| ==> frames[j].id == ""
    ensures LastGiven(frames, seen) == seen
    decreases |frames|
  {
    if frames != [] {
      NoneGiven(frames[1..], seen);
    }
  }

  /** After a written stream a browser resumes with the id of the last frame that has one: nothing in an event name
      or a payload can stand in for it. */
  lemma LastIdOfStream(frames: seq<Frame>, seen: string, i: nat)
    requires AllUnbroken(frames)
    requires i < |frames| && frames[i].id != "" && forall j :: i < j < |frames| ==> frames[j].id == ""
    ensures LastId(Stream(frames), seen) == frames[i].id
  {
    IdOfStream(frames, "", seen);
    assert Stream(frames) + "" == Stream(frames);
    LastGivenIs(frames, seen, i);
  }

  // ---- the sequence check ----

  /** `assert_strictly_increasing` compares neighbours only, which settles every pair. */
  method CheckStrictlyIncreasing(values: seq<int>) returns (increasing: bool)
    ensures increasing <==> forall i, j :: 0 <= i < j < |values| ==> values[i] < values[j]
  {
    var i := 1;
    while i < |values|
      invariant 1 <= i && (values != [] ==> i <= |values|)
      invariant forall j, k :: 0 <= j < k < |values| && k < i ==> values[j] < values[k]
    {
      if values[i] <= values[i - 1] {
        return false;
      }
      i := i + 1;
    }
    return true;
  }
}

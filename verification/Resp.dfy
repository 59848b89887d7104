/** The RESP command encoder and reply reader of scripts/smoke_redis_capacity.py, on bytes. */
module Resp {

  newtype byte = b: int | 0 <= b < 256

  const CR: byte := 13
  const LF: byte := 10
  const UNDERSCORE: byte := 95
  const CRLF := [CR, LF]

  datatype Value =
    | Simple(line: seq<byte>) | ErrorReply(line: seq<byte>) | Number(n: int)
    | Null | Bulk(data: seq<byte>) | Array(items: seq<Value>)

  datatype Fault = Closed | BadNumber | BadLength | BadText | Unsupported

  datatype Reading<+T> = Read(value: T, rest: seq<byte>) | Failed(fault: Fault)

  // ---- decimal numbers ----

  predicate IsDigit(b: byte) {
    48 <= b <= 57
  }

  predicate IsSpace(b: byte) {
    9 <= b <= 13 || b == 32
  }

  function Digits(n: nat): seq<byte> {
    if n < 10 then [(48 + n) as byte] else Digits(n / 10) + [(48 + n % 10) as byte]
  }

  function StripLeft(s: seq<byte>): seq<byte> {
    if s != [] && IsSpace(s[0]) then StripLeft(s[1..]) else s
  }

  function StripRight(s: seq<byte>): seq<byte> {
    if s != [] && IsSpace(s[|s| - 1]) then StripRight(s[..|s| - 1]) else s
  }

  /** Python's digit strings: digits, with single underscores between them. */
  predicate IsNumeral(s: seq<byte>) {
    && s != [] && IsDigit(s[0]) && IsDigit(s[|s| - 1])
    && (forall i :: 0 <= i < |s| ==> IsDigit(s[i]) || s[i] == UNDERSCORE)
    && forall i :: 0 < i < |s| ==> s[i] != UNDERSCORE || s[i - 1] != UNDERSCORE
  }

  function Numeral(s: seq<byte>): int {
    if s == [] then 0
    else
      var front, last := s[..|s| - 1], s[|s| - 1];
      if IsDigit(last) then 10 * Numeral(front) + (last as int - 48) else Numeral(front)
  }

  /** Python's `int` of a byte string; no value where it raises. */
  function ParseInt(line: seq<byte>): Reading<int> {
    var s := StripRight(StripLeft(line));
    if s != [] && s[0] == 45 && IsNumeral(s[1..]) then Read(-Numeral(s[1..]), [])
    else if s != [] && s[0] == 43 && IsNumeral(s[1..]) then Read(Numeral(s[1..]), [])
    else if IsNumeral(s) then Read(Numeral(s), [])
    else Failed(BadNumber)
  }

  lemma {:induction false} DigitsAreNumeral(n: nat)
    ensures Digits(n) != [] && forall i :: 0 <= i < |Digits(n)| ==> IsDigit(Digits(n)[i])
    ensures Numeral(Digits(n)) == n
  {
    if n >= 10 {
      DigitsAreNumeral(n / 10);
      assert Digits(n)[..|Digits(n)| - 1] == Digits(n / 10);
    } else {
      assert Numeral([]) == 0;
    }
  }

  /** Reading a printed number gives it back. */
  lemma ParseDigits(n: nat)
    ensures ParseInt(Digits(n)) == Read(n, [])
  {
    DigitsAreNumeral(n);
    var s := Digits(n);
    assert IsDigit(s[0]) && IsDigit(s[|s| - 1]);
    assert StripLeft(s) == s && StripRight(s) == s;
  }

  // ---- the stream ----

  /** `readline`: up to and with the next line feed, or everything. */
  function Line(s: seq<byte>): seq<byte> {
    if s == [] then [] else if s[0] == LF then [LF] else [s[0]] + Line(s[1..])
  }

  lemma {:induction false} LineIsPrefix(s: seq<byte>)
    ensures |Line(s)| <= |s| && Line(s) == s[..|Line(s)|]
  {
    if s != [] && s[0] != LF {
      LineIsPrefix(s[1..]);
    }
  }

  function AfterLine(s: seq<byte>): seq<byte> {
    LineIsPrefix(s);
    s[|Line(s)|..]
  }

  /** `rstrip(b"\r\n")`: drops every trailing CR and LF. */
  function Chomp(s: seq<byte>): seq<byte> {
    if s != [] && (s[|s| - 1] == CR || s[|s| - 1] == LF) then Chomp(s[..|s| - 1]) else s
  }

  function Take(s: seq<byte>, n: nat): seq<byte> {
    if n <= |s| then s[..n] else s
  }

  function Drop(s: seq<byte>, n: nat): seq<byte> {
    if n <= |s| then s[n..] else []
  }

  // ---- texts ----

  predicate Continues(b: byte) {
    0x80 <= b <= 0xBF
  }

  /** The length of the well-formed UTF-8 character that s begins with (section 4 of RFC 3629), 0 if it begins
      with none. */
  function CharLength(s: seq<byte>): (n: nat)
    requires s != []
    ensures n <= |s|
  {
    if s[0] < 0x80 then 1
    else if |s| < 2 then 0
    else if 0xC2 <= s[0] <= 0xDF && Continues(s[1]) then 2
    else if |s| < 3 || !Continues(s[2]) then 0
    else if s[0] == 0xE0 && 0xA0 <= s[1] <= 0xBF then 3
    else if (0xE1 <= s[0] <= 0xEC || 0xEE <= s[0] <= 0xEF) && Continues(s[1]) then 3
    else if s[0] == 0xED && 0x80 <= s[1] <= 0x9F then 3
    else if |s| < 4 || !Continues(s[3]) then 0
    else if s[0] == 0xF0 && 0x90 <= s[1] <= 0xBF then 4
    else if 0xF1 <= s[0] <= 0xF3 && Continues(s[1]) then 4
    else if s[0] == 0xF4 && 0x80 <= s[1] <= 0x8F then 4
    else 0
  }

  /** What Python's strict `decode("utf-8")` accepts. */
  predicate IsUtf8(s: seq<byte>)
    decreases |s|
  {
    s == [] || (CharLength(s) > 0 && IsUtf8(s[CharLength(s)..]))
  }

  lemma {:induction false} AsciiIsUtf8(s: seq<byte>)
    requires forall i :: 0 <= i < |s| ==> s[i] < 0x80
    ensures IsUtf8(s)
    decreases |s|
  {
    if s != [] {
      AsciiIsUtf8(s[1..]);
    }
  }

  /** Bytes that no character has, or that would be longer than need be. */
  lemma {:induction false} NeverUtf8(s: seq<byte>, i: nat)
    requires i < |s| && (s[i] == 0xC0 || s[i] == 0xC1 || s[i] >= 0xF5)
    ensures !IsUtf8(s)
    decreases |s|
  {
    var n := CharLength(s);
    if n > 0 && n <= i {
      NeverUtf8(s[n..], i - n);
    }
  }

  // ---- the reader ----

  function ReadBulk(line: seq<byte>, rest: seq<byte>): Reading<Value> {
    match ParseInt(line)
    case Failed(fault) => Failed(fault)
    case Read(n, _) =>
      if n == -1 then Read(Null, rest)
      else if n < 0 then Failed(BadLength)
      else Read(Bulk(Take(rest, n)), Drop(Drop(rest, n), 2))
  }

  function ReadResp(s: seq<byte>): (r: Reading<Value>)
    ensures r.Read? ==> |r.rest| < |s|
    decreases |s|, 0, 0
  {
    if s == [] then Failed(Closed)
    else
      LineIsPrefix(s[1..]);
      var line, rest := Chomp(Line(s[1..])), AfterLine(s[1..]);
      match s[0]
      case 43 => if IsUtf8(line) then Read(Simple(line), rest) else Failed(BadText)
      case 45 => Read(ErrorReply(line), rest)
      case 58 => ReadNumber(line, rest)
      case 36 => ReadBulk(line, rest)
      case 42 => ReadArray(line, rest)
      case _ => Failed(Unsupported)
  }

  function ReadNumber(line: seq<byte>, rest: seq<byte>): Reading<Value> {
    match ParseInt(line)
    case Failed(fault) => Failed(fault)
    case Read(n, _) => Read(Number(n), rest)
  }

  function ReadArray(line: seq<byte>, rest: seq<byte>): (r: Reading<Value>)
    ensures r.Read? ==> |r.rest| <= |rest|
    decreases |rest|, 2, 0
  {
    match ParseInt(line)
    case Failed(fault) => Failed(fault)
    case Read(n, _) => if n == -1 then Read(Null, rest) else AsArray(ReadMany(rest, if n < 0 then 0 else n))
  }

  function AsArray(items: Reading<seq<Value>>): Reading<Value> {
    match items
    case Failed(fault) => Failed(fault)
    case Read(values, rest) => Read(Array(values), rest)
  }

  function ReadMany(s: seq<byte>, n: nat): (r: Reading<seq<Value>>)
    ensures r.Read? ==> |r.rest| <= |s| && |r.value| == n
    decreases |s|, 1, n
  {
    if n == 0 then Read([], s)
    else
      match ReadResp(s)
      case Failed(fault) => Failed(fault)
      case Read(first, rest) => Prepend([first], ReadMany(rest, n - 1))
  }

  function Prepend(values: seq<Value>, r: Reading<seq<Value>>): Reading<seq<Value>> {
    match r
    case Failed(fault) => Failed(fault)
    case Read(others, rest) => Read(values + others, rest)
  }

  /** The file object over the socket. */
  class File {
    var rest: seq<byte>

    constructor (bytes: seq<byte>)
      ensures rest == bytes
    {
      rest := bytes;
    }

    method Fetch(n: nat) returns (data: seq<byte>)
      modifies this
      ensures data == Take(old(rest), n) && rest == Drop(old(rest), n)
    {
      data := if n <= |rest| then rest[..n] else rest;
      rest := rest[|data|..];
    }

    method ReadLine() returns (line: seq<byte>)
      modifies this
      ensures line == Line(old(rest)) && rest == AfterLine(old(rest))
    {
      LineIsPrefix(rest);
      var n := 0;
      while n < |rest| && rest[n] != LF
        invariant n <= |rest| && forall i :: 0 <= i < n ==> rest[i] != LF
      {
        n := n + 1;
      }
      line := rest[..if n < |rest| then n + 1 else n];
      LineEnd(rest, n);
      rest := rest[|line|..];
    }
  }

  lemma {:induction false} LineEnd(s: seq<byte>, n: nat)
    requires n <= |s| && (forall i :: 0 <= i < n ==> s[i] != LF) && (n < |s| ==> s[n] == LF)
    ensures Line(s) == s[..if n < |s| then n + 1 else n]
  {
    if n > 0 {
      LineEnd(s[1..], n - 1);
    }
  }

  /** `read_resp`, consuming the file as it goes. */
  method ReadReply(file: File) returns (r: Reading<Value>)
    modifies file
    ensures r == ReadResp(old(file.rest)) && (r.Read? ==> file.rest == r.rest)
    ensures |file.rest| <= old(|file.rest|)
    decreases |file.rest|, 0
  {
    var prefix := file.Fetch(1);
    if prefix == [] {
      return Failed(Closed);
    }
    LineIsPrefix(file.rest);
    var line := file.ReadLine();
    line := Chomp(line);
    match prefix[0]
    case 43 => r := if IsUtf8(line) then Read(Simple(line), file.rest) else Failed(BadText);
    case 45 => r := Read(ErrorReply(line), file.rest);
    case 58 => r := ReadNumber(line, file.rest);
    case 36 => r := ReadBulkReply(file, line);
    case 42 => r := ReadArrayReply(file, line);
    case _ => r := Failed(Unsupported);
  }

  method ReadBulkReply(file: File, line: seq<byte>) returns (r: Reading<Value>)
    modifies file
    ensures r == ReadBulk(line, old(file.rest)) && (r.Read? ==> file.rest == r.rest)
    ensures |file.rest| <= old(|file.rest|)
  {
    match ParseInt(line)
    case Failed(fault) => r := Failed(fault);
    case Read(n, _) =>
      if n == -1 {
        return Read(Null, file.rest);
      }
      if n < 0 {
        return Failed(BadLength);
      }
      var data := file.Fetch(n);
      var _ := file.Fetch(2);
      r := Read(Bulk(data), file.rest);
  }

  method ReadArrayReply(file: File, line: seq<byte>) returns (r: Reading<Value>)
    modifies file
    ensures r == ReadArray(line, old(file.rest)) && (r.Read? ==> file.rest == r.rest)
    ensures |file.rest| <= old(|file.rest|)
    decreases |file.rest|, 2
  {
    match ParseInt(line)
    case Failed(fault) => r := Failed(fault);
    case Read(n, _) =>
      if n == -1 {
        return Read(Null, file.rest);
      }
      var items := ReadReplies(file, if n < 0 then 0 else n);
      r := AsArray(items);
  }

  method ReadReplies(file: File, n: nat) returns (r: Reading<seq<Value>>)
    modifies file
    ensures r == ReadMany(old(file.rest), n) && (r.Read? ==> file.rest == r.rest)
    ensures |file.rest| <= old(|file.rest|)
    decreases |file.rest|, 1
  {
    var values: seq<Value> := [];
    PrependNothing(ReadMany(file.rest, n));
    for i := 0 to n
      invariant |file.rest| <= old(|file.rest|)
      invariant ReadMany(old(file.rest), n) == Prepend(values, ReadMany(file.rest, n - i))
    {
      ghost var before := file.rest;
      var value := ReadReply(file);
      if value.Failed? {
        return Failed(value.fault);
      }
      assert ReadMany(before, n - i) == Prepend([value.value], ReadMany(file.rest, n - i - 1));
      PrependTwice(values, [value.value], ReadMany(file.rest, n - i - 1));
      values := values + [value.value];
    }
    assert values + [] == values;
    return Read(values, file.rest);
  }

  lemma PrependNothing(r: Reading<seq<Value>>)
    ensures Prepend([], r) == r
  {
    if r.Read? {
      assert [] + r.value == r.value;
    }
  }

  lemma PrependTwice(a: seq<Value>, b: seq<Value>, r: Reading<seq<Value>>)
    ensures Prepend(a, Prepend(b, r)) == Prepend(a + b, r)
  {
    if r.Read? {
      assert a + (b + r.value) == a + b + r.value;
    }
  }

  // ---- the encoder ----

  function Chunk(part: seq<byte>): seq<byte> {
    [36] + Digits(|part|) + CRLF + part + CRLF
  }

  function Chunks(parts: seq<seq<byte>>): seq<byte> {
    if parts == [] then [] else Chunk(parts[0]) + Chunks(parts[1..])
  }

  function Encode(parts: seq<seq<byte>>): seq<byte> {
    [42] + Digits(|parts|) + CRLF + Chunks(parts)
  }

  lemma {:induction false} ChunksAppend(parts: seq<seq<byte>>, part: seq<byte>)
    ensures Chunks(parts + [part]) == Chunks(parts) + Chunk(part)
  {
    var all := parts + [part];
    if parts == [] {
      assert all[1..] == [] && all[0] == part;
      assert Chunk(part) + [] == Chunk(part) && [] + Chunk(part) == Chunk(part);
    } else {
      assert all[1..] == parts[1..] + [part] && all[0] == parts[0];
      ChunksAppend(parts[1..], part);
      Associate(Chunk(parts[0]), Chunks(parts[1..]), Chunk(part));
    }
  }

  lemma Associate(a: seq<byte>, b: seq<byte>, c: seq<byte>)
    ensures a + b + c == a + (b + c)
  {
  }

  /** `encode_command`. */
  method EncodeCommand(parts: seq<seq<byte>>) returns (encoded: seq<byte>)
    ensures encoded == Encode(parts)
  {
    encoded := [42] + Digits(|parts|) + CRLF;
    for i := 0 to |parts|
      invariant encoded == [42] + Digits(|parts|) + CRLF + Chunks(parts[..i])
    {
      var data := parts[i];
      ChunksAppend(parts[..i], data);
      assert parts[..i + 1] == parts[..i] + [data];
      encoded := encoded + ([36] + Digits(|data|) + CRLF) + (data + CRLF);
      assert ([36] + Digits(|data|) + CRLF) + (data + CRLF) == Chunk(data);
    }
    assert parts[..|parts|] == parts;
  }

  // ---- the round trip ----

  /** A line that can be told from its end: without line feeds, and without carriage returns at its end. */
  predicate IsLine(line: seq<byte>) {
    (forall i :: 0 <= i < |line| ==> line[i] != LF) && (line != [] ==> line[|line| - 1] != CR)
  }

  lemma ALine(line: seq<byte>, tail: seq<byte>)
    requires IsLine(line)
    ensures Chomp(Line(line + CRLF + tail)) == line && AfterLine(line + CRLF + tail) == tail
  {
    var s := line + CRLF + tail;
    LineEnd(s, |line| + 1);
    assert s[..|line| + 2] == line + [CR] + [LF] && s[|line| + 2..] == tail;
    var both := line + [CR] + [LF];
    assert Chomp(both) == Chomp(line + [CR]) by { assert both[..|line| + 1] == line + [CR]; }
    assert Chomp(line + [CR]) == Chomp(line) by { assert (line + [CR])[..|line|] == line; }
  }

  /** A printed number on a line of its own is read back, and reading goes on after the line. */
  lemma NumberLine(n: nat, tail: seq<byte>)
    ensures Chomp(Line(Digits(n) + CRLF + tail)) == Digits(n)
    ensures AfterLine(Digits(n) + CRLF + tail) == tail
  {
    DigitsAreNumeral(n);
    assert IsDigit(Digits(n)[|Digits(n)| - 1]);
    ALine(Digits(n), tail);
  }

  lemma ReadChunk(part: seq<byte>, tail: seq<byte>)
    ensures ReadResp(Chunk(part) + tail) == Read(Bulk(part), tail)
  {
    var s := Chunk(part) + tail;
    assert s[1..] == Digits(|part|) + CRLF + (part + CRLF + tail);
    NumberLine(|part|, part + CRLF + tail);
    ParseDigits(|part|);
    assert (part + CRLF + tail)[..|part|] == part;
    assert (part + CRLF + tail)[|part|..] == CRLF + tail;
    assert (CRLF + tail)[2..] == tail;
  }

  function Bulks(parts: seq<seq<byte>>): seq<Value> {
    seq(|parts|, i requires 0 <= i < |parts| => Bulk(parts[i]))
  }

  lemma {:induction false} ReadChunks(parts: seq<seq<byte>>, tail: seq<byte>)
    ensures ReadMany(Chunks(parts) + tail, |parts|) == Read(Bulks(parts), tail)
  {
    if parts == [] {
      assert Chunks(parts) + tail == tail;
      assert Bulks(parts) == [];
    } else {
      Associate(Chunk(parts[0]), Chunks(parts[1..]), tail);
      ReadChunk(parts[0], Chunks(parts[1..]) + tail);
      ReadChunks(parts[1..], tail);
      assert [Bulk(parts[0])] + Bulks(parts[1..]) == Bulks(parts);
    }
  }

  /** Reading an encoded command gives its parts back, whatever bytes they hold, and leaves exactly what
      follows it. */
  lemma RoundTrip(parts: seq<seq<byte>>, tail: seq<byte>)
    ensures ReadResp(Encode(parts) + tail) == Read(Array(Bulks(parts)), tail)
  {
    var s := Encode(parts) + tail;
    assert s[1..] == Digits(|parts|) + CRLF + (Chunks(parts) + tail);
    NumberLine(|parts|, Chunks(parts) + tail);
    ParseDigits(|parts|);
    ReadChunks(parts, tail);
  }

  /** So no two commands share an encoding, nor is one the beginning of another's. */
  lemma EncodeInjective(parts: seq<seq<byte>>, others: seq<seq<byte>>, tail: seq<byte>, rest: seq<byte>)
    requires Encode(parts) + tail == Encode(others) + rest
    ensures parts == others && tail == rest
  {
    RoundTrip(parts, tail);
    RoundTrip(others, rest);
    assert Bulks(parts) == Bulks(others);
    forall i | 0 <= i < |parts| ensures parts[i] == others[i] {
      assert Bulks(parts)[i] == Bulks(others)[i];
    }
  }

  // ---- every kind of reply ----

  function Decimal(n: int): seq<byte> {
    if n < 0 then [45] + Digits(-n) else Digits(n)
  }

  /** How a server writes a reply (the RESP2 protocol of Redis). */
  function Print(v: Value): seq<byte>
    decreases v, 0
  {
    match v
    case Simple(line) => [43] + (line + CRLF)
    case ErrorReply(line) => [45] + (line + CRLF)
    case Number(n) => [58] + (Decimal(n) + CRLF)
    case Null => [36] + (Decimal(-1) + CRLF)
    case Bulk(data) => Chunk(data)
    case Array(items) => [42] + (Decimal(|items|) + CRLF) + PrintAll(items)
  }

  function PrintAll(items: seq<Value>): seq<byte>
    decreases items, 1
  {
    if items == [] then [] else Print(items[0]) + PrintAll(items[1..])
  }

  predicate Printable(v: Value)
    decreases v
  {
    match v
    case Simple(line) => IsLine(line) && IsUtf8(line)
    case ErrorReply(line) => IsLine(line)
    case Array(items) => forall i :: 0 <= i < |items| ==> Printable(items[i])
    case _ => true
  }

  lemma DecimalLine(n: int)
    ensures IsLine(Decimal(n)) && ParseInt(Decimal(n)) == Read(n, [])
  {
    DigitsAreNumeral(if n < 0 then -n else n);
    if n < 0 {
      var s, d := Decimal(n), Digits(-n);
      assert s[0] == 45 && s[1..] == d && s[|s| - 1] == d[|d| - 1];
      assert StripLeft(s) == s && StripRight(s) == s;
    } else {
      ParseDigits(n);
    }
  }

  /** One reply with a line of its own, by its first byte. */
  lemma ReadsLine(prefix: byte, line: seq<byte>, tail: seq<byte>)
    requires IsLine(line)
    ensures var s := [prefix] + (line + CRLF) + tail;
            ReadResp(s) == match prefix
                           case 43 => if IsUtf8(line) then Read(Simple(line), tail) else Failed(BadText)
                           case 45 => Read(ErrorReply(line), tail)
                           case 58 => ReadNumber(line, tail)
                           case 36 => ReadBulk(line, tail)
                           case 42 => ReadArray(line, tail)
                           case _ => Failed(Unsupported)
  {
    var s := [prefix] + (line + CRLF) + tail;
    assert s[0] == prefix && s[1..] == line + CRLF + tail;
    ALine(line, tail);
  }

  lemma ReadsNumber(n: int, tail: seq<byte>)
    ensures ReadResp(Print(Number(n)) + tail) == Read(Number(n), tail)
  {
    DecimalLine(n);
    ReadsLine(58, Decimal(n), tail);
  }

  /** A null is a bulk string or an array of length -1. */
  lemma ReadsNull(tail: seq<byte>)
    ensures ReadResp(Print(Null) + tail) == Read(Null, tail)
    ensures ReadResp([42] + (Decimal(-1) + CRLF) + tail) == Read(Null, tail)
  {
    DecimalLine(-1);
    ReadsLine(36, Decimal(-1), tail);
    ReadsLine(42, Decimal(-1), tail);
  }

  lemma ReadsArray(items: seq<Value>, tail: seq<byte>)
    requires ReadMany(PrintAll(items) + tail, |items|) == Read(items, tail)
    ensures ReadResp(Print(Array(items)) + tail) == Read(Array(items), tail)
  {
    DecimalLine(|items|);
    ReadsLine(42, Decimal(|items|), PrintAll(items) + tail);
    assert Print(Array(items)) + tail == [42] + (Decimal(|items|) + CRLF) + (PrintAll(items) + tail);
  }

  /** Whatever a server replies - status, error, number, null, bulk, or arrays of them to any depth - is read back as
      that, and nothing behind it is touched. */
  lemma {:induction false} ReplyRoundTrip(v: Value, tail: seq<byte>)
    requires Printable(v)
    ensures ReadResp(Print(v) + tail) == Read(v, tail)
    decreases v, 0
  {
    match v
    case Simple(line) => ReadsLine(43, line, tail);
    case ErrorReply(line) => ReadsLine(45, line, tail);
    case Number(n) => ReadsNumber(n, tail);
    case Null => ReadsNull(tail);
    case Bulk(data) => ReadChunk(data, tail);
    case Array(items) =>
      RepliesRoundTrip(items, tail);
      ReadsArray(items, tail);
  }

  lemma {:induction false} RepliesRoundTrip(items: seq<Value>, tail: seq<byte>)
    requires forall i :: 0 <= i < |items| ==> Printable(items[i])
    ensures ReadMany(PrintAll(items) + tail, |items|) == Read(items, tail)
    decreases items, 1
  {
    if items == [] {
      assert PrintAll(items) + tail == tail;
    } else {
      Associate(Print(items[0]), PrintAll(items[1..]), tail);
      ReplyRoundTrip(items[0], PrintAll(items[1..]) + tail);
      RepliesRoundTrip(items[1..], tail);
      assert [items[0]] + items[1..] == items;
    }
  }
}

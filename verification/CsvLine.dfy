/** The quoted-cell splitter of the artifact preview (features/artifacts/ArtifactList.tsx). */
module CsvLine {
  import opened Text

  const QUOTE := '"'

  function TrimCell(s: string): string {
    Trim(s, IsJavaScriptSpace)
  }

  // ---- the splitter ----

  /** The cells of what is left of a line, given the cell so far and whether it is inside quotes. */
  function SplitFrom(s: string, current: string, quoted: bool, delimiter: char): (cells: seq<string>)
    ensures cells != []
  {
    if s == "" then [TrimCell(current)]
    else if s[0] == QUOTE && quoted && |s| > 1 && s[1] == QUOTE then
      SplitFrom(s[2..], current + [QUOTE], quoted, delimiter)
    else if s[0] == QUOTE then SplitFrom(s[1..], current, !quoted, delimiter)
    else if s[0] == delimiter && !quoted then [TrimCell(current)] + SplitFrom(s[1..], "", quoted, delimiter)
    else SplitFrom(s[1..], current + [s[0]], quoted, delimiter)
  }

  method SplitDelimitedLine(line: string, delimiter: char) returns (cells: seq<string>)
    ensures cells == SplitFrom(line, "", false, delimiter)
  {
    cells := [];
    var current, quoted, index := "", false, 0;
    while index < |line|
      invariant index <= |line|
      invariant SplitFrom(line, "", false, delimiter) == cells + SplitFrom(line[index..], current, quoted, delimiter)
    {
      ghost var s := line[index..];
      var c := line[index];
      if c == QUOTE && quoted && index + 1 < |line| && line[index + 1] == QUOTE {
        assert s[2..] == line[index + 2..];
        current := current + [QUOTE];
        index := index + 2;
        continue;
      }
      assert s[1..] == line[index + 1..];
      index := index + 1;
      if c == QUOTE {
        quoted := !quoted;
      } else if c == delimiter && !quoted {
        cells := cells + [TrimCell(current)];
        current := "";
      } else {
        current := current + [c];
      }
    }
    cells := cells + [TrimCell(current)];
  }

  // ---- quoting, RFC 4180 section 2, rules 5 to 7 ----

  /** A cell, and whether it is written in quotes. */
  datatype Field = Field(cell: string, quoted: bool)

  /** Rule 6: cells with quotes or delimiters must be quoted; rule 5: the others may be. */
  predicate Allowed(f: Field, delimiter: char) {
    f.quoted || forall i :: 0 <= i < |f.cell| ==> f.cell[i] != QUOTE && f.cell[i] != delimiter
  }

  /** Rule 7: quotes inside quotes are doubled. */
  function Escape(cell: string): string {
    if cell == "" then "" else (if cell[0] == QUOTE then [QUOTE, QUOTE] else [cell[0]]) + Escape(cell[1..])
  }

  function FieldText(f: Field): string {
    if f.quoted then [QUOTE] + (Escape(f.cell) + [QUOTE]) else f.cell
  }

  function Join(fields: seq<Field>, delimiter: char): string
    requires fields != []
  {
    if |fields| == 1 then FieldText(fields[0])
    else FieldText(fields[0]) + ([delimiter] + Join(fields[1..], delimiter))
  }

  function TrimAll(fields: seq<Field>): seq<string> {
    seq(|fields|, i requires 0 <= i < |fields| => TrimCell(fields[i].cell))
  }

  predicate AllAllowed(fields: seq<Field>, delimiter: char) {
    forall i :: 0 <= i < |fields| ==> Allowed(fields[i], delimiter)
  }

  // ---- the round trip ----

  lemma {:induction false} ReadPlain(cell: string, tail: string, current: string, delimiter: char)
    requires Allowed(Field(cell, false), delimiter)
    ensures SplitFrom(cell + tail, current, false, delimiter) == SplitFrom(tail, current + cell, false, delimiter)
    decreases |cell|
  {
    if cell == "" {
      assert cell + tail == tail && current + cell == current;
    } else {
      assert (cell + tail)[1..] == cell[1..] + tail;
      ReadPlain(cell[1..], tail, current + [cell[0]], delimiter);
      assert current + [cell[0]] + cell[1..] == current + cell;
    }
  }

  /** The closing quote is the first that no quote follows. */
  lemma {:induction false} ReadQuoted(cell: string, tail: string, current: string, delimiter: char)
    requires tail == "" || tail[0] != QUOTE
    ensures SplitFrom(Escape(cell) + [QUOTE] + tail, current, true, delimiter)
            == SplitFrom(tail, current + cell, false, delimiter)
    decreases |cell|
  {
    var s := Escape(cell) + [QUOTE] + tail;
    if cell == "" {
      assert s == [QUOTE] + tail && s[1..] == tail && current + cell == current;
    } else if cell[0] == QUOTE {
      assert s == [QUOTE, QUOTE] + (Escape(cell[1..]) + [QUOTE] + tail);
      assert s[2..] == Escape(cell[1..]) + [QUOTE] + tail;
      ReadQuoted(cell[1..], tail, current + [QUOTE], delimiter);
      assert current + [QUOTE] + cell[1..] == current + cell;
    } else {
      assert s == [cell[0]] + (Escape(cell[1..]) + [QUOTE] + tail);
      assert s[1..] == Escape(cell[1..]) + [QUOTE] + tail;
      ReadQuoted(cell[1..], tail, current + [cell[0]], delimiter);
      assert current + [cell[0]] + cell[1..] == current + cell;
    }
  }

  lemma ReadField(f: Field, tail: string, delimiter: char)
    requires delimiter != QUOTE && Allowed(f, delimiter) && (tail == "" || tail[0] == delimiter)
    ensures SplitFrom(FieldText(f) + tail, "", false, delimiter) == SplitFrom(tail, f.cell, false, delimiter)
  {
    assert "" + f.cell == f.cell;
    if f.quoted {
      var s := FieldText(f) + tail;
      assert s[0] == QUOTE && s[1..] == Escape(f.cell) + [QUOTE] + tail;
      ReadQuoted(f.cell, tail, "", delimiter);
    } else {
      ReadPlain(f.cell, tail, "", delimiter);
    }
  }

  /** Splitting joined fields gives back every cell, trimmed, whichever of them were quoted. */
  lemma {:induction false} RoundTrip(fields: seq<Field>, delimiter: char)
    requires fields != [] && delimiter != QUOTE && AllAllowed(fields, delimiter)
    ensures SplitFrom(Join(fields, delimiter), "", false, delimiter) == TrimAll(fields)
  {
    var first := fields[0];
    if |fields| == 1 {
      ReadField(first, "", delimiter);
      assert FieldText(first) + "" == FieldText(first);
    } else {
      var others := fields[1..];
      var tail := [delimiter] + Join(others, delimiter);
      ReadField(first, tail, delimiter);
      assert tail[1..] == Join(others, delimiter);
      RoundTrip(others, delimiter);
      assert [TrimCell(first.cell)] + TrimAll(others) == TrimAll(fields);
    }
  }

  // ---- quotes anywhere in a cell ----

  /** A cell written in pieces, with and without quotes; after a quoted piece comes some plain text, if anything. */
  predicate WellPieced(pieces: seq<Field>, delimiter: char) {
    && AllAllowed(pieces, delimiter)
    && forall i :: 0 <= i < |pieces| - 1 && pieces[i].quoted ==> !pieces[i + 1].quoted && pieces[i + 1].cell != ""
  }

  function PiecesText(pieces: seq<Field>): string {
    if pieces == [] then "" else FieldText(pieces[0]) + PiecesText(pieces[1..])
  }

  /** The cell they stand for: their texts without the quotes. */
  function PiecesCell(pieces: seq<Field>): string {
    if pieces == [] then "" else pieces[0].cell + PiecesCell(pieces[1..])
  }

  lemma ReadPiece(f: Field, tail: string, current: string, delimiter: char)
    requires Allowed(f, delimiter) && (f.quoted && tail != "" ==> tail[0] != QUOTE)
    ensures SplitFrom(FieldText(f) + tail, current, false, delimiter)
            == SplitFrom(tail, current + f.cell, false, delimiter)
  {
    if f.quoted {
      var s := FieldText(f) + tail;
      assert s[0] == QUOTE && s[1..] == Escape(f.cell) + [QUOTE] + tail;
      ReadQuoted(f.cell, tail, current, delimiter);
    } else {
      ReadPlain(f.cell, tail, current, delimiter);
    }
  }

  /** The rest of a well-pieced cell does not begin with a quote that would double the one before it. */
  lemma NoQuoteNext(pieces: seq<Field>, tail: string, delimiter: char)
    requires pieces != [] && WellPieced(pieces, delimiter) && pieces[0].quoted
    requires delimiter != QUOTE && (tail == "" || tail[0] == delimiter)
    ensures var rest := PiecesText(pieces[1..]) + tail; rest != "" ==> rest[0] != QUOTE
  {
    if |pieces| > 1 {
      assert FieldText(pieces[1]) == pieces[1].cell != "";
      assert Allowed(pieces[1], delimiter);
    }
  }

  lemma TailPieced(pieces: seq<Field>, delimiter: char)
    requires pieces != [] && WellPieced(pieces, delimiter)
    ensures Allowed(pieces[0], delimiter) && WellPieced(pieces[1..], delimiter)
  {
  }

  lemma {:induction false} ReadPieces(pieces: seq<Field>, tail: string, current: string, delimiter: char)
    requires WellPieced(pieces, delimiter) && delimiter != QUOTE && (tail == "" || tail[0] == delimiter)
    ensures SplitFrom(PiecesText(pieces) + tail, current, false, delimiter)
            == SplitFrom(tail, current + PiecesCell(pieces), false, delimiter)
    decreases |pieces|
  {
    if pieces == [] {
      assert PiecesText(pieces) + tail == tail && current + PiecesCell(pieces) == current;
    } else {
      var first, rest := pieces[0], PiecesText(pieces[1..]) + tail;
      if first.quoted {
        NoQuoteNext(pieces, tail, delimiter);
      }
      TailPieced(pieces, delimiter);
      assert PiecesText(pieces) + tail == FieldText(first) + rest;
      ReadPiece(first, rest, current, delimiter);
      ReadPieces(pieces[1..], tail, current + first.cell, delimiter);
      assert current + first.cell + PiecesCell(pieces[1..]) == current + PiecesCell(pieces);
    }
  }

  function JoinPieces(fields: seq<seq<Field>>, delimiter: char): string
    requires fields != []
  {
    if |fields| == 1 then PiecesText(fields[0])
    else PiecesText(fields[0]) + ([delimiter] + JoinPieces(fields[1..], delimiter))
  }

  function TrimPieces(fields: seq<seq<Field>>): seq<string> {
    seq(|fields|, i requires 0 <= i < |fields| => TrimCell(PiecesCell(fields[i])))
  }

  /** Quotes may open anywhere in a cell, after leading blanks for one: what they enclose belongs to the cell,
      delimiters and doubled quotes included, and the quotes themselves do not. */
  lemma {:induction false} PiecesRoundTrip(fields: seq<seq<Field>>, delimiter: char)
    requires fields != [] && delimiter != QUOTE
    requires forall i :: 0 <= i < |fields| ==> WellPieced(fields[i], delimiter)
    ensures SplitFrom(JoinPieces(fields, delimiter), "", false, delimiter) == TrimPieces(fields)
  {
    var first := fields[0];
    assert "" + PiecesCell(first) == PiecesCell(first);
    if |fields| == 1 {
      ReadPieces(first, "", "", delimiter);
      assert PiecesText(first) + "" == PiecesText(first);
    } else {
      var others := fields[1..];
      var tail := [delimiter] + JoinPieces(others, delimiter);
      ReadPieces(first, tail, "", delimiter);
      assert tail[1..] == JoinPieces(others, delimiter);
      PiecesRoundTrip(others, delimiter);
      assert [TrimCell(PiecesCell(first))] + TrimPieces(others) == TrimPieces(fields);
    }
  }

  /** A quote that is never closed reaches to the end of the line. */
  lemma {:induction false} Unclosed(text: string, current: string, delimiter: char)
    ensures SplitFrom(Escape(text), current, true, delimiter) == [TrimCell(current + text)]
    decreases |text|
  {
    var s := Escape(text);
    if text == "" {
      assert current + text == current;
    } else if text[0] == QUOTE {
      assert s == [QUOTE, QUOTE] + Escape(text[1..]) && s[2..] == Escape(text[1..]);
      Unclosed(text[1..], current + [QUOTE], delimiter);
      assert SplitFrom(s, current, true, delimiter) == SplitFrom(s[2..], current + [QUOTE], true, delimiter);
      assert current + [QUOTE] + text[1..] == current + text;
    } else {
      assert s == [text[0]] + Escape(text[1..]) && s[1..] == Escape(text[1..]);
      Unclosed(text[1..], current + [text[0]], delimiter);
      assert SplitFrom(s, current, true, delimiter) == SplitFrom(s[1..], current + [text[0]], true, delimiter);
      assert current + [text[0]] + text[1..] == current + text;
    }
  }

  function Cells(fields: seq<Field>): seq<string> {
    seq(|fields|, i requires 0 <= i < |fields| => fields[i].cell)
  }

  /** So the cells come back unchanged exactly when none has outer white space. */
  lemma RoundTripIff(fields: seq<Field>, delimiter: char)
    requires fields != [] && delimiter != QUOTE && AllAllowed(fields, delimiter)
    ensures SplitFrom(Join(fields, delimiter), "", false, delimiter) == Cells(fields)
            <==> forall i :: 0 <= i < |fields| ==> Trimmed(fields[i].cell, IsJavaScriptSpace)
  {
    RoundTrip(fields, delimiter);
    forall i | 0 <= i < |fields|
      ensures TrimAll(fields)[i] == Cells(fields)[i] <==> Trimmed(fields[i].cell, IsJavaScriptSpace)
    {
      TrimIsTrimmed(fields[i].cell, IsJavaScriptSpace);
    }
    if forall i :: 0 <= i < |fields| ==> Trimmed(fields[i].cell, IsJavaScriptSpace) {
      assert TrimAll(fields) == Cells(fields);
    }
  }

  predicate AllTrimmed(cells: seq<string>) {
    forall i :: 0 <= i < |cells| ==> Trimmed(cells[i], IsJavaScriptSpace)
  }

  lemma {:induction false} SplitIsTrimmed(s: string, current: string, quoted: bool, delimiter: char)
    ensures AllTrimmed(SplitFrom(s, current, quoted, delimiter))
    decreases |s|
  {
    TrimIsTrimmed(current, IsJavaScriptSpace);
    if s == "" {
    } else if s[0] == QUOTE && quoted && |s| > 1 && s[1] == QUOTE {
      SplitIsTrimmed(s[2..], current + [QUOTE], quoted, delimiter);
      assert SplitFrom(s, current, quoted, delimiter) == SplitFrom(s[2..], current + [QUOTE], quoted, delimiter);
    } else if s[0] == QUOTE {
      SplitIsTrimmed(s[1..], current, !quoted, delimiter);
    } else if s[0] == delimiter && !quoted {
      SplitIsTrimmed(s[1..], "", quoted, delimiter);
    } else {
      SplitIsTrimmed(s[1..], current + [s[0]], quoted, delimiter);
    }
  }

  function Quoted(cells: seq<string>): seq<Field> {
    seq(|cells|, i requires 0 <= i < |cells| => Field(cells[i], true))
  }

  /** Any line, well-formed or not, has the same cells as its properly quoted form. */
  lemma Normalises(line: string, delimiter: char)
    requires delimiter != QUOTE
    ensures var cells := SplitFrom(line, "", false, delimiter);
            SplitFrom(Join(Quoted(cells), delimiter), "", false, delimiter) == cells
  {
    var cells := SplitFrom(line, "", false, delimiter);
    SplitIsTrimmed(line, "", false, delimiter);
    RoundTripIff(Quoted(cells), delimiter);
    assert Cells(Quoted(cells)) == cells;
  }
}

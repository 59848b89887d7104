/** Trimming, as Go, Python and JavaScript do it over their own white-space sets. */
module Text {

  predicate IsGoSpace(c: char) {
    var n := c as int;
    || 9 <= n <= 13 || n == 32 || n == 0x85 || n == 0xA0 || n == 0x1680
    || 0x2000 <= n <= 0x200A || n == 0x2028 || n == 0x2029 || n == 0x202F || n == 0x205F || n == 0x3000
  }

  predicate IsPythonSpace(c: char) {
    IsGoSpace(c) || 28 <= c as int <= 31
  }

  predicate IsJavaScriptSpace(c: char) {
    c as int == 0xFEFF || (IsGoSpace(c) && c as int != 0x85)
  }

  function TrimLeft(s: string, space: char -> bool): string
  {
    if s != [] && space(s[0]) then TrimLeft(s[1..], space) else s
  }

  function TrimRight(s: string, space: char -> bool): string
  {
    if s != [] && space(s[|s| - 1]) then TrimRight(s[..|s| - 1], space) else s
  }

  function Trim(s: string, space: char -> bool): string
  {
    TrimRight(TrimLeft(s, space), space)
  }

  /** No white space at either end. */
  predicate Trimmed(s: string, space: char -> bool) {
    s == [] || (!space(s[0]) && !space(s[|s| - 1]))
  }

  lemma {:induction false} TrimLeftShape(s: string, space: char -> bool)
    ensures TrimLeft(s, space) == [] || !space(TrimLeft(s, space)[0])
    ensures exists i :: 0 <= i <= |s| && s[i..] == TrimLeft(s, space)
  {
    if s != [] && space(s[0]) {
      TrimLeftShape(s[1..], space);
      var i :| 0 <= i <= |s| - 1 && s[1..][i..] == TrimLeft(s, space);
      assert s[i + 1..] == TrimLeft(s, space);
    } else {
      assert s[0..] == s;
    }
  }

  lemma {:induction false} TrimRightShape(s: string, space: char -> bool)
    ensures TrimRight(s, space) == [] || !space(TrimRight(s, space)[|TrimRight(s, space)| - 1])
    ensures TrimRight(s, space) <= s
  {
    if s != [] && space(s[|s| - 1]) {
      TrimRightShape(s[..|s| - 1], space);
    }
  }

  /** Trimming yields a trimmed text, and leaves exactly the trimmed texts alone. */
  lemma TrimIsTrimmed(s: string, space: char -> bool)
    ensures Trimmed(Trim(s, space), space)
    ensures Trim(s, space) == s <==> Trimmed(s, space)
  {
    TrimLeftShape(s, space);
    TrimRightShape(TrimLeft(s, space), space);
  }

  /** Leading white space does not change the trimmed text. */
  lemma TrimIgnoresLeading(c: char, s: string, space: char -> bool)
    requires space(c)
    ensures Trim([c] + s, space) == Trim(s, space)
  {
    assert ([c] + s)[1..] == s;
  }

  /** Trailing white space does not change the trimmed text. */
  lemma {:induction false} TrimIgnoresTrailing(s: string, c: char, space: char -> bool)
    requires space(c)
    ensures Trim(s + [c], space) == Trim(s, space)
  {
    if s != [] && space(s[0]) {
      assert (s + [c])[1..] == s[1..] + [c];
      TrimIgnoresTrailing(s[1..], c, space);
    } else if s == [] {
      assert (s + [c])[1..] == [];
    } else {
      assert (s + [c])[..|s|] == s;
    }
  }
}

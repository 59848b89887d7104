/** Slash-separated paths in the order of Go's `sort.Strings`. */
module Paths {

  /** Strictly before, comparing character by character. */
  predicate Before(a: string, b: string) {
    b != "" && (a == "" || a[0] < b[0] || (a[0] == b[0] && Before(a[1..], b[1..])))
  }

  lemma {:induction false} BeforeTransitive(a: string, b: string, c: string)
    requires Before(a, b) && Before(b, c)
    ensures Before(a, c)
  {
    if a != "" && a[0] == b[0] && b[0] == c[0] {
      BeforeTransitive(a[1..], b[1..], c[1..]);
    }
  }

  lemma {:induction false} BeforeIsTotal(a: string, b: string)
    ensures a == b || Before(a, b) || Before(b, a)
    ensures !(Before(a, b) && Before(b, a)) && !Before(a, a)
  {
    if a != "" {
      BeforeIsTotal(a[1..], a[1..]);
    }
    if a != "" && b != "" && a[0] == b[0] {
      BeforeIsTotal(a[1..], b[1..]);
      assert a[1..] == b[1..] ==> a == [a[0]] + a[1..] == b;
    }
  }

  /** Ascending without repetition. */
  predicate Ordered(s: seq<string>) {
    forall i, j :: 0 <= i < j < |s| ==> Before(s[i], s[j])
  }

  function Insert(x: string, s: seq<string>): seq<string> {
    if s == [] || Before(x, s[0]) then [x] + s else [s[0]] + Insert(x, s[1..])
  }

  /** `sort.Strings`. */
  function Sort(s: seq<string>): seq<string> {
    if s == [] then [] else Insert(s[|s| - 1], Sort(s[..|s| - 1]))
  }

  lemma {:induction false} InsertMembers(x: string, s: seq<string>)
    ensures forall y :: y in Insert(x, s) <==> y == x || y in s
  {
    if s != [] && !Before(x, s[0]) {
      InsertMembers(x, s[1..]);
      assert s == [s[0]] + s[1..];
    }
  }

  lemma {:induction false} InsertOrdered(x: string, s: seq<string>)
    requires Ordered(s) && x !in s
    ensures Ordered(Insert(x, s))
  {
    if s == [] {
    } else if Before(x, s[0]) {
      forall i | 0 <= i < |s| ensures Before(x, s[i]) {
        if i > 0 { BeforeTransitive(x, s[0], s[i]); }
      }
    } else {
      BeforeIsTotal(x, s[0]);
      InsertOrdered(x, s[1..]);
      InsertMembers(x, s[1..]);
      var rest := Insert(x, s[1..]);
      forall i | 0 <= i < |rest| ensures Before(s[0], rest[i]) {
        assert rest[i] in rest;
        if rest[i] != x {
          var k :| 1 <= k < |s| && s[k] == rest[i];
        }
      }
    }
  }

  predicate NoRepeats(s: seq<string>) {
    forall i, j :: 0 <= i < j < |s| ==> s[i] != s[j]
  }

  /** Sorting distinct paths yields them in order, none lost and none added. */
  lemma {:induction false} SortOrdered(s: seq<string>)
    requires NoRepeats(s)
    ensures Ordered(Sort(s)) && forall x :: x in Sort(s) <==> x in s
  {
    if s != [] {
      var front, last := s[..|s| - 1], s[|s| - 1];
      assert s == front + [last];
      SortOrdered(front);
      InsertOrdered(last, Sort(front));
      InsertMembers(last, Sort(front));
    }
  }

  lemma FirstIsLeast(a: seq<string>, x: string)
    requires Ordered(a) && x in a && x != a[0]
    ensures Before(a[0], x)
  {
    var i :| 0 <= i < |a| && a[i] == x;
  }

  lemma TailMembers(a: seq<string>, x: string)
    requires a != [] && Ordered(a)
    ensures x in a[1..] <==> x in a && x != a[0]
  {
    BeforeIsTotal(a[0], a[0]);
    assert a == [a[0]] + a[1..];
    forall i | 0 <= i < |a| - 1 ensures a[1..][i] != a[0] {
      assert Before(a[0], a[i + 1]);
    }
  }

  /** There is only one way to put a set of paths in order. */
  lemma {:induction false} OrderedIsUnique(a: seq<string>, b: seq<string>)
    requires Ordered(a) && Ordered(b) && forall x :: x in a <==> x in b
    ensures a == b
  {
    if a == [] {
      assert forall i :: 0 <= i < |b| ==> b[i] in b;
    } else {
      assert a[0] in b && b != [];
      assert b[0] in a;
      if a[0] != b[0] {
        FirstIsLeast(a, b[0]);
        FirstIsLeast(b, a[0]);
        BeforeIsTotal(a[0], b[0]);
      }
      forall x ensures x in a[1..] <==> x in b[1..] {
        TailMembers(a, x);
        TailMembers(b, x);
      }
      OrderedIsUnique(a[1..], b[1..]);
      assert a == [a[0]] + a[1..] && b == [b[0]] + b[1..];
    }
  }
}

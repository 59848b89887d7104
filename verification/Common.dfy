/** Shared vocabulary: optional values and sums over sequences. */
module Common {

  datatype Option<+T> = None | Some(value: T)

  /** Sum of a measure over all elements of a sequence. */
  function Sum<T>(s: seq<T>, f: T -> int): int
  {
    if s == [] then 0 else Sum(s[..|s| - 1], f) + f(s[|s| - 1])
  }

  lemma SumAppend<T>(s: seq<T>, x: T, f: T -> int)
    ensures Sum(s + [x], f) == Sum(s, f) + f(x)
  {
    assert (s + [x])[..|s|] == s;
  }

  lemma {:induction false} SumUpdate<T>(s: seq<T>, i: nat, x: T, f: T -> int)
    requires i < |s|
    ensures Sum(s[i := x], f) == Sum(s, f) - f(s[i]) + f(x)
  {
    var n := |s| - 1;
    if i < n {
      assert s[i := x][..n] == s[..n][i := x];
      SumUpdate(s[..n], i, x, f);
    } else {
      assert s[i := x][..n] == s[..n];
    }
  }

  lemma {:induction false} SumMonotone<T>(s: seq<T>, f: T -> int, g: T -> int)
    requires forall x :: x in s ==> f(x) <= g(x)
    ensures Sum(s, f) <= Sum(s, g)
  {
    if s != [] {
      SumMonotone(s[..|s| - 1], f, g);
    }
  }

  lemma {:induction false} SumEqual<T>(s: seq<T>, f: T -> int, g: T -> int)
    requires forall x :: x in s ==> f(x) == g(x)
    ensures Sum(s, f) == Sum(s, g)
  {
    SumMonotone(s, f, g);
    SumMonotone(s, g, f);
  }

  lemma {:induction false} SumNonNegative<T>(s: seq<T>, f: T -> int)
    requires forall x :: x in s ==> 0 <= f(x)
    ensures 0 <= Sum(s, f)
    ensures forall x :: x in s ==> f(x) <= Sum(s, f)
  {
    if s != [] {
      SumNonNegative(s[..|s| - 1], f);
      assert s == s[..|s| - 1] + [s[|s| - 1]];
    }
  }

  /** The state after a run: the given steps, taken one after the other. */
  function Iterate<S, A>(step: (S, A) -> S, s: S, actions: seq<A>): S
  {
    if actions == [] then s
    else step(Iterate(step, s, actions[..|actions| - 1]), actions[|actions| - 1])
  }

  lemma IterateThen<S, A>(step: (S, A) -> S, s: S, actions: seq<A>, a: A)
    ensures Iterate(step, s, actions + [a]) == step(Iterate(step, s, actions), a)
  {
    assert (actions + [a])[..|actions|] == actions;
  }

  lemma {:induction false} IterateConcat<S, A>(step: (S, A) -> S, s: S, a: seq<A>, b: seq<A>)
    ensures Iterate(step, s, a + b) == Iterate(step, Iterate(step, s, a), b)
  {
    if b == [] {
      assert a + b == a;
    } else {
      var n := |b| - 1;
      IterateConcat(step, s, a, b[..n]);
      assert a + b == (a + b[..n]) + [b[n]];
      IterateThen(step, s, a + b[..n], b[n]);
    }
  }

  lemma IterateFour<S, A>(step: (S, A) -> S, s: S, a: A, b: A, c: A, d: A)
    ensures Iterate(step, s, [a, b]) == step(step(s, a), b)
    ensures Iterate(step, s, [a, b, c, d]) == step(step(step(step(s, a), b), c), d)
  {
    IterateThen(step, s, [], a);
    IterateThen(step, s, [a], b);
    IterateThen(step, s, [a, b], c);
    IterateThen(step, s, [a, b, c], d);
    assert [] + [a] == [a] && [a] + [b] == [a, b] && [a, b] + [c] == [a, b, c] && [a, b, c] + [d] == [a, b, c, d];
  }
}

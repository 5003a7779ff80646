/** Appending loops: what a loop that appends f(x) for each x in turn leaves behind. */
module Lists {

  function FlatMap<T, U>(f: T -> seq<U>, xs: seq<T>): seq<U> {
    if xs == [] then [] else FlatMap(f, xs[..|xs| - 1]) + f(xs[|xs| - 1])
  }

  lemma FlatMapStep<T, U>(f: T -> seq<U>, xs: seq<T>, i: nat)
    requires i < |xs|
    ensures FlatMap(f, xs[..i + 1]) == FlatMap(f, xs[..i]) + f(xs[i])
  {
    assert xs[..i + 1][..i] == xs[..i];
  }

  function Map<T, U>(f: T -> U, xs: seq<T>): (ys: seq<U>)
    ensures |ys| == |xs| && forall i | 0 <= i < |xs| :: ys[i] == f(xs[i])
  {
    seq(|xs|, i requires 0 <= i < |xs| => f(xs[i]))
  }

  lemma MapConcat<T, U>(f: T -> U, a: seq<T>, b: seq<T>)
    ensures Map(f, a + b) == Map(f, a) + Map(f, b)
  {
  }

  /** Taking one element out of a list. */
  lemma RemoveAt<T>(xs: seq<T>, i: nat)
    requires i < |xs|
    ensures multiset(xs[..i] + xs[i + 1..]) == multiset(xs) - multiset{xs[i]}
  {
    assert xs == xs[..i] + [xs[i]] + xs[i + 1..];
  }

  lemma IndexIn<T>(xs: seq<T>, x: T) returns (i: nat)
    requires x in multiset(xs)
    ensures i < |xs| && xs[i] == x
  {
    assert x in xs;
    i :| 0 <= i < |xs| && xs[i] == x;
  }

  lemma EmptyContents<T>(a: seq<T>, b: seq<T>)
    requires multiset(a) == multiset(b)
    ensures |a| == |b|
  {
    assert |multiset(a)| == |a| && |multiset(b)| == |b|;
  }

  /** Takes out one element, and its image out of the mapped list. */
  lemma TakeOut<T, U>(f: T -> U, xs: seq<T>, x: T) returns (rest: seq<T>)
    requires x in multiset(xs)
    ensures |rest| == |xs| - 1
    ensures multiset(rest) == multiset(xs) - multiset{x}
    ensures multiset(Map(f, xs)) == multiset(Map(f, rest)) + multiset{f(x)}
  {
    var i := IndexIn(xs, x);
    rest := xs[..i] + xs[i + 1..];
    RemoveAt(xs, i);
    MapSplit(f, xs, i);
  }

  lemma {:induction false} MapContents<T, U>(f: T -> U, a: seq<T>, b: seq<T>)
    requires multiset(a) == multiset(b)
    ensures multiset(Map(f, a)) == multiset(Map(f, b))
    decreases |a|
  {
    EmptyContents(a, b);
    if a != [] {
      var x := a[0];
      assert x in multiset(a);
      var ra := TakeOut(f, a, x);
      var rb := TakeOut(f, b, x);
      MapContents(f, ra, rb);
    }
  }

  lemma InsertContents<T>(a: seq<T>, x: T, b: seq<T>)
    ensures multiset(a + [x] + b) == multiset(a + b) + multiset{x}
  {
  }

  lemma MapSplit<T, U>(f: T -> U, b: seq<T>, i: nat)
    requires i < |b|
    ensures multiset(Map(f, b)) == multiset(Map(f, b[..i] + b[i + 1..])) + multiset{f(b[i])}
  {
    var x, y := b[..i], b[i + 1..];
    MapConcat(f, x, y);
    MapAround(f, x, b[i], y);
    assert b == x + [b[i]] + y;
    assert Map(f, b) == Map(f, x) + [f(b[i])] + Map(f, y);
    InsertContents(Map(f, x), f(b[i]), Map(f, y));
  }

  lemma MapAround<T, U>(f: T -> U, a: seq<T>, x: T, b: seq<T>)
    ensures Map(f, a + [x] + b) == Map(f, a) + [f(x)] + Map(f, b)
  {
  }

  lemma {:induction false} FlatMapConcat<T, U>(f: T -> seq<U>, a: seq<T>, b: seq<T>)
    ensures FlatMap(f, a + b) == FlatMap(f, a) + FlatMap(f, b)
  {
    if b == [] {
      assert a + b == a;
    } else {
      var n := |b| - 1;
      assert (a + b)[..|a| + n] == a + b[..n];
      FlatMapConcat(f, a, b[..n]);
    }
  }

  lemma FlatMapTakeOut<T, U>(f: T -> seq<U>, xs: seq<T>, x: T) returns (rest: seq<T>)
    requires x in multiset(xs)
    ensures |rest| == |xs| - 1
    ensures multiset(rest) == multiset(xs) - multiset{x}
    ensures multiset(FlatMap(f, xs)) == multiset(FlatMap(f, rest)) + multiset(f(x))
  {
    var i := IndexIn(xs, x);
    var a, b := xs[..i], xs[i + 1..];
    rest := a + b;
    RemoveAt(xs, i);
    FlatMapConcat(f, a, b);
    FlatMapConcat(f, a + [x], b);
    FlatMapConcat(f, a, [x]);
    assert FlatMap(f, [x]) == FlatMap(f, []) + f(x) == f(x);
    assert xs == a + [x] + b;
  }

  lemma {:induction false} FlatMapContents<T, U>(f: T -> seq<U>, a: seq<T>, b: seq<T>)
    requires multiset(a) == multiset(b)
    ensures multiset(FlatMap(f, a)) == multiset(FlatMap(f, b))
    decreases |a|
  {
    EmptyContents(a, b);
    if a != [] {
      var x := a[0];
      assert x in multiset(a);
      var ra := FlatMapTakeOut(f, a, x);
      var rb := FlatMapTakeOut(f, b, x);
      FlatMapContents(f, ra, rb);
    }
  }

  lemma {:induction false} FlatMapMember<T, U>(f: T -> seq<U>, xs: seq<T>, y: U)
    ensures y in FlatMap(f, xs) <==> exists x | x in xs :: y in f(x)
  {
    if xs != [] {
      var n := |xs| - 1;
      FlatMapMember(f, xs[..n], y);
      assert xs == xs[..n] + [xs[n]];
    }
  }

  lemma {:induction false} FlatMapEmpty<T, U>(f: T -> seq<U>, xs: seq<T>)
    ensures FlatMap(f, xs) == [] <==> forall x | x in xs :: f(x) == []
  {
    if xs != [] {
      var n := |xs| - 1;
      FlatMapEmpty(f, xs[..n]);
      assert xs == xs[..n] + [xs[n]];
    }
  }

  function UpTo(n: nat): (r: seq<nat>)
    ensures |r| == n && forall i | 0 <= i < n :: r[i] == i
  {
    seq(n, i => i)
  }

  /** A loop over positions that appends f(i) for each i in turn. */
  lemma IndexStep<U>(f: nat -> seq<U>, n: nat, i: nat)
    requires i < n
    ensures FlatMap(f, UpTo(i + 1)) == FlatMap(f, UpTo(i)) + f(i)
  {
    assert UpTo(i + 1)[..i] == UpTo(i);
  }

  /** The set a loop collects when it adds f(x) for each x in turn. */
  function Union<T, U>(f: T -> set<U>, xs: seq<T>): set<U> {
    if xs == [] then {} else Union(f, xs[..|xs| - 1]) + f(xs[|xs| - 1])
  }

  lemma UnionStep<T, U>(f: T -> set<U>, xs: seq<T>, i: nat)
    requires i < |xs|
    ensures Union(f, xs[..i + 1]) == Union(f, xs[..i]) + f(xs[i])
  {
    assert xs[..i + 1][..i] == xs[..i];
  }

  lemma {:induction false} UnionMember<T, U>(f: T -> set<U>, xs: seq<T>, y: U)
    ensures y in Union(f, xs) <==> exists x | x in xs :: y in f(x)
  {
    if xs != [] {
      var n := |xs| - 1;
      UnionMember(f, xs[..n], y);
      assert xs == xs[..n] + [xs[n]];
    }
  }

  lemma Assoc<T>(a: seq<T>, b: seq<T>, c: seq<T>)
    ensures a + b + c == a + (b + c)
  {
  }

  /** No two positions hold the same value. */
  predicate Distinct<T(==)>(xs: seq<T>) {
    forall i, j | 0 <= i < j < |xs| :: xs[i] != xs[j]
  }
}

/** What `sort.Slice` with a key comparison promises, and when that determines the result. */
module Sorting {
  import opened Text

  predicate SortedBy<T>(key: T -> string, s: seq<T>) {
    forall i, j | 0 <= i < j < |s| :: !Before(key(s[j]), key(s[i]))
  }

  /** The contract of a sort on key `key`; the order of equal keys is left open. */
  ghost predicate SortsBy<T(!new)>(sort: seq<T> -> seq<T>, key: T -> string) {
    forall s :: SortedBy(key, sort(s)) && multiset(sort(s)) == multiset(s)
  }

  /** Equal keys occur only on equal elements. */
  predicate KeyDetermines<T(==)>(key: T -> string, s: seq<T>) {
    forall x, y | x in s && y in s && key(x) == key(y) :: x == y
  }

  lemma SameMembers<T>(a: seq<T>, b: seq<T>)
    requires multiset(a) == multiset(b)
    ensures |a| == |b|
    ensures forall x :: x in a <==> x in b
  {
    assert |multiset(a)| == |a| && |multiset(b)| == |b|;
    forall x
      ensures x in a <==> x in b
    {
      assert x in a <==> x in multiset(a);
      assert x in b <==> x in multiset(b);
    }
  }

  lemma FirstIsLeast<T>(key: T -> string, s: seq<T>, x: T)
    requires SortedBy(key, s) && x in s
    ensures !Before(key(x), key(s[0]))
  {
    var k :| 0 <= k < |s| && s[k] == x;
    if k == 0 && Before(key(x), key(x)) {
      BeforeAsymmetric(key(x), key(x));
    }
  }

  lemma HeadsAgree<T>(key: T -> string, a: seq<T>, b: seq<T>)
    requires SortedBy(key, a) && SortedBy(key, b)
    requires multiset(a) == multiset(b) && a != [] && b != []
    ensures key(a[0]) == key(b[0]) && b[0] in a
  {
    SameMembers(a, b);
    FirstIsLeast(key, a, b[0]);
    FirstIsLeast(key, b, a[0]);
    BeforeTotal(key(a[0]), key(b[0]));
  }

  lemma TailContents<T>(s: seq<T>)
    requires s != []
    ensures multiset(s[1..]) == multiset(s) - multiset{s[0]}
    ensures forall x | x in s[1..] :: x in s
  {
    assert s == [s[0]] + s[1..];
  }

  lemma SortedTail<T>(key: T -> string, s: seq<T>)
    requires SortedBy(key, s) && s != []
    ensures SortedBy(key, s[1..])
  {
  }

  /** Two sorted arrangements of the same elements agree when keys determine elements. */
  lemma {:induction false} SortUnique<T>(key: T -> string, a: seq<T>, b: seq<T>)
    requires SortedBy(key, a) && SortedBy(key, b)
    requires multiset(a) == multiset(b) && KeyDetermines(key, a)
    ensures a == b
  {
    SameMembers(a, b);
    if a != [] {
      HeadsAgree(key, a, b);
      assert a[0] == b[0];
      TailContents(a);
      TailContents(b);
      SortedTail(key, a);
      SortedTail(key, b);
      SortUnique(key, a[1..], b[1..]);
      assert a == [a[0]] + a[1..] && b == [b[0]] + b[1..];
    }
  }

  // A sort that keeps the contract, and a second arrangement when a key is ambiguous.

  function Insert<T>(key: T -> string, x: T, s: seq<T>): seq<T> {
    if s == [] || Before(key(x), key(s[0])) then [x] + s else [s[0]] + Insert(key, x, s[1..])
  }

  function InsertionSort<T>(key: T -> string, s: seq<T>): seq<T> {
    if s == [] then [] else Insert(key, s[0], InsertionSort(key, s[1..]))
  }

  lemma {:induction false} InsertContents<T>(key: T -> string, x: T, s: seq<T>)
    ensures multiset(Insert(key, x, s)) == multiset{x} + multiset(s)
  {
    if s != [] && !Before(key(x), key(s[0])) {
      InsertContents(key, x, s[1..]);
      assert s == [s[0]] + s[1..];
    }
  }

  lemma SortedCons<T>(key: T -> string, x: T, s: seq<T>)
    requires SortedBy(key, s)
    requires forall y | y in s :: !Before(key(y), key(x))
    ensures SortedBy(key, [x] + s)
  {
    var r := [x] + s;
    forall i, j | 0 <= i < j < |r|
      ensures !Before(key(r[j]), key(r[i]))
    {
      assert r[j] == s[j - 1];
      if i > 0 {
        assert r[i] == s[i - 1];
      }
    }
  }

  lemma {:induction false} InsertSorts<T>(key: T -> string, x: T, s: seq<T>)
    requires SortedBy(key, s)
    ensures SortedBy(key, Insert(key, x, s))
  {
    if s == [] {
    } else if Before(key(x), key(s[0])) {
      forall y | y in s
        ensures !Before(key(y), key(x))
      {
        FirstIsLeast(key, s, y);
        if Before(key(y), key(x)) {
          BeforeTransitive(key(y), key(x), key(s[0]));
        }
      }
      SortedCons(key, x, s);
    } else {
      var rest := Insert(key, x, s[1..]);
      InsertSorts(key, x, s[1..]);
      InsertContents(key, x, s[1..]);
      forall y | y in rest
        ensures !Before(key(y), key(s[0]))
      {
        assert y in multiset(rest);
        assert y == x || y in s[1..];
        if y in s[1..] {
          FirstIsLeast(key, s, y);
        }
      }
      SortedCons(key, s[0], rest);
    }
  }

  lemma {:induction false} InsertionSortConforms<T>(key: T -> string, s: seq<T>)
    ensures SortedBy(key, InsertionSort(key, s))
    ensures multiset(InsertionSort(key, s)) == multiset(s)
  {
    if s != [] {
      InsertionSortConforms(key, s[1..]);
      InsertSorts(key, s[0], InsertionSort(key, s[1..]));
      InsertContents(key, s[0], InsertionSort(key, s[1..]));
      assert s == [s[0]] + s[1..];
    }
  }

  lemma SwapContents<T>(s: seq<T>, i: nat, j: nat)
    requires i < j < |s|
    ensures multiset(s[i := s[j]][j := s[i]]) == multiset(s)
  {
    var a, b, c := s[..i], s[i + 1..j], s[j + 1..];
    assert s == a + [s[i]] + b + [s[j]] + c;
    assert s[i := s[j]][j := s[i]] == a + [s[j]] + b + [s[i]] + c;
  }

  lemma SwapTied<T>(key: T -> string, a: seq<T>, i: nat, j: nat)
    requires SortedBy(key, a) && i < j < |a|
    requires key(a[i]) == key(a[j]) && a[i] != a[j]
    ensures var b := a[i := a[j]][j := a[i]];
            SortedBy(key, b) && multiset(b) == multiset(a) && b != a
  {
    var b := a[i := a[j]][j := a[i]];
    SwapContents(a, i, j);
    assert forall k | 0 <= k < |a| :: key(b[k]) == key(a[k]);
    assert b[i] != a[i];
  }

  /** A key shared by different elements leaves a sort two arrangements to choose from. */
  lemma AmbiguousSort<T>(key: T -> string, s: seq<T>) returns (a: seq<T>, b: seq<T>)
    requires !KeyDetermines(key, s)
    ensures SortedBy(key, a) && multiset(a) == multiset(s)
    ensures SortedBy(key, b) && multiset(b) == multiset(s)
    ensures a != b
  {
    a := InsertionSort(key, s);
    InsertionSortConforms(key, s);
    SameMembers(a, s);
    var x, y :| x in s && y in s && key(x) == key(y) && x != y;
    assert x in a && y in a;
    var i :| 0 <= i < |a| && a[i] == x;
    var j :| 0 <= j < |a| && a[j] == y;
    if i < j {
      SwapTied(key, a, i, j);
      b := a[i := a[j]][j := a[i]];
    } else {
      SwapTied(key, a, j, i);
      b := a[j := a[i]][i := a[j]];
    }
  }
}

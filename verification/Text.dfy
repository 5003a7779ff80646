/**
 Strings as the program compares, splits and trims them. A string is a sequence of Unicode
 code points; byte order of UTF-8 and code-point order coincide, so `Before` is Go's `<`.
 */
module Text {

  /** Go's `a < b` on strings. */
  predicate Before(a: string, b: string) {
    if b == "" then false
    else if a == "" then true
    else a[0] < b[0] || (a[0] == b[0] && Before(a[1..], b[1..]))
  }

  lemma {:induction false} BeforeAsymmetric(a: string, b: string)
    requires Before(a, b)
    ensures !Before(b, a)
  {
    if a != "" && a[0] == b[0] {
      BeforeAsymmetric(a[1..], b[1..]);
    }
  }

  lemma {:induction false} BeforeTransitive(a: string, b: string, c: string)
    requires Before(a, b) && Before(b, c)
    ensures Before(a, c)
  {
    if a != "" && a[0] == b[0] == c[0] {
      BeforeTransitive(a[1..], b[1..], c[1..]);
    }
  }

  lemma {:induction false} BeforeTotal(a: string, b: string)
    ensures Before(a, b) || Before(b, a) || a == b
  {
    if a != "" && b != "" && a[0] == b[0] {
      BeforeTotal(a[1..], b[1..]);
      assert a == [a[0]] + a[1..] && b == [b[0]] + b[1..];
    }
  }

  /** `strings.HasPrefix`. */
  predicate HasPrefix(s: string, prefix: string) {
    prefix <= s
  }

  /** `strings.Contains`. */
  predicate Contains(s: string, sub: string) {
    exists i | 0 <= i <= |s| :: sub <= s[i..]
  }

  /** `strings.IndexByte`: the first position of `c`, or -1. */
  function IndexOf(s: string, c: char): (i: int)
    ensures -1 <= i < |s|
    ensures i == -1 <==> c !in s
    ensures 0 <= i ==> s[i] == c && c !in s[..i]
  {
    if s == "" then -1
    else if s[0] == c then 0
    else
      var r := IndexOf(s[1..], c);
      if r == -1 then
        assert s == [s[0]] + s[1..];
        -1
      else
        assert s[..r + 1] == [s[0]] + s[1..][..r];
        r + 1
  }

  /** The only index with the two properties of `IndexOf` is its result. */
  lemma IndexOfUnique(s: string, c: char, i: nat)
    requires i < |s| && s[i] == c && c !in s[..i]
    ensures IndexOf(s, c) == i
  {
    var j := IndexOf(s, c);
    assert c in s;
    assert forall k | 0 <= k < i :: s[k] == s[..i][k] && s[k] != c;
    assert forall k | 0 <= k < j :: s[k] == s[..j][k] && s[k] != c;
  }

  /** `strings.SplitN`. */
  function SplitN(s: string, sep: char, n: nat): (parts: seq<string>)
    requires n > 0
    ensures 1 <= |parts| <= n
  {
    var i := IndexOf(s, sep);
    if n == 1 || i == -1 then [s] else [s[..i]] + SplitN(s[i + 1..], sep, n - 1)
  }

  function Join(parts: seq<string>, sep: char): string
    requires parts != []
  {
    if |parts| == 1 then parts[0] else parts[0] + [sep] + Join(parts[1..], sep)
  }

  lemma CutAtFirst(s: string, sep: char)
    requires sep in s
    ensures var i := IndexOf(s, sep); i >= 0 && s == s[..i] + [sep] + s[i + 1..]
  {
  }

  /** Splitting loses nothing. */
  lemma {:induction false} SplitJoins(s: string, sep: char, n: nat)
    requires n > 0
    ensures Join(SplitN(s, sep, n), sep) == s
  {
    if n > 1 && sep in s {
      var i := IndexOf(s, sep);
      var x, t := s[..i], s[i + 1..];
      CutAtFirst(s, sep);
      SplitJoins(t, sep, n - 1);
      JoinCons(x, SplitN(t, sep, n - 1), sep);
    }
  }

  lemma JoinCons(x: string, rest: seq<string>, sep: char)
    requires rest != []
    ensures Join([x] + rest, sep) == x + [sep] + Join(rest, sep)
  {
    assert ([x] + rest)[1..] == rest;
  }

  /** `unicode.IsSpace`. */
  predicate IsSpace(c: char) {
    c == '\t' || c == '\n' || c == '\r' || c == ' ' || c == '\U{0B}' || c == '\U{0C}' || c == '\U{85}' || c == '\U{A0}' ||
    c == '\U{1680}' || '\U{2000}' <= c <= '\U{200A}' || c == '\U{2028}' || c == '\U{2029}' ||
    c == '\U{202F}' || c == '\U{205F}' || c == '\U{3000}'
  }

  function TrimLeft(s: string): string {
    if s != "" && IsSpace(s[0]) then TrimLeft(s[1..]) else s
  }

  function TrimRight(s: string): string {
    if s != "" && IsSpace(s[|s| - 1]) then TrimRight(s[..|s| - 1]) else s
  }

  /** `strings.TrimSpace`. */
  function TrimSpace(s: string): string {
    TrimRight(TrimLeft(s))
  }

  lemma PrefixHeads(a: string)
    ensures forall i | 0 < i <= |a| :: a[..i][0] == a[0]
  {
  }

  /** `Before` is lexicographic: a proper prefix comes first, else the first difference decides. */
  lemma {:induction false} BeforeExactly(a: string, b: string)
    ensures Before(a, b) <==>
              || (a <= b && a != b)
              || exists i | 0 <= i < |a| && i < |b| :: a[..i] == b[..i] && a[i] < b[i]
  {
    if a != "" && b != "" {
      var x, y := a[1..], b[1..];
      if a[0] == b[0] {
        BeforeExactly(x, y);
        assert a == [a[0]] + x && b == [a[0]] + y;
        assert a <= b <==> x <= y;
        if i :| 0 <= i < |x| && i < |y| && x[..i] == y[..i] && x[i] < y[i] {
          assert a[..i + 1] == [a[0]] + x[..i] && b[..i + 1] == [a[0]] + y[..i];
          assert a[i + 1] < b[i + 1];
        }
        if i :| 0 <= i < |a| && i < |b| && a[..i] == b[..i] && a[i] < b[i] {
          assert i > 0;
          assert a[1..][..i - 1] == a[..i][1..] && b[1..][..i - 1] == b[..i][1..];
          assert x[i - 1] < y[i - 1];
        }
      } else {
        assert a[..0] == b[..0];
        PrefixHeads(a);
        PrefixHeads(b);
      }
    }
  }

  /** Only the last part may hold the separator, and only when all `n` parts are used. */
  predicate CutAt(parts: seq<string>, sep: char, n: nat) {
    && parts != []
    && (forall k | 0 <= k < |parts| - 1 :: sep !in parts[k])
    && (|parts| < n ==> sep !in parts[|parts| - 1])
  }

  lemma CutCons(x: string, rest: seq<string>, sep: char, n: nat)
    requires sep !in x && CutAt(rest, sep, n)
    ensures CutAt([x] + rest, sep, n + 1)
  {
  }

  lemma {:induction false} SplitParts(s: string, sep: char, n: nat)
    requires n > 0
    ensures CutAt(SplitN(s, sep, n), sep, n)
  {
    var i := IndexOf(s, sep);
    if n > 1 && i >= 0 {
      SplitParts(s[i + 1..], sep, n - 1);
      CutCons(s[..i], SplitN(s[i + 1..], sep, n - 1), sep, n - 1);
    }
  }

  lemma {:induction false} TrimLeftPart(s: string) returns (i: nat)
    ensures i <= |s| && TrimLeft(s) == s[i..] && forall k | 0 <= k < i :: IsSpace(s[k])
    ensures i < |s| ==> !IsSpace(s[i])
  {
    i := 0;
    if s != "" && IsSpace(s[0]) {
      var j := TrimLeftPart(s[1..]);
      i := j + 1;
      assert s[1..][j..] == s[i..];
      assert forall k | 1 <= k < i :: s[k] == s[1..][k - 1];
    }
  }

  lemma {:induction false} TrimRightPart(s: string) returns (j: nat)
    ensures j <= |s| && TrimRight(s) == s[..j] && forall k | j <= k < |s| :: IsSpace(s[k])
    ensures j > 0 ==> !IsSpace(s[j - 1])
  {
    j := |s|;
    if s != "" && IsSpace(s[|s| - 1]) {
      j := TrimRightPart(s[..|s| - 1]);
      assert s[..|s| - 1][..j] == s[..j];
      assert forall k | j <= k < |s| - 1 :: s[k] == s[..|s| - 1][k];
    }
  }

  /** Trimming cuts off all leading and trailing spaces and nothing else. */
  lemma TrimExactly(s: string) returns (i: nat, j: nat)
    ensures i <= j <= |s| && TrimSpace(s) == s[i..j]
    ensures forall k | 0 <= k < i || j <= k < |s| :: IsSpace(s[k])
    ensures i < j ==> !IsSpace(s[i]) && !IsSpace(s[j - 1])
  {
    i := TrimLeftPart(s);
    var t := s[i..];
    var h := TrimRightPart(t);
    j := i + h;
    assert t[..h] == s[i..j];
    assert forall k | j <= k < |s| :: s[k] == t[k - i];
    if h > 0 {
      assert t[h - 1] == s[j - 1] && t[0] == s[i];
    }
  }
}

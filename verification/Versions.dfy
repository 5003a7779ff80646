/**
 Version comparison: the tolerant order of internal/lint/backends.go:183-208 and the strict
 one of internal/lint/conformance.go:570-604.
 */
module Versions {
  import opened Text
  import opened Numbers

  /** The digits a component starts with; a non-digit ends the component's number. */
  function LeadingDigits(s: string): (d: string)
    ensures AllDigits(d) && d <= s
    ensures |d| < |s| ==> !IsDigit(s[|d|])
  {
    if s != "" && IsDigit(s[0]) then
      var d := LeadingDigits(s[1..]);
      assert s == [s[0]] + s[1..];
      [s[0]] + d
    else ""
  }

  /** The three numbers of a version as the tolerant parser holds them, in int64. */
  function PartAt(parts: seq<string>, i: nat): int {
    if i < |parts| then Wrap(Value(LeadingDigits(parts[i]))) else 0
  }

  function VersionParts(s: string): (v: seq<int>)
    ensures |v| == 3
  {
    var parts := SplitN(TrimSpace(s), '.', 3);
    [PartAt(parts, 0), PartAt(parts, 1), PartAt(parts, 2)]
  }

  /** Lexicographic order of two triples. */
  predicate TripleLess(a: seq<int>, b: seq<int>)
    requires |a| == |b| == 3
  {
    a[0] < b[0] || (a[0] == b[0] && (a[1] < b[1] || (a[1] == b[1] && a[2] < b[2])))
  }

  predicate VersionLess(a: string, b: string) {
    TripleLess(VersionParts(a), VersionParts(b))
  }

  /** The number of a digit prefix after int64 wrap-around, one more digit at a time. */
  lemma AccumulateDigit(s: string, k: nat)
    requires k < |s| && AllDigits(s[..k]) && IsDigit(s[k])
    ensures AllDigits(s[..k + 1])
    ensures Wrap(Value(s[..k + 1])) == Wrap(Wrap(Value(s[..k])) * 10 + DigitValue(s[k]))
  {
    assert s[..k + 1][..k] == s[..k];
    WrapAccumulate(Value(s[..k]), DigitValue(s[k]));
  }

  lemma LeadingDigitsUnique(s: string, k: nat)
    requires k <= |s| && AllDigits(s[..k])
    requires k < |s| ==> !IsDigit(s[k])
    ensures LeadingDigits(s) == s[..k]
  {
    var d := LeadingDigits(s);
    assert forall i | 0 <= i < k :: IsDigit(s[..k][i]) && s[i] == s[..k][i];
    assert forall i | 0 <= i < |d| :: IsDigit(d[i]) && s[i] == d[i];
    assert |d| == k;
  }

  /** The inner loop of `parseVersionParts`. */
  method ReadLeading(part: string) returns (n: int)
    ensures n == Wrap(Value(LeadingDigits(part)))
  {
    n := 0;
    var k := 0;
    while k < |part| && IsDigit(part[k])
      invariant k <= |part| && AllDigits(part[..k])
      invariant n == Wrap(Value(part[..k]))
    {
      AccumulateDigit(part, k);
      n := Wrap(n * 10 + DigitValue(part[k]));
      k := k + 1;
    }
    LeadingDigitsUnique(part, k);
  }

  /** The outer loop, over the components there are. */
  method ReadParts(parts: seq<string>) returns (out: seq<int>)
    ensures out == [PartAt(parts, 0), PartAt(parts, 1), PartAt(parts, 2)]
  {
    var buf := new int[3](_ => 0);
    var i := 0;
    while i < 3 && i < |parts|
      invariant 0 <= i <= 3 && i <= |parts|
      invariant forall j | 0 <= j < 3 :: buf[j] == if j < i then PartAt(parts, j) else 0
    {
      var n := ReadLeading(parts[i]);
      buf[i] := n;
      i := i + 1;
    }
    out := [buf[0], buf[1], buf[2]];
  }

  /** `parseVersionParts`: tolerant, never fails. */
  method ParseVersionParts(s: string) returns (out: seq<int>)
    ensures out == VersionParts(s)
  {
    out := ReadParts(SplitN(TrimSpace(s), '.', 3));
  }

  /** `versionLT`: the loop that decides on the first differing component. */
  method VersionLT(a: string, b: string) returns (lt: bool)
    ensures lt == VersionLess(a, b)
  {
    var av := ParseVersionParts(a);
    var bv := ParseVersionParts(b);
    var i := 0;
    while i < 3
      invariant 0 <= i <= 3
      invariant 0 < i ==> av[0] == bv[0]
      invariant 1 < i ==> av[1] == bv[1]
      invariant 2 < i ==> av[2] == bv[2]
    {
      if av[i] != bv[i] {
        return av[i] < bv[i];
      }
      i := i + 1;
    }
    return false;
  }

  /** What `parseSemver` accepts: exactly three components, digits only (possibly none). */
  predicate SemverAccepts(s: string) {
    var parts := SplitN(s, '.', 3);
    |parts| == 3 && AllDigits(parts[0]) && AllDigits(parts[1]) && AllDigits(parts[2])
  }

  function SemverParts(s: string): (v: seq<int>)
    requires SemverAccepts(s)
    ensures |v| == 3
  {
    var parts := SplitN(s, '.', 3);
    [Wrap(Value(parts[0])), Wrap(Value(parts[1])), Wrap(Value(parts[2]))]
  }

  /** The mathematical numbers of an accepted version, before any wrap-around. */
  function Components(s: string): (v: seq<int>)
    requires SemverAccepts(s)
    ensures |v| == 3
  {
    var parts := SplitN(s, '.', 3);
    [Value(parts[0]), Value(parts[1]), Value(parts[2])]
  }

  /** The inner loop of `parseSemver`. */
  method ReadDigits(part: string) returns (n: int, ok: bool)
    ensures ok <==> AllDigits(part)
    ensures ok ==> n == Wrap(Value(part))
  {
    n := 0;
    var k := 0;
    while k < |part|
      invariant k <= |part| && AllDigits(part[..k])
      invariant n == Wrap(Value(part[..k]))
    {
      if !IsDigit(part[k]) {
        return n, false;
      }
      AccumulateDigit(part, k);
      n := Wrap(n * 10 + DigitValue(part[k]));
      k := k + 1;
    }
    assert part[..k] == part;
    ok := true;
  }

  method ParseSemver(s: string) returns (out: seq<int>, ok: bool)
    ensures |out| == 3
    ensures ok <==> SemverAccepts(s)
    ensures ok ==> out == SemverParts(s)
  {
    var buf := new int[3](_ => 0);
    var parts := SplitN(s, '.', 3);
    if |parts| != 3 {
      return buf[..], false;
    }
    var i := 0;
    while i < 3
      invariant 0 <= i <= 3
      invariant forall j | 0 <= j < i :: AllDigits(parts[j]) && buf[j] == Wrap(Value(parts[j]))
    {
      var n, good := ReadDigits(parts[i]);
      if !good {
        return buf[..], false;
      }
      buf[i] := n;
      i := i + 1;
    }
    out, ok := buf[..], true;
  }

  /** `a >= b` for the strict parser, false when either side is rejected. */
  predicate SemverAtLeast(a: string, b: string) {
    SemverAccepts(a) && SemverAccepts(b) && !TripleLess(SemverParts(a), SemverParts(b))
  }

  method SemverGTE(a: string, b: string) returns (gte: bool)
    ensures gte == SemverAtLeast(a, b)
  {
    var av, ok := ParseSemver(a);
    if !ok {
      return false;
    }
    var bv, ok' := ParseSemver(b);
    if !ok' {
      return false;
    }
    var i := 0;
    while i < 3
      invariant 0 <= i <= 3
      invariant 0 < i ==> av[0] == bv[0]
      invariant 1 < i ==> av[1] == bv[1]
      invariant 2 < i ==> av[2] == bv[2]
    {
      if av[i] != bv[i] {
        return av[i] > bv[i];
      }
      i := i + 1;
    }
    return true;
  }

  /** `versionLT` is a strict weak order on all strings: versions with equal parts tie. */
  lemma VersionStrictWeakOrder(a: string, b: string, c: string)
    ensures !VersionLess(a, a)
    ensures VersionLess(a, b) ==> !VersionLess(b, a)
    ensures VersionLess(a, b) && VersionLess(b, c) ==> VersionLess(a, c)
    ensures !VersionLess(a, b) && !VersionLess(b, a) <==> VersionParts(a) == VersionParts(b)
    ensures !VersionLess(a, b) && !VersionLess(b, c) ==> !VersionLess(a, c)
  {
    var x, y := VersionParts(a), VersionParts(b);
    assert x == [x[0], x[1], x[2]] && y == [y[0], y[1], y[2]];
  }

  /** A string of three components put back together. */
  lemma SplitThree(s: string)
    requires |SplitN(s, '.', 3)| == 3
    ensures var p := SplitN(s, '.', 3); s == p[0] + "." + p[1] + "." + p[2]
  {
    var p := SplitN(s, '.', 3);
    SplitJoins(s, '.', 3);
    assert Join(p[1..], '.') == p[1] + "." + Join(p[1..][1..], '.');
    assert Join(p[1..][1..], '.') == p[2];
    assert s == p[0] + "." + (p[1] + "." + p[2]);
  }

  lemma JoinThree(x: string, y: string, z: string)
    requires AllDigits(x) && AllDigits(y)
    ensures SplitN(x + "." + y + "." + z, '.', 3) == [x, y, z]
  {
    var t := y + "." + z;
    var s := x + "." + t;
    assert x + "." + y + "." + z == s;
    assert s[..|x|] == x;
    IndexOfUnique(s, '.', |x|);
    assert s[|x| + 1..] == t;
    assert t[..|y|] == y;
    IndexOfUnique(t, '.', |y|);
    assert t[|y| + 1..] == z;
    assert SplitN(z, '.', 1) == [z];
    assert SplitN(t, '.', 2) == [y] + [z];
  }

  lemma TrimSpaceFixed(s: string)
    requires s == "" || (!IsSpace(s[0]) && !IsSpace(s[|s| - 1]))
    ensures TrimSpace(s) == s
  {
  }

  lemma AllLeading(s: string)
    requires AllDigits(s)
    ensures LeadingDigits(s) == s
  {
    assert s[..|s|] == s;
    LeadingDigitsUnique(s, |s|);
  }

  /** An accepted version starts and ends with a digit or a dot. */
  lemma AcceptedCharacters(s: string)
    requires SemverAccepts(s)
    ensures s != "" && !IsSpace(s[0]) && !IsSpace(s[|s| - 1])
  {
    SplitThree(s);
    var p := SplitN(s, '.', 3);
    assert s == p[0] + "." + p[1] + "." + p[2];
    assert p[0] == "" || IsDigit(s[0]);
    assert p[2] == "" || IsDigit(s[|s| - 1]);
  }

  /** On strings the strict parser accepts, the tolerant one reads the same numbers. */
  lemma ParsersAgree(s: string)
    requires SemverAccepts(s)
    ensures VersionParts(s) == SemverParts(s)
  {
    var p := SplitN(s, '.', 3);
    AcceptedCharacters(s);
    TrimSpaceFixed(s);
    AllLeading(p[0]);
    AllLeading(p[1]);
    AllLeading(p[2]);
  }

  /** The two comparisons are the same relation on accepted strings, whatever their size. */
  lemma ComparisonsAgree(a: string, b: string)
    requires SemverAccepts(a) && SemverAccepts(b)
    ensures VersionLess(a, b) <==> !SemverAtLeast(a, b)
  {
    ParsersAgree(a);
    ParsersAgree(b);
  }

  /** Every component is small enough for int64. */
  predicate FitsInt64(s: string)
    requires SemverAccepts(s)
  {
    forall i | 0 <= i < 3 :: Components(s)[i] <= MAX_INT64
  }

  /**
   Core-version precedence (section 11 of Semantic Versioning 2.0.0) on components that fit; see
   `PrecedenceExactly` for the ones that do not.
   */
  lemma Precedence(a: string, b: string)
    requires SemverAccepts(a) && SemverAccepts(b) && FitsInt64(a) && FitsInt64(b)
    ensures VersionLess(a, b) <==> TripleLess(Components(a), Components(b))
    ensures SemverAtLeast(a, b) <==> !TripleLess(Components(a), Components(b))
  {
    ParsersAgree(a);
    ParsersAgree(b);
    var x, y := Components(a), Components(b);
    assert x[0] <= MAX_INT64 && x[1] <= MAX_INT64 && x[2] <= MAX_INT64;
    assert y[0] <= MAX_INT64 && y[1] <= MAX_INT64 && y[2] <= MAX_INT64;
  }

  lemma SemverWraps(s: string)
    requires SemverAccepts(s)
    ensures SemverParts(s) == [Wrap(Components(s)[0]), Wrap(Components(s)[1]), Wrap(Components(s)[2])]
  {
  }

  lemma WrapFixes(c: nat)
    ensures Wrap(c) == c <==> c <= MAX_INT64
  {
  }

  /** The parsed triple is the mathematical one exactly when every component fits. */
  lemma OverflowWraps(s: string)
    requires SemverAccepts(s)
    ensures VersionParts(s) == Components(s) <==> FitsInt64(s)
  {
    ParsersAgree(s);
    SemverWraps(s);
    var c := Components(s);
    WrapFixes(c[0]);
    WrapFixes(c[1]);
    WrapFixes(c[2]);
    assert c == [c[0], c[1], c[2]];
    assert FitsInt64(s) <==> c[0] <= MAX_INT64 && c[1] <= MAX_INT64 && c[2] <= MAX_INT64;
  }

  /** A printed triple. */
  function Printed(x: nat, y: nat, z: nat): string {
    Decimal(x) + "." + Decimal(y) + "." + Decimal(z)
  }

  lemma PrintedComponents(x: nat, y: nat, z: nat)
    ensures SemverAccepts(Printed(x, y, z)) && Components(Printed(x, y, z)) == [x, y, z]
  {
    DecimalReadsBack(x);
    DecimalReadsBack(y);
    DecimalReadsBack(z);
    JoinThree(Decimal(x), Decimal(y), Decimal(z));
  }

  /** Printed triples survive both parsers. */
  lemma PrintedTripleReadsBack(x: nat, y: nat, z: nat)
    requires x <= MAX_INT64 && y <= MAX_INT64 && z <= MAX_INT64
    ensures var s := Printed(x, y, z);
            SemverAccepts(s) && SemverParts(s) == [x, y, z] && VersionParts(s) == [x, y, z]
  {
    PrintedComponents(x, y, z);
    ParsersAgree(Printed(x, y, z));
    SemverWraps(Printed(x, y, z));
  }

  /** Both comparisons of `s` with `t` are core-version precedence, in both directions. */
  predicate RankedAgainst(s: string, t: string)
    requires SemverAccepts(s) && SemverAccepts(t)
  {
    && (VersionLess(s, t) <==> TripleLess(Components(s), Components(t)))
    && (VersionLess(t, s) <==> TripleLess(Components(t), Components(s)))
    && (SemverAtLeast(s, t) <==> !TripleLess(Components(s), Components(t)))
    && (SemverAtLeast(t, s) <==> !TripleLess(Components(t), Components(s)))
  }

  lemma FittingRank(s: string, t: string)
    requires SemverAccepts(s) && FitsInt64(s) && SemverAccepts(t) && FitsInt64(t)
    ensures RankedAgainst(s, t)
  {
    Precedence(s, t);
    Precedence(t, s);
  }

  /** What an oversized version is misjudged against: its fitting components, then the largest int64. */
  function Ceiling(c: seq<int>): (t: seq<nat>)
    requires |c| == 3 && forall i | 0 <= i < 3 :: c[i] >= 0
    ensures |t| == 3 && forall i | 0 <= i < 3 :: t[i] <= MAX_INT64
  {
    var m := MAX_INT64;
    if c[0] > m then [m, m, m] else if c[1] > m then [c[0], m, m] else [c[0], c[1], m]
  }

  /** The version is numerically above that ceiling and is not ranked above it. */
  lemma CeilingMisjudged(s: string)
    requires SemverAccepts(s) && !FitsInt64(s)
    ensures var t := Ceiling(Components(s));
            TripleLess(t, Components(s)) && !TripleLess(t, SemverParts(s))
  {
    var c := Components(s);
    SemverWraps(s);
    assert c[0] > MAX_INT64 || c[1] > MAX_INT64 || c[2] > MAX_INT64;
  }

  /**
   Precedence, exactly: an accepted version is ranked by core-version precedence against every
   fitting version if and only if its own components fit. A component of 2^63 or more is ranked
   by the number it wraps to.
   */
  lemma PrecedenceExactly(s: string)
    requires SemverAccepts(s)
    ensures FitsInt64(s) <==> forall t | SemverAccepts(t) && FitsInt64(t) :: RankedAgainst(s, t)
  {
    if FitsInt64(s) {
      forall t | SemverAccepts(t) && FitsInt64(t)
        ensures RankedAgainst(s, t)
      {
        FittingRank(s, t);
      }
    } else {
      var c := Ceiling(Components(s));
      var t := Printed(c[0], c[1], c[2]);
      PrintedComponents(c[0], c[1], c[2]);
      PrintedTripleReadsBack(c[0], c[1], c[2]);
      CeilingMisjudged(s);
      ParsersAgree(s);
      assert c == [c[0], c[1], c[2]];
      assert SemverAccepts(t) && FitsInt64(t) && !RankedAgainst(s, t);
    }
  }

  /** For one: 2^63.0.0 is ranked below 1.0.0. */
  lemma OversizedRanksLow()
    ensures var s, t := Printed(0x8000_0000_0000_0000, 0, 0), Printed(1, 0, 0);
            && SemverAccepts(s) && SemverAccepts(t) && VersionLess(s, t) && !SemverAtLeast(s, t)
            && TripleLess(Components(t), Components(s))
  {
    var s, t := Printed(0x8000_0000_0000_0000, 0, 0), Printed(1, 0, 0);
    PrintedComponents(0x8000_0000_0000_0000, 0, 0);
    PrintedTripleReadsBack(1, 0, 0);
    PrintedComponents(1, 0, 0);
    ParsersAgree(s);
    SemverWraps(s);
  }

  /** The two comparisons order printed triples number by number, the first difference deciding. */
  lemma PrintedOrder(x: nat, y: nat, z: nat, x': nat, y': nat, z': nat)
    requires x <= MAX_INT64 && y <= MAX_INT64 && z <= MAX_INT64
    requires x' <= MAX_INT64 && y' <= MAX_INT64 && z' <= MAX_INT64
    ensures var less := x < x' || (x == x' && (y < y' || (y == y' && z < z')));
            && (VersionLess(Printed(x, y, z), Printed(x', y', z')) <==> less)
            && (SemverAtLeast(Printed(x, y, z), Printed(x', y', z')) <==> !less)
  {
    PrintedTripleReadsBack(x, y, z);
    PrintedTripleReadsBack(x', y', z');
    OrderOf(Printed(x, y, z), Printed(x', y', z'), x, y, z, x', y', z');
  }

  lemma OrderOf(s: string, t: string, x: nat, y: nat, z: nat, x': nat, y': nat, z': nat)
    requires SemverAccepts(s) && SemverAccepts(t)
    requires VersionParts(s) == SemverParts(s) == [x, y, z] && VersionParts(t) == SemverParts(t) == [x', y', z']
    ensures var less := x < x' || (x == x' && (y < y' || (y == y' && z < z')));
            (VersionLess(s, t) <==> less) && (SemverAtLeast(s, t) <==> !less)
  {
  }

  lemma NoDot(s: string)
    requires AllDigits(s)
    ensures '.' !in s
  {
    assert forall i | 0 <= i < |s| :: IsDigit(s[i]);
  }

  lemma SplitTwo(a: string, b: string)
    requires AllDigits(a) && AllDigits(b)
    ensures SplitN(a, '.', 3) == [a] && SplitN(a + "." + b, '.', 3) == [a, b]
  {
    NoDot(a);
    NoDot(b);
    var s := a + "." + b;
    assert s[..|a|] == a;
    IndexOfUnique(s, '.', |a|);
    assert s[|a| + 1..] == b;
    assert SplitN(b, '.', 2) == [b];
    assert SplitN(s, '.', 3) == [a] + [b];
  }

  lemma DecimalEnds(x: nat)
    ensures AllDigits(Decimal(x)) && Decimal(x) != "" && Value(Decimal(x)) == x
    ensures LeadingDigits(Decimal(x)) == Decimal(x)
    ensures !IsSpace(Decimal(x)[0]) && !IsSpace(Decimal(x)[|Decimal(x)| - 1])
  {
    DecimalReadsBack(x);
    AllLeading(Decimal(x));
  }

  /** Missing components count as zero. */
  lemma OneComponent(x: nat)
    requires x <= MAX_INT64
    ensures VersionParts(Decimal(x)) == [x, 0, 0]
  {
    DecimalEnds(x);
    TrimSpaceFixed(Decimal(x));
    SplitTwo(Decimal(x), "");
  }

  lemma TwoComponents(x: nat, y: nat)
    requires x <= MAX_INT64 && y <= MAX_INT64
    ensures VersionParts(Decimal(x) + "." + Decimal(y)) == [x, y, 0]
  {
    DecimalEnds(x);
    DecimalEnds(y);
    SplitTwo(Decimal(x), Decimal(y));
    var s := Decimal(x) + "." + Decimal(y);
    EndsFixed(Decimal(x) + ".", Decimal(y));
    TwoPartsOf(s, Decimal(x), Decimal(y));
  }

  lemma TwoPartsOf(s: string, a: string, b: string)
    requires TrimSpace(s) == s && SplitN(s, '.', 3) == [a, b]
    ensures VersionParts(s) == [Wrap(Value(LeadingDigits(a))), Wrap(Value(LeadingDigits(b))), 0]
  {
  }

  lemma EndsFixed(a: string, b: string)
    requires a != "" && b != "" && !IsSpace(a[0]) && !IsSpace(b[|b| - 1])
    ensures TrimSpace(a + b) == a + b
  {
    TrimSpaceFixed(a + b);
  }

  lemma LeadingOf(d: string, suffix: string)
    requires AllDigits(d) && suffix != "" && !IsDigit(suffix[0])
    ensures LeadingDigits(d + suffix) == d
  {
    assert (d + suffix)[..|d|] == d;
    LeadingDigitsUnique(d + suffix, |d|);
  }

  /** Whatever follows the digits of the last component is ignored. */
  lemma SuffixIgnored(x: nat, y: nat, z: nat, suffix: string)
    requires x <= MAX_INT64 && y <= MAX_INT64 && z <= MAX_INT64
    requires suffix != "" && !IsDigit(suffix[0]) && !IsSpace(suffix[|suffix| - 1])
    ensures VersionParts(Printed(x, y, z) + suffix) == [x, y, z]
  {
    DecimalEnds(x);
    DecimalEnds(y);
    DecimalEnds(z);
    var a, b, c := Decimal(x), Decimal(y), Decimal(z) + suffix;
    assert Printed(x, y, z) + suffix == a + "." + b + "." + c;
    JoinThree(a, b, c);
    EndsFixed(Printed(x, y, z), suffix);
    LeadingOf(Decimal(z), suffix);
    PartsOf(Printed(x, y, z) + suffix, a, b, c);
  }

  lemma PartsOf(s: string, a: string, b: string, c: string)
    requires TrimSpace(s) == s && SplitN(s, '.', 3) == [a, b, c]
    ensures VersionParts(s)
         == [Wrap(Value(LeadingDigits(a))), Wrap(Value(LeadingDigits(b))), Wrap(Value(LeadingDigits(c)))]
  {
  }
}

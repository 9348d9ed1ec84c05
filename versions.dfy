/**
 * Version strings as the updater handles them: `normalize_version`
 * (`ltrim($version, 'v')`) and PHP's `version_compare`, restricted to
 * versions made of decimal pieces separated by dots.
 */
module Versions {
  import opened Php

  /** `ltrim($v, 'v')`: removes every leading lower-case 'v'. */
  function NormalizeVersion(v: string): (r: string)
    ensures |r| <= |v|
    ensures r == [] || r[0] != 'v'
  {
    if v != [] && v[0] == 'v' then NormalizeVersion(v[1..]) else v
  }

  /** The result is a suffix of the input, and everything before it was a 'v'. */
  lemma {:induction false} NormalizeRemovesOnlyLeadingVs(v: string)
    ensures NormalizeVersion(v) == v[|v| - |NormalizeVersion(v)|..]
    ensures forall i :: 0 <= i < |v| - |NormalizeVersion(v)| ==> v[i] == 'v'
  {
    if v != [] && v[0] == 'v' {
      NormalizeRemovesOnlyLeadingVs(v[1..]);
      forall i | 1 <= i < |v| - |NormalizeVersion(v)| ensures v[i] == 'v' {
        assert v[i] == v[1..][i - 1];
      }
    }
  }

  /** `n` copies of the character `c`. */
  function Repeat(c: char, n: nat): (s: string)
    ensures |s| == n && forall i :: 0 <= i < n ==> s[i] == c
  {
    if n == 0 then [] else [c] + Repeat(c, n - 1)
  }

  /** However many 'v's lead the string, all of them and nothing else go. */
  lemma {:induction false} NormalizeStripsAllLeadingVs(n: nat, w: string)
    requires w == [] || w[0] != 'v'
    ensures NormalizeVersion(Repeat('v', n) + w) == w
  {
    if n > 0 {
      var tail := Repeat('v', n - 1) + w;
      assert Repeat('v', n) + w == ['v'] + tail;
      NormalizeDropsOneV(tail);
      NormalizeStripsAllLeadingVs(n - 1, w);
    }
  }

  lemma NormalizeDropsOneV(tail: string)
    ensures NormalizeVersion(['v'] + tail) == NormalizeVersion(tail)
  {
    assert (['v'] + tail)[1..] == tail;
  }

  /** A string that does not start with 'v' is left as it is. */
  lemma NormalizeKeepsUnprefixed(v: string)
    requires v == [] || v[0] != 'v'
    ensures NormalizeVersion(v) == v
  {
  }

  /** Normalising twice is normalising once. */
  lemma NormalizeIdempotent(v: string)
    ensures NormalizeVersion(NormalizeVersion(v)) == NormalizeVersion(v)
  {
    NormalizeKeepsUnprefixed(NormalizeVersion(v));
  }

  /** The result of normalising is the input with its leading 'v's removed. */
  lemma {:induction false} NormalizeDecomposes(v: string)
    ensures v == Repeat('v', |v| - |NormalizeVersion(v)|) + NormalizeVersion(v)
  {
    NormalizeRemovesOnlyLeadingVs(v);
    var r := NormalizeVersion(v);
    var k := |v| - |r|;
    assert v == v[..k] + v[k..];
    assert v[..k] == Repeat('v', k);
  }

  // ---------------------------------------------------------------------
  // version_compare on dotted numeric versions

  /** The leading run of digits of a piece. */
  function DigitPrefix(p: string): (d: string)
    ensures |d| <= |p| && d == p[..|d|]
    ensures forall i :: 0 <= i < |d| ==> IsDigit(d[i])
  {
    if p != [] && IsDigit(p[0]) then [p[0]] + DigitPrefix(p[1..]) else []
  }

  /** The numeric value PHP gives a piece (`strtol` of it). */
  function PieceValue(p: string): nat {
    DecimalValue(DigitPrefix(p))
  }

  function PieceValues(pieces: seq<string>): (ns: seq<nat>)
    ensures |ns| == |pieces|
    ensures forall i :: 0 <= i < |pieces| ==> ns[i] == PieceValue(pieces[i])
  {
    if pieces == [] then [] else [PieceValue(pieces[0])] + PieceValues(pieces[1..])
  }

  /** The numeric pieces of a version string. */
  function Parts(v: string): seq<nat> {
    PieceValues(Explode('.', v))
  }

  /**
   * PHP's ordering of numeric versions: pieces are compared as numbers from
   * left to right; when one version runs out of pieces first, it is the
   * smaller one ("1.0" < "1.0.0"). Result -1, 0 or 1.
   */
  function CompareParts(a: seq<nat>, b: seq<nat>): (c: int)
    ensures c == -1 || c == 0 || c == 1
    ensures c == 0 <==> a == b
  {
    if a == [] && b == [] then 0
    else if a == [] then -1
    else if b == [] then 1
    else if a[0] < b[0] then -1
    else if a[0] > b[0] then 1
    else
      var c := CompareParts(a[1..], b[1..]);
      assert c == 0 ==> a == [a[0]] + a[1..] == [b[0]] + b[1..] == b;
      assert a == b ==> a[1..] == b[1..];
      c
  }

  /** Swapping the arguments negates the comparison. */
  lemma {:induction false} CompareAntisymmetric(a: seq<nat>, b: seq<nat>)
    ensures CompareParts(b, a) == -CompareParts(a, b)
  {
    if a != [] && b != [] && a[0] == b[0] {
      CompareAntisymmetric(a[1..], b[1..]);
    }
  }

  /** "Greater than" is transitive. */
  lemma {:induction false} CompareTransitive(a: seq<nat>, b: seq<nat>, c: seq<nat>)
    requires CompareParts(a, b) == 1 && CompareParts(b, c) == 1
    ensures CompareParts(a, c) == 1
  {
    if a != [] && b != [] && c != [] && a[0] == b[0] && b[0] == c[0] {
      CompareTransitive(a[1..], b[1..], c[1..]);
    }
  }

  /** A version that is a proper prefix of another is smaller than it. */
  lemma {:induction false} ProperPrefixIsSmaller(a: seq<nat>, b: seq<nat>)
    requires |a| < |b| && a == b[..|a|]
    ensures CompareParts(a, b) == -1
  {
    if a != [] {
      assert a[1..] == b[1..][..|a| - 1];
      ProperPrefixIsSmaller(a[1..], b[1..]);
    }
  }

  /** `version_compare($a, $b)`. */
  function VersionCompare(a: string, b: string): int {
    CompareParts(Parts(a), Parts(b))
  }

  /** `version_compare($a, $b, '>')`. */
  predicate VersionGreater(a: string, b: string) {
    VersionCompare(a, b) == 1
  }

  /** No version is greater than itself, and of two versions at most one is the greater. */
  lemma VersionGreaterIsStrict(a: string, b: string)
    ensures !VersionGreater(a, a)
    ensures VersionGreater(a, b) ==> !VersionGreater(b, a)
  {
    CompareAntisymmetric(Parts(a), Parts(b));
  }

  /** A leading 'v' is dropped from a tag. */
  lemma NormalizeExample()
    ensures NormalizeVersion("v1.3.0") == "1.3.0"
  {
    NormalizeDropsOneV("1.3.0");
    assert "v1.3.0" == ['v'] + "1.3.0";
  }

  /** A newer minor release is greater. */
  lemma NewerMinorIsGreater()
    ensures VersionGreater("1.3.0", "1.2.3")
  {
    PartsOfThreeDigits('1', '3', '0');
    PartsOfThreeDigits('1', '2', '3');
    assert CompareParts([1, 3, 0], [1, 2, 3]) == 1 by {
      assert [1, 3, 0][1..] == [3, 0] && [1, 2, 3][1..] == [2, 3];
    }
  }

  /** An older major release is not greater, however high its minor number. */
  lemma OlderMajorIsNotGreater()
    ensures !VersionGreater("1.9.9", "2.0.0")
  {
    PartsOfThreeDigits('1', '9', '9');
    PartsOfThreeDigits('2', '0', '0');
  }

  /** PHP ranks "1.0" below "1.0.0": missing trailing pieces are not zeros. */
  lemma ShorterVersionIsSmaller()
    ensures VersionGreater("1.0.0", "1.0")
    ensures !VersionGreater("1.0", "1.0.0")
  {
    PartsOfThreeDigits('1', '0', '0');
    PartsOfTwoDigits('1', '0');
  }

  lemma PieceValueOfDigit(d: char)
    requires IsDigit(d)
    ensures PieceValue([d]) == d as int - '0' as int
  {
    assert [d][1..] == [] && [d][..0] == [];
    assert DigitPrefix([d]) == [d];
    assert DecimalValue([d]) == 10 * DecimalValue([]) + (d as int - '0' as int);
  }

  lemma PartsOfTwoDigits(a: char, b: char)
    requires IsDigit(a) && IsDigit(b)
    ensures Parts([a, '.', b]) == [a as int - '0' as int, b as int - '0' as int]
  {
    ExplodeTwoDigits(a, b);
    PieceValueOfDigit(a);
    PieceValueOfDigit(b);
  }

  lemma PartsOfThreeDigits(a: char, b: char, c: char)
    requires IsDigit(a) && IsDigit(b) && IsDigit(c)
    ensures Parts([a, '.', b, '.', c]) == [a as int - '0' as int, b as int - '0' as int, c as int - '0' as int]
  {
    ExplodeThreeDigits(a, b, c);
    PieceValueOfDigit(a);
    PieceValueOfDigit(b);
    PieceValueOfDigit(c);
  }

  lemma ExplodeDigitDot(d: char, rest: string)
    requires IsDigit(d)
    ensures Explode('.', [d, '.'] + rest) == [[d]] + Explode('.', rest)
  {
    var s := [d, '.'] + rest;
    var after := Explode('.', rest);
    assert s[1..] == ['.'] + rest;
    assert (['.'] + rest)[1..] == rest;
    var rest1 := Explode('.', s[1..]);
    assert rest1 == [""] + after;
    assert rest1[0] == "" && rest1[1..] == after;
    assert [d] + rest1[0] == [d];
  }

  lemma ExplodeTwoDigits(a: char, b: char)
    requires IsDigit(a) && IsDigit(b)
    ensures Explode('.', [a, '.', b]) == [[a], [b]]
  {
    assert [a, '.', b] == [a, '.'] + [b];
    ExplodeDigitDot(a, [b]);
    assert [b][1..] == [];
    assert Explode('.', []) == [""];
    assert Explode('.', [b]) == [[b] + ""] + [""][1..];
    assert [b] + "" == [b] && [""][1..] == [];
    assert Explode('.', [b]) == [[b]];
  }

  lemma ExplodeThreeDigits(a: char, b: char, c: char)
    requires IsDigit(a) && IsDigit(b) && IsDigit(c)
    ensures Explode('.', [a, '.', b, '.', c]) == [[a], [b], [c]]
  {
    assert [a, '.', b, '.', c] == [a, '.'] + [b, '.', c];
    ExplodeDigitDot(a, [b, '.', c]);
    ExplodeTwoDigits(b, c);
  }
}

/**
 * The pronunciation scorer: `calculateSimilarity` and its pass threshold.
 * Both strings are lower-cased and stripped of white space; equal results
 * score 1, otherwise the score is the number of positions below the shorter
 * length at which the two agree, divided by the longer length. The float
 * result is kept as the exact ratio `num / den`.
 */
module Scoring {
  import opened Text
  import opened Reals

  /** The ratio num / den. */
  datatype Fraction = Fraction(num: nat, den: nat)

  /** The score of two strings that are equal once normalised. */
  const One := Fraction(1, 1)

  /** The real number a fraction with a positive denominator stands for. */
  function Value(f: Fraction): real
    requires f.den > 0
  {
    f.num as real / f.den as real
  }

  /** Two fractions with positive denominators stand for the same number. */
  predicate SameValue(f: Fraction, g: Fraction) {
    f.num * g.den == g.num * f.den
  }

  function Min(a: nat, b: nat): nat { if a <= b then a else b }
  function Max(a: nat, b: nat): nat { if a <= b then b else a }

  /** `str.toLowerCase().replace(/\s/g, '')`. */
  function Normalize(s: string): (r: string)
    ensures |r| <= |s|
    ensures forall i :: 0 <= i < |r| ==> !IsSpace(r[i])
  {
    RemoveSpaces(LowerAll(s))
  }

  /** The number of positions i < n at which s1 and s2 hold the same character. */
  function CountMatches(s1: string, s2: string, n: nat): (k: nat)
    requires n <= |s1| && n <= |s2|
    ensures k <= n
  {
    if n == 0 then 0
    else CountMatches(s1, s2, n - 1) + (if s1[n - 1] == s2[n - 1] then 1 else 0)
  }

  /** The number of positions i < n at which s1 and s2 differ. */
  function CountMismatches(s1: string, s2: string, n: nat): (k: nat)
    requires n <= |s1| && n <= |s2|
    ensures k <= n
  {
    if n == 0 then 0
    else CountMismatches(s1, s2, n - 1) + (if s1[n - 1] == s2[n - 1] then 0 else 1)
  }

  /** The score of two already normalised strings; it lies in [0, 1] and never divides by zero. */
  function Score(s1: string, s2: string): (r: Fraction)
    ensures 0 < r.den && r.num <= r.den
    ensures s1 != s2 ==> r.den == Max(|s1|, |s2|)
  {
    if s1 == s2 then One
    else
      assert |s1| > 0 || |s2| > 0;
      Fraction(CountMatches(s1, s2, Min(|s1|, |s2|)), Max(|s1|, |s2|))
  }

  /** `calculateSimilarity(str1, str2)` as an exact fraction. */
  function Similarity(str1: string, str2: string): (r: Fraction)
    ensures 0 < r.den && r.num <= r.den
  {
    Score(Normalize(str1), Normalize(str2))
  }

  /** The scorer as the page runs it: normalise, then count matches in a loop. */
  method CalculateSimilarity(str1: string, str2: string) returns (r: Fraction)
    ensures r == Similarity(str1, str2)
  {
    var s1 := Normalize(str1);
    var s2 := Normalize(str2);
    if s1 == s2 {
      return One;
    }
    var matches := 0;
    var maxLen := Max(|s1|, |s2|);
    var i := 0;
    while i < Min(|s1|, |s2|)
      invariant i <= Min(|s1|, |s2|)
      invariant matches == CountMatches(s1, s2, i)
    {
      if s1[i] == s2[i] {
        matches := matches + 1;
      }
      i := i + 1;
    }
    return Fraction(matches, maxLen);
  }

  /** An attempt passes when its score is strictly greater than 0.6. */
  predicate Passes(f: Fraction)
    ensures Passes(f) ==> 2 * f.num > f.den
  {
    5 * f.num > 3 * f.den
  }

  /** The integer threshold is the page's `similarity > 0.6`. */
  lemma PassesIffAboveSixTenths(f: Fraction)
    requires f.den > 0
    ensures Passes(f) <==> Value(f) > 0.6
  {
    var n, d := f.num as real, f.den as real;
    var v := Value(f);
    assert v * d == n;
    var x := v - 0.6;
    assert x * d == n - 0.6 * d;
    ScaledSign(x, d);
    assert Passes(f) <==> n - 0.6 * d > 0.0;
  }

  /** A fraction with num <= den stands for a number in [0, 1], and for 1 exactly when num == den. */
  lemma ValueInUnitInterval(f: Fraction)
    requires 0 < f.den && f.num <= f.den
    ensures 0.0 <= Value(f) <= 1.0
    ensures Value(f) == 1.0 <==> f.num == f.den
  {
    var v, d := Value(f), f.den as real;
    assert v * d == f.num as real;
    ScaledSign(v, d);
    assert (1.0 - v) * d == d - f.num as real;
    ScaledSign(1.0 - v, d);
    if v == 1.0 {
      assert f.num as real == d;
    }
  }

  /** The similarity, read as a real number, lies in [0, 1]. */
  lemma SimilarityBounded(a: string, b: string)
    ensures 0.0 <= Value(Similarity(a, b)) <= 1.0
  {
    ValueInUnitInterval(Similarity(a, b));
  }

  /** A score of exactly 0.6 fails; one just above it passes. */
  lemma ThresholdIsStrict()
    ensures !Passes(Fraction(3, 5)) && !Passes(Fraction(6, 10))
    ensures Passes(Fraction(60001, 100000))
  {
  }

  // ----- equal normal forms -----

  /** Strings equal after normalisation score exactly 1. */
  lemma EqualNormalFormsScoreOne(a: string, b: string)
    requires Normalize(a) == Normalize(b)
    ensures Similarity(a, b) == One
  {
  }

  lemma {:induction false} AllMatchIsEqualPrefix(s1: string, s2: string, n: nat)
    requires n <= |s1| && n <= |s2|
    ensures CountMatches(s1, s2, n) == n ==> s1[..n] == s2[..n]
  {
    if n > 0 && CountMatches(s1, s2, n) == n {
      AllMatchIsEqualPrefix(s1, s2, n - 1);
      assert s1[..n] == s1[..n - 1] + [s1[n - 1]];
      assert s2[..n] == s2[..n - 1] + [s2[n - 1]];
    }
  }

  /** The score is 1 exactly when the normalised strings are equal. */
  lemma ScoreIsOneIffEqual(a: string, b: string)
    ensures Value(Similarity(a, b)) == 1.0 <==> Normalize(a) == Normalize(b)
  {
    var s1, s2 := Normalize(a), Normalize(b);
    ValueInUnitInterval(Similarity(a, b));
    var m := Min(|s1|, |s2|);
    AllMatchIsEqualPrefix(s1, s2, m);
  }

  // ----- symmetry -----

  lemma {:induction false} CountMatchesSymmetric(s1: string, s2: string, n: nat)
    requires n <= |s1| && n <= |s2|
    ensures CountMatches(s1, s2, n) == CountMatches(s2, s1, n)
  {
    if n > 0 {
      CountMatchesSymmetric(s1, s2, n - 1);
    }
  }

  /** Swapping the two arguments gives the same score. */
  lemma SimilaritySymmetric(a: string, b: string)
    ensures Similarity(a, b) == Similarity(b, a)
  {
    var s1, s2 := Normalize(a), Normalize(b);
    CountMatchesSymmetric(s1, s2, Min(|s1|, |s2|));
  }

  // ----- case and white space do not matter -----

  /** Every character of s is already lower case. */
  predicate IsLowered(s: string) {
    forall i :: 0 <= i < |s| ==> ToLower(s[i]) == s[i]
  }

  lemma {:induction false} RemoveSpacesKeepsLowered(s: string)
    requires IsLowered(s)
    ensures IsLowered(RemoveSpaces(s))
  {
    if s != [] {
      assert IsLowered(s[1..]) by {
        forall i | 0 <= i < |s[1..]| ensures ToLower(s[1..][i]) == s[1..][i] {
          assert s[1..][i] == s[i + 1];
        }
      }
      RemoveSpacesKeepsLowered(s[1..]);
    }
  }

  lemma {:induction false} RemoveSpacesOfSpaceFree(s: string)
    requires forall i :: 0 <= i < |s| ==> !IsSpace(s[i])
    ensures RemoveSpaces(s) == s
  {
    if s != [] {
      RemoveSpacesOfSpaceFree(s[1..]);
    }
  }

  lemma LowerAllOfLowered(s: string)
    requires IsLowered(s)
    ensures LowerAll(s) == s
  {
  }

  /** Normalising twice is normalising once. */
  lemma NormalizeIdempotent(s: string)
    ensures Normalize(Normalize(s)) == Normalize(s)
  {
    var l := LowerAll(s);
    forall i | 0 <= i < |l| ensures ToLower(l[i]) == l[i] {
      ToLowerIdempotent(s[i]);
    }
    RemoveSpacesKeepsLowered(l);
    var n := RemoveSpaces(l);
    LowerAllOfLowered(n);
    RemoveSpacesOfSpaceFree(n);
  }

  /** Scoring a normalised transcript is scoring the raw one. */
  lemma NormalizedInputScoresAlike(a: string, b: string)
    ensures Similarity(Normalize(a), b) == Similarity(a, b)
    ensures Similarity(a, Normalize(b)) == Similarity(a, b)
  {
    NormalizeIdempotent(a);
    NormalizeIdempotent(b);
  }

  lemma NormalizeAppend(x: string, y: string)
    ensures Normalize(x + y) == Normalize(x) + Normalize(y)
  {
    LowerAllAppend(x, y);
    RemoveSpacesAppend(LowerAll(x), LowerAll(y));
  }

  /** Inserting a white-space character anywhere in the transcript leaves the score unchanged. */
  lemma InsertedSpaceIgnored(x: string, c: char, y: string, b: string)
    requires IsSpace(c)
    ensures Similarity(x + [c] + y, b) == Similarity(x + y, b)
  {
    NormalizeAppend(x + [c], y);
    NormalizeAppend(x, [c]);
    NormalizeAppend(x, y);
    assert Normalize([c]) == [];
    assert Normalize(x + [c] + y) == Normalize(x + y);
  }

  /** Lower-casing the transcript first leaves the score unchanged. */
  lemma LowerCasingIgnored(a: string, b: string)
    ensures Similarity(LowerAll(a), b) == Similarity(a, b)
  {
    forall i | 0 <= i < |a| ensures ToLower(ToLower(a[i])) == ToLower(a[i]) {
      ToLowerIdempotent(a[i]);
    }
    assert LowerAll(LowerAll(a)) == LowerAll(a);
  }

  // ----- mismatches -----

  lemma {:induction false} NoMatchesCountZero(s1: string, s2: string, n: nat)
    requires n <= |s1| && n <= |s2|
    requires forall i :: 0 <= i < n ==> s1[i] != s2[i]
    ensures CountMatches(s1, s2, n) == 0
  {
    if n > 0 {
      NoMatchesCountZero(s1, s2, n - 1);
    }
  }

  /** Normalised strings that differ at every shared position score 0. */
  lemma DisagreeEverywhereScoresZero(a: string, b: string)
    requires Normalize(a) != Normalize(b)
    requires forall i :: 0 <= i < |Normalize(a)| && i < |Normalize(b)| ==> Normalize(a)[i] != Normalize(b)[i]
    ensures Similarity(a, b).num == 0
  {
    var s1, s2 := Normalize(a), Normalize(b);
    NoMatchesCountZero(s1, s2, Min(|s1|, |s2|));
  }

  lemma {:induction false} MatchesPlusMismatches(s1: string, s2: string, n: nat)
    requires n <= |s1| && n <= |s2|
    ensures CountMatches(s1, s2, n) + CountMismatches(s1, s2, n) == n
  {
    if n > 0 {
      MatchesPlusMismatches(s1, s2, n - 1);
    }
  }

  /** Normalised strings of one length n > 0 that differ in k positions score (n - k) / n. */
  lemma SameLengthScore(a: string, b: string)
    requires |Normalize(a)| == |Normalize(b)| > 0
    ensures SameValue(Similarity(a, b),
                      Fraction(|Normalize(a)| - CountMismatches(Normalize(a), Normalize(b), |Normalize(a)|), |Normalize(a)|))
  {
    var s1, s2 := Normalize(a), Normalize(b);
    var n := |s1|;
    MatchesPlusMismatches(s1, s2, n);
    if s1 == s2 {
      NoMismatchesOfEqual(s1, n);
    }
  }

  lemma {:induction false} NoMismatchesOfEqual(s: string, n: nat)
    requires n <= |s|
    ensures CountMismatches(s, s, n) == 0
  {
    if n > 0 {
      NoMismatchesOfEqual(s, n - 1);
    }
  }

  /** A string with no white space and no upper-case letter is its own normal form. */
  lemma {:induction false} NormalizePlain(s: string)
    requires forall i :: 0 <= i < |s| ==> !IsSpace(s[i]) && !('A' <= s[i] <= 'Z')
    ensures Normalize(s) == s
  {
    if s != [] {
      NormalizePlain(s[1..]);
      assert s == [s[0]] + s[1..];
      NormalizeAppend([s[0]], s[1..]);
    }
  }

  /** One differing final kana out of five scores 4/5. */
  lemma GreetingExample()
    ensures Similarity("こんにちは", "こんにちわ") == Fraction(4, 5)
  {
    var s1, s2 := "こんにちは", "こんにちわ";
    assert forall i :: 0 <= i < 5 ==> !IsSpace(s1[i]) && !('A' <= s1[i] <= 'Z');
    assert forall i :: 0 <= i < 5 ==> !IsSpace(s2[i]) && !('A' <= s2[i] <= 'Z');
    NormalizePlain(s1);
    NormalizePlain(s2);
    assert s1[4] != s2[4];
    assert CountMatches(s1, s2, 5) == 4;
  }

  /** Strings with no character in common position score 0. */
  lemma DisjointExample()
    ensures Similarity("abc", "xyz") == Fraction(0, 3)
  {
    NormalizePlain("abc");
    NormalizePlain("xyz");
  }
}

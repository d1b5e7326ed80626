/**
 * The two standard-library string functions the safeguards rely on: Go's
 * `strings.ToLower`, over ASCII letters, and `strings.Contains`.
 */
module GoStrings {

  predicate IsUpperAscii(c: char) {
    'A' <= c <= 'Z'
  }

  /** Lower-cases one ASCII letter and leaves every other character alone. */
  function LowerChar(c: char): char {
    if IsUpperAscii(c) then (c as int + 32) as char else c
  }

  /** `strings.ToLower`: lower-cases every character, keeping the length. */
  function ToLower(s: string): (r: string)
    ensures |r| == |s|
    ensures forall i :: 0 <= i < |s| ==> r[i] == LowerChar(s[i])
  {
    seq(|s|, i requires 0 <= i < |s| => LowerChar(s[i]))
  }

  /** `sub` occurs in `s` starting at position `i`. */
  predicate OccursAt(s: string, sub: string, i: int) {
    0 <= i && i + |sub| <= |s| && s[i..i + |sub|] == sub
  }

  /**
   * `strings.Contains(s, sub)`: `sub` is a substring of `s`; the empty string
   * occurs in every string.
   */
  predicate Contains(s: string, sub: string)
    ensures Contains(s, sub) ==> |sub| <= |s|
    ensures sub == s ==> Contains(s, sub)
  {
    assert OccursAt(s, s, 0);
    exists i | 0 <= i <= |s| - |sub| :: OccursAt(s, sub, i)
  }

  /** Lower-casing commutes with concatenation. */
  lemma ToLowerConcat(a: string, b: string)
    ensures ToLower(a + b) == ToLower(a) + ToLower(b)
  {
  }

  /** Lower-casing twice is lower-casing once. */
  lemma ToLowerIdempotent(s: string)
    ensures ToLower(ToLower(s)) == ToLower(s)
  {
  }

  /** A lowered string holds no upper-case ASCII letter. */
  lemma ToLowerHasNoUpper(s: string)
    ensures forall i :: 0 <= i < |s| ==> !IsUpperAscii(ToLower(s)[i])
  {
  }

  /** Lower-casing commutes with taking a slice. */
  lemma ToLowerSlice(s: string, i: int, j: int)
    requires 0 <= i <= j <= |s|
    ensures ToLower(s)[i..j] == ToLower(s[i..j])
  {
  }

  /**
   * If some spelling `v` of the lower-case word `k` (say "PERPETUAL" or
   * "Perpetual" for "perpetual") occurs in `s`, then `k` occurs in `ToLower(s)`.
   */
  lemma CaseVariantOccurs(s: string, v: string, k: string)
    requires Contains(s, v)
    requires ToLower(v) == k
    ensures Contains(ToLower(s), k)
  {
    var i :| 0 <= i <= |s| - |v| && OccursAt(s, v, i);
    ToLowerSlice(s, i, i + |v|);
    assert OccursAt(ToLower(s), k, i);
  }

  /** A word holding an upper-case ASCII letter never occurs in a lowered string. */
  lemma UpperWordNeverOccursInLowered(s: string, k: string, p: nat)
    requires p < |k| && IsUpperAscii(k[p])
    ensures !Contains(ToLower(s), k)
  {
    ToLowerHasNoUpper(s);
    forall i | 0 <= i <= |s| - |k|
      ensures !OccursAt(ToLower(s), k, i)
    {
      assert !IsUpperAscii(ToLower(s)[i + p]);
    }
  }

  /** `b` occurs in `a + b + c` right after `a`. */
  lemma OccursBetween(a: string, b: string, c: string)
    ensures OccursAt(a + b + c, b, |a|)
    ensures Contains(a + b + c, b)
  {
    assert (a + b + c)[|a|..|a| + |b|] == b;
    assert 0 <= |a| <= |a + b + c| - |b| && OccursAt(a + b + c, b, |a|);
  }

  /** The empty string is contained in every string. */
  lemma EmptyAlwaysContained(s: string)
    ensures Contains(s, "")
  {
    assert OccursAt(s, "", 0);
  }

  /**
   * A word whose first two characters never stand next to each other in `s`
   * does not occur in `s`.
   */
  lemma AbsentByLeadingPair(s: string, k: string)
    requires |k| >= 2
    requires forall i :: 0 <= i < |s| - 1 ==> !(s[i] == k[0] && s[i + 1] == k[1])
    ensures !Contains(s, k)
  {
    forall i | 0 <= i <= |s| - |k|
      ensures !OccursAt(s, k, i)
    {
      assert !(s[i] == k[0] && s[i + 1] == k[1]);
    }
  }
}

/**
 * The two string-to-flag conversions of the RKD baseline:
 * `str2bool`, a case-insensitive membership test, and the exact,
 * case-sensitive comparison with "true" that `addEmbedding` uses for
 * its `normalize` flag.
 */
module StrFlags {

  predicate IsUpper(c: char) {
    'A' <= c <= 'Z'
  }

  /** Python's `str.lower` on one character, restricted to ASCII letters. */
  function LowerChar(c: char): char {
    if IsUpper(c) then (c as int + 32) as char else c
  }

  /** `v.lower()`: every character case-folded, nothing added or dropped. */
  function Lower(v: string): (r: string)
    ensures |r| == |v|
    ensures forall i :: 0 <= i < |v| ==> r[i] == LowerChar(v[i])
    ensures forall i :: 0 <= i < |r| ==> !IsUpper(r[i])
    ensures forall i :: 0 <= i < |v| && !IsUpper(v[i]) ==> r[i] == v[i]
  {
    seq(|v|, i requires 0 <= i < |v| => LowerChar(v[i]))
  }

  /** The spellings `str2bool` accepts, all lower case. */
  const TrueWords: seq<string> := ["yes", "true", "t", "y", "1"]

  /** `str2bool(v)`: true exactly when `v.lower()` is one of TrueWords. */
  predicate Str2Bool(v: string): (r: bool)
    ensures r ==> |v| == 1 || |v| == 3 || |v| == 4
    ensures r ==> forall i :: 0 <= i < |v| ==> LowerChar(v[i]) in "yestrue1"
  {
    Lower(v) in TrueWords
  }

  /** The flag `addEmbedding` passes as `normalize`: exact comparison. */
  predicate IsExactlyTrue(s: string): (r: bool)
    ensures r ==> Str2Bool(s)
    ensures r ==> forall i :: 0 <= i < |s| ==> !IsUpper(s[i])
  {
    assert Lower("true") == "true";
    s == "true"
  }

  /** Lower-casing twice is lower-casing once. */
  lemma LowerIdempotent(v: string)
    ensures Lower(Lower(v)) == Lower(v)
  {
  }

  /** `str2bool` gives the same answer for `v` and for `v.lower()`. */
  lemma Str2BoolIgnoresCase(v: string)
    ensures Str2Bool(Lower(v)) == Str2Bool(v)
  {
    LowerIdempotent(v);
  }

  /**
   * `str2bool` spelled out case by case: the strings it accepts are
   * exactly "1", every capitalisation of "t", "y", "yes" and "true";
   * everything else, the empty string included, gives false.
   */
  lemma Str2BoolCases(v: string)
    ensures Str2Bool(v) <==>
      (|v| == 1 && (v[0] in "tTyY1")) ||
      (|v| == 3 && v[0] in "yY" && v[1] in "eE" && v[2] in "sS") ||
      (|v| == 4 && v[0] in "tT" && v[1] in "rR" && v[2] in "uU" && v[3] in "eE")
  {
    var w := Lower(v);
    if |v| == 1 {
      assert w == [LowerChar(v[0])];
    } else if |v| == 3 {
      assert w == [LowerChar(v[0]), LowerChar(v[1]), LowerChar(v[2])];
    } else if |v| == 4 {
      assert w == [LowerChar(v[0]), LowerChar(v[1]), LowerChar(v[2]), LowerChar(v[3])];
    } else {
      assert w != "yes" && w != "true" && w != "t" && w != "y" && w != "1";
    }
  }

  /**
   * The exact comparison is strictly narrower than `str2bool`: every
   * string it accepts `str2bool` accepts, but "True" is accepted by
   * `str2bool` and refused by the comparison.
   */
  lemma ExactTrueNarrowerThanStr2Bool(s: string)
    ensures IsExactlyTrue(s) ==> Str2Bool(s)
    ensures Str2Bool("True") && !IsExactlyTrue("True")
  {
    Str2BoolCases(s);
    Str2BoolCases("True");
  }
}

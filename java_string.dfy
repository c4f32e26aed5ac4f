/**
 * The part of java.lang.String that the cheat-sheet model relies on:
 * `trim()`, which removes every leading and trailing character whose code
 * is at most U+0020.
 */
module JavaString {

  /** A character that `trim()` removes from either end. */
  predicate IsTrimmable(c: char) {
    c <= ' '
  }

  /** Every character of `s` is one that `trim()` removes. */
  predicate AllTrimmable(s: string) {
    forall i :: 0 <= i < |s| ==> IsTrimmable(s[i])
  }

  /** `s` without its leading trimmable characters: a suffix of `s`. */
  function StripLeading(s: string): (r: string)
    ensures |r| <= |s| && r == s[|s| - |r|..]
    ensures AllTrimmable(s[..|s| - |r|])
    ensures r == [] || !IsTrimmable(r[0])
    decreases |s|
  {
    if |s| > 0 && IsTrimmable(s[0]) then
      var r := StripLeading(s[1..]);
      assert s[..|s| - |r|] == [s[0]] + s[1..][..|s| - 1 - |r|];
      AllTrimmableConcat([s[0]], s[1..][..|s| - 1 - |r|]);
      r
    else s
  }

  /** `s` without its trailing trimmable characters: a prefix of `s`. */
  function StripTrailing(s: string): (r: string)
    ensures |r| <= |s| && r == s[..|r|]
    ensures AllTrimmable(s[|r|..])
    ensures r == [] || !IsTrimmable(r[|r| - 1])
    decreases |s|
  {
    if |s| > 0 && IsTrimmable(s[|s| - 1]) then
      var r := StripTrailing(s[..|s| - 1]);
      assert s[|r|..] == s[..|s| - 1][|r|..] + [s[|s| - 1]];
      AllTrimmableConcat(s[..|s| - 1][|r|..], [s[|s| - 1]]);
      r
    else s
  }

  /** How many leading characters `trim()` skips. */
  function LeadingCount(s: string): (n: nat)
    ensures n <= |s|
  {
    |s| - |StripLeading(s)|
  }

  /**
   * Java's `String.trim()`: the leading run of trimmable characters is
   * skipped first, then the trailing run. The result is the slice of `s`
   * starting after the leading run; it starts and ends with a kept
   * character, and everything cut off on either side is trimmable.
   */
  function Trim(s: string): (r: string)
    ensures LeadingCount(s) + |r| <= |s|
    ensures r == s[LeadingCount(s)..LeadingCount(s) + |r|]
    ensures AllTrimmable(s[..LeadingCount(s)]) && AllTrimmable(s[LeadingCount(s) + |r|..])
    ensures r == [] || (!IsTrimmable(r[0]) && !IsTrimmable(r[|r| - 1]))
    ensures r == [] ==> AllTrimmable(s)
  {
    var lead := StripLeading(s);
    var r := StripTrailing(lead);
    TrimSlice(s, lead, r);
    r
  }

  /** How the two halves of `trim()` sit inside the original string. */
  lemma TrimSlice(s: string, lead: string, r: string)
    requires |lead| <= |s| && lead == s[|s| - |lead|..]
    requires AllTrimmable(s[..|s| - |lead|])
    requires |r| <= |lead| && r == lead[..|r|]
    requires AllTrimmable(lead[|r|..])
    ensures r == s[|s| - |lead|..|s| - |lead| + |r|]
    ensures AllTrimmable(s[|s| - |lead| + |r|..])
    ensures r == [] ==> AllTrimmable(s)
  {
    var k := |s| - |lead|;
    assert s[k + |r|..] == lead[|r|..];
    if r == [] {
      assert s == s[..k] + lead;
      AllTrimmableConcat(s[..k], lead);
    }
  }

  lemma AllTrimmableConcat(p: string, q: string)
    requires AllTrimmable(p) && AllTrimmable(q)
    ensures AllTrimmable(p + q)
  {
    forall i | 0 <= i < |p + q| ensures IsTrimmable((p + q)[i]) {
      if i >= |p| { assert (p + q)[i] == q[i - |p|]; }
    }
  }

  /** Trimming a trimmed string changes nothing. */
  lemma TrimIdempotent(s: string)
    ensures Trim(Trim(s)) == Trim(s)
  {
    var r := Trim(s);
    if r != [] {
      assert StripLeading(r) == r;
      assert StripTrailing(r) == r;
    }
  }
}

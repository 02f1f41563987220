/** Rust's `str::trim`, as used on the search query and on history entries.
    `trim` strips every leading and trailing character that has the Unicode
    White_Space property (the set `char::is_whitespace` accepts). */
module Strings {

  /** Unicode White_Space, by code point. */
  predicate IsWhitespace(c: char) {
    var n := c as int;
    || (0x09 <= n <= 0x0D)
    || n == 0x20
    || n == 0x85
    || n == 0xA0
    || n == 0x1680
    || (0x2000 <= n <= 0x200A)
    || n == 0x2028
    || n == 0x2029
    || n == 0x202F
    || n == 0x205F
    || n == 0x3000
  }

  /** Every character is whitespace (this includes the empty string). */
  predicate IsBlank(s: string) {
    forall i :: 0 <= i < |s| ==> IsWhitespace(s[i])
  }

  /** Neither end of `s` is whitespace. */
  predicate IsTrimmed(s: string) {
    s == [] || (!IsWhitespace(s[0]) && !IsWhitespace(s[|s| - 1]))
  }

  /** Where `trim_start` cuts: the first index at or after `i` that is not
      whitespace, or `|s|`. */
  function TrimStartFrom(s: string, i: nat): (lo: nat)
    requires i <= |s|
    ensures i <= lo <= |s|
    ensures forall k :: i <= k < lo ==> IsWhitespace(s[k])
    ensures lo == |s| || !IsWhitespace(s[lo])
    decreases |s| - i
  {
    if i < |s| && IsWhitespace(s[i]) then TrimStartFrom(s, i + 1) else i
  }

  /** Where `trim_end` cuts, scanning down from `j` but not below `lo`: just
      past the last non-whitespace character, or `lo`. */
  function TrimEndFrom(s: string, lo: nat, j: nat): (hi: nat)
    requires lo <= j <= |s|
    ensures lo <= hi <= j
    ensures forall k :: hi <= k < j ==> IsWhitespace(s[k])
    ensures hi == lo || !IsWhitespace(s[hi - 1])
    decreases j
  {
    if lo < j && IsWhitespace(s[j - 1]) then TrimEndFrom(s, lo, j - 1) else j
  }

  /** `str::trim`: the slice of `s` left once its whitespace prefix and
      suffix are cut off. It has no whitespace at either end, and it is empty
      exactly when `s` is blank. */
  function Trim(s: string): (r: string)
    ensures IsTrimmed(r)
    ensures r == [] <==> IsBlank(s)
  {
    var lo := TrimStartFrom(s, 0);
    var hi := TrimEndFrom(s, lo, |s|);
    s[lo..hi]
  }

  /** `Trim(s)` is a slice of `s` and everything outside that slice is
      whitespace. */
  lemma TrimShape(s: string)
    ensures var lo := TrimStartFrom(s, 0);
      && lo + |Trim(s)| <= |s|
      && Trim(s) == s[lo..lo + |Trim(s)|]
      && IsBlank(s[..lo])
      && IsBlank(s[lo + |Trim(s)|..])
  {
    var lo := TrimStartFrom(s, 0);
    var hi := TrimEndFrom(s, lo, |s|);
    assert forall k :: 0 <= k < lo ==> s[..lo][k] == s[k];
    assert forall k :: 0 <= k < |s| - hi ==> s[hi..][k] == s[hi + k];
  }

  /** Trimming an already trimmed string changes nothing; in particular
      `trim` is idempotent. */
  lemma {:induction false} TrimOfTrimmed(s: string)
    requires IsTrimmed(s)
    ensures Trim(s) == s
  {
    if s != [] {
      assert TrimStartFrom(s, 0) == 0;
      assert TrimEndFrom(s, 0, |s|) == |s|;
    }
  }

  lemma TrimIdempotent(s: string)
    ensures Trim(Trim(s)) == Trim(s)
  {
    TrimOfTrimmed(Trim(s));
  }

  /** `"  hello  ".trim()` is `"hello"`. */
  lemma TrimExample()
    ensures Trim("  hello  ") == "hello"
  {
    var q := "  hello  ";
    assert IsWhitespace(q[0]) && IsWhitespace(q[1]) && !IsWhitespace(q[2]);
    assert TrimStartFrom(q, 0) == 2;
    assert IsWhitespace(q[8]) && IsWhitespace(q[7]) && !IsWhitespace(q[6]);
    assert TrimEndFrom(q, 2, 9) == 7;
    assert q[2..7] == "hello";
  }
}

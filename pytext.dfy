/** Python's whitespace test and `str.strip()` with no arguments, as the game
    uses them: `res.text.strip()` on every model reply and `not answer.strip()`
    to refuse a blank answer. */
module PyText {

  /** `c.isspace()`: the code points CPython's `str.strip()` removes. */
  predicate IsSpace(c: char) {
    var n := c as int;
    (0x09 <= n <= 0x0D) || (0x1C <= n <= 0x20) || n == 0x85 || n == 0xA0 ||
    n == 0x1680 || (0x2000 <= n <= 0x200A) || n == 0x2028 || n == 0x2029 ||
    n == 0x202F || n == 0x205F || n == 0x3000
  }

  /** Every character is whitespace (the empty string included). */
  predicate IsBlank(s: string) {
    forall k :: 0 <= k < |s| ==> IsSpace(s[k])
  }

  /** Every character of `s` from index `lo` up to, not including, `hi` is
      whitespace. */
  predicate BlankBetween(s: string, lo: int, hi: int)
    requires 0 <= lo <= hi <= |s|
  {
    forall k :: lo <= k < hi ==> IsSpace(s[k])
  }

  /** Scans forward from `i` over whitespace: the index of the first
      non-whitespace character at or after `i`, or `|s|`. */
  function TextStart(s: string, i: nat): (j: nat)
    requires i <= |s|
    ensures i <= j <= |s| && BlankBetween(s, i, j)
    ensures j == |s| || !IsSpace(s[j])
    decreases |s| - i
  {
    if i < |s| && IsSpace(s[i]) then TextStart(s, i + 1) else i
  }

  /** Scans backward from `j`, not below `lo`, over whitespace: the index
      just past the last non-whitespace character before `j`, or `lo`. */
  function TextEnd(s: string, lo: nat, j: nat): (e: nat)
    requires lo <= j <= |s|
    ensures lo <= e <= j && BlankBetween(s, e, j)
    ensures e == lo || !IsSpace(s[e - 1])
    decreases j
  {
    if lo < j && IsSpace(s[j - 1]) then TextEnd(s, lo, j - 1) else j
  }

  /** `s.strip()`: whitespace removed at both ends. */
  function Strip(s: string): (r: string)
    ensures |r| <= |s|
    ensures r == [] || (!IsSpace(r[0]) && !IsSpace(r[|r| - 1]))
  {
    var lo := TextStart(s, 0);
    s[lo..TextEnd(s, lo, |s|)]
  }

  /** What `Strip` keeps is one contiguous slice of `s`, and everything it
      drops on either side is whitespace. */
  lemma StripIsSlice(s: string)
    ensures exists lo, hi ::
              0 <= lo <= hi <= |s| && Strip(s) == s[lo..hi] &&
              BlankBetween(s, 0, lo) && BlankBetween(s, hi, |s|)
  {
    var lo := TextStart(s, 0);
    var hi := TextEnd(s, lo, |s|);
    assert Strip(s) == s[lo..hi];
  }

  /** `not s.strip()` holds exactly for the blank strings. */
  lemma StripEmptyIff(s: string)
    ensures Strip(s) == [] <==> IsBlank(s)
  {
    var lo := TextStart(s, 0);
    var hi := TextEnd(s, lo, |s|);
    assert Strip(s) == s[lo..hi];
    if IsBlank(s) {
      assert lo == |s|;
    } else {
      assert lo < |s|;
    }
  }

  /** A string without whitespace at either end is left as it is. */
  lemma StripTrimmed(s: string)
    requires s == [] || (!IsSpace(s[0]) && !IsSpace(s[|s| - 1]))
    ensures Strip(s) == s
  {
    assert TextStart(s, 0) == 0;
    assert TextEnd(s, 0, |s|) == |s|;
    assert s[0..|s|] == s;
  }

  /** Stripping is idempotent. */
  lemma StripIdempotent(s: string)
    ensures Strip(Strip(s)) == Strip(s)
  {
    StripTrimmed(Strip(s));
  }
}

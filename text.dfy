/** The two operations on Rust's `str` that the build script relies on:
    substring search (`contains`) and removal of trailing white space (`trim_end`). */
module Text {

  /** `pat` occurs in `s` starting at offset `i`. */
  predicate OccursAt(s: string, pat: string, i: nat) {
    i + |pat| <= |s| && s[i..i + |pat|] == pat
  }

  /** `s.contains(pat)`: `pat` occurs in `s` at some offset. */
  predicate Contains(s: string, pat: string) {
    exists i: nat :: i <= |s| && OccursAt(s, pat, i)
  }

  /** Every character of a pattern that occurs in `s` is a character of `s`;
      used to show that a pattern does NOT occur. */
  lemma ContainsChar(s: string, pat: string, c: char)
    requires Contains(s, pat) && c in pat
    ensures c in s
  {
    var i: nat :| i <= |s| && OccursAt(s, pat, i);
    var j :| 0 <= j < |pat| && pat[j] == c;
    assert s[i + j] == s[i..i + |pat|][j];
  }

  /** Rust's `char::is_whitespace`: the Unicode `White_Space` property. */
  predicate IsWhitespace(c: char) {
    var n := c as int;
    (0x09 <= n <= 0x0D) || n == 0x20 || n == 0x85 || n == 0xA0 || n == 0x1680
    || (0x2000 <= n <= 0x200A) || n == 0x2028 || n == 0x2029 || n == 0x202F
    || n == 0x205F || n == 0x3000
  }

  /** `r` is what remains of `s` once its trailing white space is removed:
      a prefix of `s`, the removed tail is all white space, and `r` does not
      itself end in white space. */
  predicate TrimmedFrom(r: string, s: string) {
    |r| <= |s| && r == s[..|r|]
    && (forall k :: |r| <= k < |s| ==> IsWhitespace(s[k]))
    && (r == [] || !IsWhitespace(r[|r| - 1]))
  }

  /** `s.trim_end()`. */
  function TrimEnd(s: string): (r: string)
    ensures TrimmedFrom(r, s)
  {
    if |s| > 0 && IsWhitespace(s[|s| - 1]) then TrimEnd(s[..|s| - 1]) else s
  }

  /** `TrimmedFrom` determines its first argument: `TrimEnd` is the only way
      to trim a string. */
  lemma TrimmedFromUnique(p: string, q: string, s: string)
    requires TrimmedFrom(p, s) && TrimmedFrom(q, s)
    ensures p == q
  {
  }

  /** Any trimming of `s` is `TrimEnd(s)`. */
  lemma TrimEndCharacterised(p: string, s: string)
    requires TrimmedFrom(p, s)
    ensures p == TrimEnd(s)
  {
    TrimmedFromUnique(p, TrimEnd(s), s);
  }

  /** Trimming twice is trimming once. */
  lemma TrimEndIdempotent(s: string)
    ensures TrimEnd(TrimEnd(s)) == TrimEnd(s)
  {
  }

  /** A string with no trailing white space is left unchanged. */
  lemma TrimEndKeeps(s: string)
    requires s == [] || !IsWhitespace(s[|s| - 1])
    ensures TrimEnd(s) == s
  {
  }

  /** Characters appended after a string that does not end in white space are
      exactly what trimming removes, provided they are all white space. */
  lemma {:induction false} TrimEndOfPadded(p: string, pad: string)
    requires p == [] || !IsWhitespace(p[|p| - 1])
    requires forall k :: 0 <= k < |pad| ==> IsWhitespace(pad[k])
    ensures TrimEnd(p + pad) == p
  {
    var s := p + pad;
    assert s[..|p|] == p;
    forall k | |p| <= k < |s| ensures IsWhitespace(s[k]) {
      assert s[k] == pad[k - |p|];
    }
    TrimEndCharacterised(p, s);
  }
}

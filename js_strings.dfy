/**
  The two JavaScript string operations the client relies on: String.prototype.trim, which
  strips the ECMAScript WhiteSpace and LineTerminator characters from both ends, and
  String.prototype.toUpperCase restricted to ASCII letters (user ids are base-36 strings).
 */
module JsStrings {

  /** ECMAScript WhiteSpace (including every space separator) and LineTerminator code points. */
  predicate IsWhitespace(c: char)
  {
    var n := c as int;
    (9 <= n <= 13) || n == 0x20 || n == 0xA0 || n == 0x1680 || (0x2000 <= n <= 0x200A)
    || n == 0x2028 || n == 0x2029 || n == 0x202F || n == 0x205F || n == 0x3000 || n == 0xFEFF
  }

  predicate AllWhitespace(s: string)
  {
    forall k :: 0 <= k < |s| ==> IsWhitespace(s[k])
  }

  /** Length of the whitespace prefix of `s`. */
  function LeadingSpace(s: string): (i: nat)
    ensures i <= |s| && AllWhitespace(s[..i])
    ensures i < |s| ==> !IsWhitespace(s[i])
  {
    if s != [] && IsWhitespace(s[0]) then
      var i := 1 + LeadingSpace(s[1..]);
      assert forall k :: 1 <= k < i ==> s[..i][k] == s[1..][..i - 1][k - 1];
      i
    else 0
  }

  /** Index at which the whitespace suffix of `s` starts. */
  function TrailingStart(s: string): (j: nat)
    ensures j <= |s| && AllWhitespace(s[j..])
    ensures j > 0 ==> !IsWhitespace(s[j - 1])
  {
    if s != [] && IsWhitespace(s[|s| - 1]) then
      var j := TrailingStart(s[..|s| - 1]);
      assert forall k :: j <= k < |s| - 1 ==> s[k] == s[..|s| - 1][k];
      j
    else |s|
  }

  /**
    JavaScript's trim: `r` is the slice of `s` left after dropping the whitespace prefix and
    suffix; it is empty exactly when `s` is all whitespace, and otherwise starts and ends
    with a non-whitespace character.
   */
  function Trim(s: string): (r: string)
    ensures var i := LeadingSpace(s);
      i + |r| <= |s| && r == s[i..i + |r|] && AllWhitespace(s[..i]) && AllWhitespace(s[i + |r|..])
    ensures r == [] <==> AllWhitespace(s)
    ensures r != [] ==> !IsWhitespace(r[0]) && !IsWhitespace(r[|r| - 1])
  {
    var i := LeadingSpace(s);
    var j := TrailingStart(s);
    if i < j then s[i..j]
    else
      assert i == |s|;
      assert AllWhitespace(s) by {
        forall k | 0 <= k < |s| ensures IsWhitespace(s[k]) { assert s[k] == s[..i][k]; }
      }
      []
  }

  /** Trimming an already trimmed string changes nothing. */
  lemma TrimIdempotent(s: string)
    ensures Trim(Trim(s)) == Trim(s)
  {
    var r := Trim(s);
    if r != [] {
      assert LeadingSpace(r) == 0;
      assert TrailingStart(r) == |r|;
    }
  }

  function UpperChar(c: char): char
  {
    if 'a' <= c <= 'z' then (c as int - 32) as char else c
  }

  /** ASCII upper-casing, character by character. */
  function ToUpperCase(s: string): (r: string)
    ensures |r| == |s|
    ensures forall k :: 0 <= k < |r| ==> !('a' <= r[k] <= 'z')
    ensures forall k :: 0 <= k < |r| ==> (r[k] == s[k] || ('a' <= s[k] <= 'z' && r[k] as int == s[k] as int - 32))
  {
    seq(|s|, k requires 0 <= k < |s| => UpperChar(s[k]))
  }
}

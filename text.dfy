/**
 * JavaScript's `String.prototype.trim`: it removes the leading and trailing
 * characters that ECMA-262 classifies as WhiteSpace or LineTerminator.
 */
module Text {

  /** WhiteSpace and LineTerminator code points of ECMA-262 (sections 12.2 and 12.3). */
  predicate IsWhitespace(c: char)
  {
    c == '\t' || c == '\n' || c == '\U{000B}' || c == '\U{000C}' || c == '\r' || c == ' '
    || c == '\U{00A0}' || c == '\U{1680}' || ('\U{2000}' <= c <= '\U{200A}')
    || c == '\U{2028}' || c == '\U{2029}' || c == '\U{202F}' || c == '\U{205F}'
    || c == '\U{3000}' || c == '\U{FEFF}'
  }

  predicate AllWhitespace(s: string)
  {
    forall i :: 0 <= i < |s| ==> IsWhitespace(s[i])
  }

  /** `s` without its leading whitespace. */
  function TrimStart(s: string): (r: string)
    ensures |r| <= |s| && r == s[|s| - |r|..]
    ensures AllWhitespace(s[..|s| - |r|])
    ensures r == [] || !IsWhitespace(r[0])
  {
    if s != [] && IsWhitespace(s[0]) then
      var r := TrimStart(s[1..]);
      assert s[..|s| - |r|] == [s[0]] + s[1..][..|s| - 1 - |r|];
      r
    else
      s
  }

  /** `s` without its trailing whitespace. */
  function TrimEnd(s: string): (r: string)
    ensures |r| <= |s| && r == s[..|r|]
    ensures AllWhitespace(s[|r|..])
    ensures r == [] || !IsWhitespace(r[|r| - 1])
  {
    if s != [] && IsWhitespace(s[|s| - 1]) then
      var r := TrimEnd(s[..|s| - 1]);
      assert s[|r|..] == s[..|s| - 1][|r|..] + [s[|s| - 1]];
      r
    else
      s
  }

  /** `s.trim()`: the middle part of `s` between its leading and trailing whitespace. */
  function Trim(s: string): (r: string)
    ensures |r| <= |s|
    ensures r == [] || (!IsWhitespace(r[0]) && !IsWhitespace(r[|r| - 1]))
  {
    TrimEnd(TrimStart(s))
  }

  /**
   * Trimming keeps the middle of the string: the result is the slice of `s`
   * that starts at `Start` and is surrounded by whitespace only.
   */
  lemma TrimMiddle(s: string)
    ensures Start(s) + |Trim(s)| <= |s|
    ensures Trim(s) == s[Start(s)..Start(s) + |Trim(s)|]
    ensures AllWhitespace(s[..Start(s)]) && AllWhitespace(s[Start(s) + |Trim(s)|..])
  {
    var t := TrimStart(s);
    assert s[Start(s) + |Trim(s)|..] == t[|Trim(s)|..];
  }

  /** Where the trimmed text begins in `s`: the length of its leading whitespace. */
  function Start(s: string): (i: nat)
    ensures i <= |s| && AllWhitespace(s[..i])
    ensures i == |s| || !IsWhitespace(s[i])
  {
    |s| - |TrimStart(s)|
  }

  /** A trimmed string is empty exactly when the original consists of whitespace only. */
  lemma TrimEmptyIff(s: string)
    ensures Trim(s) == [] <==> AllWhitespace(s)
  {
  }

  /** Trimming twice is trimming once. */
  lemma TrimIdempotent(s: string)
    ensures Trim(Trim(s)) == Trim(s)
  {
  }
}

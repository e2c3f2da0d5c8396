/**
 * The Python string operations the core uses: `str.isspace`, `str.strip()`
 * and `str.startswith`.
 */
module PyText {

  /** The characters for which Python's `str.isspace()` holds. */
  predicate IsSpace(c: char)
  {
    || c == ' ' || c == '\t' || c == '\n' || c == '\r'
    || c == '\U{b}' || c == '\U{c}'
    || ('\U{1c}' <= c <= '\U{1f}')
    || c == '\U{85}' || c == '\U{a0}' || c == '\U{1680}'
    || ('\U{2000}' <= c <= '\U{200a}')
    || c == '\U{2028}' || c == '\U{2029}' || c == '\U{202f}'
    || c == '\U{205f}' || c == '\U{3000}'
  }

  /** Every character is whitespace (the empty string included). */
  predicate IsBlank(s: string)
  {
    forall i :: 0 <= i < |s| ==> IsSpace(s[i])
  }

  /** `s.lstrip()`: drop leading whitespace. */
  function TrimLeft(s: string): (r: string)
    ensures |r| <= |s| && r == s[|s| - |r|..]
    ensures r == [] || !IsSpace(r[0])
    ensures IsBlank(s[..|s| - |r|])
  {
    if |s| > 0 && IsSpace(s[0]) then
      var r := TrimLeft(s[1..]);
      assert s[1..][..|s| - 1 - |r|] == s[1..|s| - |r|];
      r
    else s
  }

  /** `s.rstrip()`: drop trailing whitespace. */
  function TrimRight(s: string): (r: string)
    ensures |r| <= |s| && r == s[..|r|]
    ensures r == [] || !IsSpace(r[|r| - 1])
    ensures IsBlank(s[|r|..])
  {
    if |s| > 0 && IsSpace(s[|s| - 1]) then
      var r := TrimRight(s[..|s| - 1]);
      assert s[..|s| - 1][|r|..] == s[|r|..|s| - 1];
      r
    else s
  }

  /** `s.strip()`. */
  function Strip(s: string): string
  {
    TrimRight(TrimLeft(s))
  }

  /** `not s.strip()` holds exactly of the blank strings. */
  lemma {:induction false} StripEmptyIffBlank(s: string)
    ensures Strip(s) == [] <==> IsBlank(s)
  {
    var l := TrimLeft(s);
    if !IsBlank(s) {
      var i :| 0 <= i < |s| && !IsSpace(s[i]);
      assert l[i - (|s| - |l|)] == s[i];
    }
  }

  /** Stripping keeps a character that is not whitespace. */
  lemma StripOfNonSpace(s: string)
    requires s != [] && !IsSpace(s[0]) && !IsSpace(s[|s| - 1])
    ensures Strip(s) == s
  {
  }

  predicate StartsWith(s: string, prefix: string)
  {
    |prefix| <= |s| && s[..|prefix|] == prefix
  }
}

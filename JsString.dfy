/**
 * The part of JavaScript's string semantics the task page relies on:
 * `String.prototype.trim` and the truthiness of a string.
 */
module JsString {

  /**
   * The code points `trim` removes: the ECMAScript WhiteSpace set (tab,
   * vertical tab, form feed, the byte order mark and every space separator of
   * Unicode category Zs) together with the LineTerminator set (line feed,
   * carriage return, line and paragraph separator).
   */
  const WHITESPACE: set<char> := {
    '\t', '\n', '\U{000B}', '\U{000C}', '\r', ' ',
    '\U{00A0}', '\U{1680}',
    '\U{2000}', '\U{2001}', '\U{2002}', '\U{2003}', '\U{2004}', '\U{2005}',
    '\U{2006}', '\U{2007}', '\U{2008}', '\U{2009}', '\U{200A}',
    '\U{2028}', '\U{2029}', '\U{202F}', '\U{205F}', '\U{3000}', '\U{FEFF}'
  }

  predicate IsWhitespace(c: char) {
    c in WHITESPACE
  }

  /** Every character of `s` is one that `trim` removes. */
  predicate IsBlank(s: string) {
    forall i :: 0 <= i < |s| ==> IsWhitespace(s[i])
  }

  /** `s` without its leading whitespace. */
  function TrimStart(s: string): (r: string)
    ensures |r| <= |s| && r == s[|s| - |r|..]
    ensures forall i :: 0 <= i < |s| - |r| ==> IsWhitespace(s[i])
    ensures r == [] || !IsWhitespace(r[0])
  {
    if s != [] && IsWhitespace(s[0]) then TrimStart(s[1..]) else s
  }

  /** `s` without its trailing whitespace. */
  function TrimEnd(s: string): (r: string)
    ensures |r| <= |s| && r == s[..|r|]
    ensures forall i :: |r| <= i < |s| ==> IsWhitespace(s[i])
    ensures r == [] || !IsWhitespace(r[|r| - 1])
  {
    if s != [] && IsWhitespace(s[|s| - 1]) then TrimEnd(s[..|s| - 1]) else s
  }

  /**
   * `String.prototype.trim`: the block of `s` that starts after its `k`
   * leading whitespace characters, with only whitespace around it.
   */
  function Trim(s: string): (r: string)
    ensures |r| <= |s|
    ensures r == [] || (!IsWhitespace(r[0]) && !IsWhitespace(r[|r| - 1]))
    ensures var k := |s| - |TrimStart(s)|;
      k + |r| <= |s| && r == s[k..k + |r|] && IsBlank(s[..k]) && IsBlank(s[k + |r|..])
  {
    BothEndsStripped(s);
    TrimEnd(TrimStart(s))
  }

  /** Stripping the trailing whitespace of the stripped suffix leaves a block of `s` with whitespace around it. */
  lemma BothEndsStripped(s: string)
    ensures var k := |s| - |TrimStart(s)|; var r := TrimEnd(TrimStart(s));
      k + |r| <= |s| && r == s[k..k + |r|] && IsBlank(s[..k]) && IsBlank(s[k + |r|..])
  {
    var t := TrimStart(s);
    var r := TrimEnd(t);
    var k := |s| - |t|;
    assert t == s[k..];
    assert r == t[..|r|];
    assert r == s[k..k + |r|];
    var head := s[..k];
    forall i | 0 <= i < |head|
      ensures IsWhitespace(head[i])
    {
      assert head[i] == s[i];
    }
    var tail := s[k + |r|..];
    forall i | 0 <= i < |tail|
      ensures IsWhitespace(tail[i])
    {
      assert tail[i] == t[|r| + i];
    }
    assert IsBlank(head) && IsBlank(tail);
  }

  /** JavaScript truthiness of a string: only the empty string is falsy. */
  predicate Truthy(s: string) {
    s != ""
  }

  /** `!s.trim()` holds exactly when `s` consists of whitespace only. */
  lemma TrimFalsyIffBlank(s: string)
    ensures !Truthy(Trim(s)) <==> IsBlank(s)
  {
  }
}

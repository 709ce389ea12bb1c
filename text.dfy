/** The string predicates the program relies on: .NET's
    `string.IsNullOrEmpty` and `string.IsNullOrWhiteSpace`, the lower-casing
    used for the exit command, and JavaScript's `String.prototype.trim`. */
module Text {
  import opened Wrappers

  /** `Char.IsWhiteSpace` of .NET: the space separators (Unicode category
      Zs), the line and paragraph separators, U+0009 to U+000D and U+0085. */
  predicate IsDotNetWhiteSpace(c: char)
  {
    ('\t' <= c <= '\r') || c == ' ' || c == '\U{0085}' || c == '\U{00A0}'
    || c == '\U{1680}' || ('\U{2000}' <= c <= '\U{200A}')
    || c == '\U{2028}' || c == '\U{2029}' || c == '\U{202F}'
    || c == '\U{205F}' || c == '\U{3000}'
  }

  /** The characters JavaScript's `trim` removes: WhiteSpace and
      LineTerminator of ECMA-262. Unlike .NET it strips U+FEFF and keeps
      U+0085. */
  predicate IsJsWhiteSpace(c: char)
  {
    ('\t' <= c <= '\r') || c == ' ' || c == '\U{00A0}'
    || c == '\U{1680}' || ('\U{2000}' <= c <= '\U{200A}')
    || c == '\U{2028}' || c == '\U{2029}' || c == '\U{202F}'
    || c == '\U{205F}' || c == '\U{3000}' || c == '\U{FEFF}'
  }

  /** `string.IsNullOrEmpty`. */
  predicate IsNullOrEmpty(s: Option<string>)
  {
    s.None? || s.value == ""
  }

  /** `string.IsNullOrWhiteSpace`. */
  predicate IsNullOrWhiteSpace(s: Option<string>)
  {
    s.None? || forall i :: 0 <= i < |s.value| ==> IsDotNetWhiteSpace(s.value[i])
  }

  /** Lower-casing of one character, restricted to ASCII letters. */
  function LowerChar(c: char): char
  {
    if 'A' <= c <= 'Z' then (c as int + 32) as char else c
  }

  /** `ToLower`, restricted to ASCII letters: the same length, each
      character lowered on its own. */
  function Lower(s: string): (r: string)
    ensures |r| == |s|
    ensures forall i :: 0 <= i < |s| ==> r[i] == LowerChar(s[i])
  {
    if s == [] then [] else [LowerChar(s[0])] + Lower(s[1..])
  }

  /** JavaScript's `trimStart`: drops the leading whitespace and nothing
      else. */
  function TrimStart(s: string): (r: string)
    ensures |r| <= |s| && r == s[|s| - |r|..]
    ensures forall i :: 0 <= i < |s| - |r| ==> IsJsWhiteSpace(s[i])
    ensures r == [] || !IsJsWhiteSpace(r[0])
  {
    if s != [] && IsJsWhiteSpace(s[0]) then TrimStart(s[1..]) else s
  }

  /** JavaScript's `trimEnd`: drops the trailing whitespace and nothing
      else. */
  function TrimEnd(s: string): (r: string)
    ensures |r| <= |s| && r == s[..|r|]
    ensures forall i :: |r| <= i < |s| ==> IsJsWhiteSpace(s[i])
    ensures r == [] || !IsJsWhiteSpace(r[|r| - 1])
  {
    if s != [] && IsJsWhiteSpace(s[|s| - 1]) then TrimEnd(s[..|s| - 1]) else s
  }

  /** JavaScript's `trim`: the text between the leading and the trailing
      whitespace. It is empty exactly when every character is whitespace. */
  function Trim(s: string): (r: string)
    ensures r == [] <==> forall i :: 0 <= i < |s| ==> IsJsWhiteSpace(s[i])
    ensures r != [] ==> !IsJsWhiteSpace(r[0]) && !IsJsWhiteSpace(r[|r| - 1])
    ensures Leading(s) + |r| <= |s| && r == s[Leading(s)..Leading(s) + |r|]
    ensures forall i :: 0 <= i < Leading(s) ==> IsJsWhiteSpace(s[i])
    ensures forall i :: Leading(s) + |r| <= i < |s| ==> IsJsWhiteSpace(s[i])
  {
    var t := TrimStart(s);
    var r := TrimEnd(t);
    TrimParts(s, |s| - |t|, t, r);
    r
  }

  /** How many whitespace characters `trim` drops at the front of `s`. */
  function Leading(s: string): nat
  {
    |s| - |TrimStart(s)|
  }

  /** Where the trimmed text sits in `s`: `TrimEnd` keeps a prefix `r` of
      the suffix `t` that `TrimStart` keeps, so only whitespace surrounds
      `r`, and `r` is empty only when `s` is all whitespace. */
  lemma TrimParts(s: string, a: nat, t: string, r: string)
    requires a <= |s| && t == s[a..]
    requires forall i :: 0 <= i < a ==> IsJsWhiteSpace(s[i])
    requires t == [] || !IsJsWhiteSpace(t[0])
    requires |r| <= |t| && r == t[..|r|]
    requires forall i :: |r| <= i < |t| ==> IsJsWhiteSpace(t[i])
    requires r == [] || !IsJsWhiteSpace(r[|r| - 1])
    ensures a + |r| <= |s| && s[a..a + |r|] == r
    ensures forall i :: a + |r| <= i < |s| ==> IsJsWhiteSpace(s[i])
    ensures r == [] <==> forall i :: 0 <= i < |s| ==> IsJsWhiteSpace(s[i])
    ensures r != [] ==> !IsJsWhiteSpace(r[0]) && !IsJsWhiteSpace(r[|r| - 1])
  {
    forall i | a + |r| <= i < |s|
      ensures IsJsWhiteSpace(s[i])
    {
      assert s[i] == t[i - a];
    }
    if r != [] {
      assert r[0] == t[0];
    } else {
      assert t == [];
    }
  }
}

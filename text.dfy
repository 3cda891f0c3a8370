/**
 * String operations of the JavaScript runtime that the core relies on:
 * digit filtering, whitespace removal and trimming, `startsWith`, `split(c)[0]`,
 * ASCII `toLowerCase` and `includes`.
 */
module Text {

  predicate IsDigit(c: char) {
    '0' <= c <= '9'
  }

  predicate AllDigits(s: string) {
    forall i :: 0 <= i < |s| ==> IsDigit(s[i])
  }

  /**
   * The characters JavaScript's `\s` and `String.prototype.trim` treat as white
   * space: the WhiteSpace and LineTerminator productions of ECMAScript.
   */
  predicate IsJsWhitespace(c: char) {
    || c == '\t' || c == '\n' || c == '\U{B}' || c == '\U{C}' || c == '\r' || c == ' '
    || c == '\U{A0}' || c == '\U{1680}' || ('\U{2000}' <= c <= '\U{200A}')
    || c == '\U{2028}' || c == '\U{2029}' || c == '\U{202F}' || c == '\U{205F}'
    || c == '\U{3000}' || c == '\U{FEFF}'
  }

  /** `s.replace(/\D/g, '')`: the digits of `s`, in order. */
  function DigitsOf(s: string): (r: string)
    ensures AllDigits(r)
    ensures |r| <= |s|
    ensures AllDigits(s) ==> r == s
  {
    if s == [] then [] else (if IsDigit(s[0]) then [s[0]] else []) + DigitsOf(s[1..])
  }

  lemma {:induction false} DigitsOfAppend(a: string, b: string)
    ensures DigitsOf(a + b) == DigitsOf(a) + DigitsOf(b)
  {
    if a == [] {
      assert a + b == b;
    } else {
      assert (a + b)[1..] == a[1..] + b;
      DigitsOfAppend(a[1..], b);
    }
  }

  /**
   * What the digit filter keeps: every character of the result is taken from `s`, and
   * every digit of `s` is kept. With `DigitsOfAppend`, a single non-digit maps to `[]`.
   */
  lemma {:induction false} DigitsOfContents(s: string)
    ensures forall i :: 0 <= i < |DigitsOf(s)| ==> DigitsOf(s)[i] in s
    ensures forall i :: 0 <= i < |s| && IsDigit(s[i]) ==> s[i] in DigitsOf(s)
  {
    if s != [] {
      DigitsOfContents(s[1..]);
      var r := DigitsOf(s);
      var h := if IsDigit(s[0]) then [s[0]] else [];
      assert r == h + DigitsOf(s[1..]);
      forall i | 0 <= i < |r| ensures r[i] in s {
        if i >= |h| { assert r[i] == DigitsOf(s[1..])[i - |h|]; assert r[i] in s[1..]; }
      }
      forall i | 0 <= i < |s| && IsDigit(s[i]) ensures s[i] in r {
        if i > 0 { assert s[i] == s[1..][i - 1]; }
      }
    }
  }

  /** `s.replace(/\s/g, '')`: `s` with every white-space character removed. */
  function RemoveWhitespace(s: string): (r: string)
    ensures forall i :: 0 <= i < |r| ==> !IsJsWhitespace(r[i])
    ensures |r| <= |s|
    ensures (forall i :: 0 <= i < |s| ==> !IsJsWhitespace(s[i])) ==> r == s
  {
    if s == [] then [] else (if IsJsWhitespace(s[0]) then [] else [s[0]]) + RemoveWhitespace(s[1..])
  }

  lemma {:induction false} RemoveWhitespaceAppend(a: string, b: string)
    ensures RemoveWhitespace(a + b) == RemoveWhitespace(a) + RemoveWhitespace(b)
  {
    if a == [] {
      assert a + b == b;
    } else {
      assert (a + b)[1..] == a[1..] + b;
      RemoveWhitespaceAppend(a[1..], b);
    }
  }

  /**
   * What white-space removal keeps: every character of the result is taken from `s`,
   * and every other character of `s` is kept. With `RemoveWhitespaceAppend`, a single
   * white-space character maps to `[]`.
   */
  lemma {:induction false} RemoveWhitespaceContents(s: string)
    ensures forall i :: 0 <= i < |RemoveWhitespace(s)| ==> RemoveWhitespace(s)[i] in s
    ensures forall i :: 0 <= i < |s| && !IsJsWhitespace(s[i]) ==> s[i] in RemoveWhitespace(s)
  {
    if s != [] {
      RemoveWhitespaceContents(s[1..]);
      var r := RemoveWhitespace(s);
      var h := if IsJsWhitespace(s[0]) then [] else [s[0]];
      assert r == h + RemoveWhitespace(s[1..]);
      forall i | 0 <= i < |r| ensures r[i] in s {
        if i >= |h| { assert r[i] == RemoveWhitespace(s[1..])[i - |h|]; assert r[i] in s[1..]; }
      }
      forall i | 0 <= i < |s| && !IsJsWhitespace(s[i]) ensures s[i] in r {
        if i > 0 { assert s[i] == s[1..][i - 1]; }
      }
    }
  }

  /** `s.trimStart()`: `s` without its leading white space. */
  function TrimStart(s: string): (r: string)
    ensures |r| <= |s| && r == s[|s| - |r|..]
    ensures r != [] ==> !IsJsWhitespace(r[0])
    ensures forall i :: 0 <= i < |s| - |r| ==> IsJsWhitespace(s[i])
  {
    if s != [] && IsJsWhitespace(s[0]) then
      var r := TrimStart(s[1..]);
      assert forall i :: 1 <= i < |s| - |r| ==> s[i] == s[1..][i - 1];
      assert s[1..][|s| - 1 - |r|..] == s[|s| - |r|..];
      r
    else
      s
  }

  /** `s.trimEnd()`: `s` without its trailing white space. */
  function TrimEnd(s: string): (r: string)
    ensures |r| <= |s| && r == s[..|r|]
    ensures r != [] ==> !IsJsWhitespace(r[|r| - 1])
    ensures forall i :: |r| <= i < |s| ==> IsJsWhitespace(s[i])
  {
    if s != [] && IsJsWhitespace(s[|s| - 1]) then TrimEnd(s[..|s| - 1]) else s
  }

  /** `s.trim()`: empty exactly when `s` is all white space. */
  function Trim(s: string): (r: string)
    ensures r == [] <==> forall i :: 0 <= i < |s| ==> IsJsWhitespace(s[i])
    ensures r != [] ==> !IsJsWhitespace(r[0]) && !IsJsWhitespace(r[|r| - 1])
  {
    var t := TrimStart(s);
    var r := TrimEnd(t);
    assert r == [] ==> forall i :: 0 <= i < |s| ==> IsJsWhitespace(s[i]) by {
      if r == [] {
        assert t == [];
      }
    }
    assert r != [] ==> r[0] == t[0];
    r
  }

  predicate StartsWith(s: string, prefix: string) {
    |prefix| <= |s| && s[..|prefix|] == prefix
  }

  /** `s.split(sep)[0]`: the text before the first `sep`, or all of `s` when there is none. */
  function SplitFirst(s: string, sep: char): (r: string)
    ensures |r| <= |s| && r == s[..|r|]
    ensures sep !in r
    ensures |r| < |s| ==> s[|r|] == sep
  {
    if s == [] || s[0] == sep then [] else [s[0]] + SplitFirst(s[1..], sep)
  }

  function LowerChar(c: char): char {
    if 'A' <= c <= 'Z' then (c as int + 32) as char else c
  }

  /** `s.toLowerCase()` on the ASCII letters. */
  function ToLower(s: string): (r: string)
    ensures |r| == |s|
    ensures forall i :: 0 <= i < |s| ==> r[i] == LowerChar(s[i])
  {
    if s == [] then [] else [LowerChar(s[0])] + ToLower(s[1..])
  }

  /** `hay.includes(needle)`: `needle` occurs in `hay` at some offset. */
  predicate Contains(hay: string, needle: string)
    decreases |hay|
  {
    StartsWith(hay, needle) || (hay != [] && Contains(hay[1..], needle))
  }
}

/**
 * When JavaScript's `Number(s)` is NaN: the StringNumericLiteral grammar of ECMAScript
 * (section 7.1.4.1 of ECMA-262), applied to `s` with its white space trimmed. An
 * all-white-space string converts to 0.
 */
module JsNumber {
  import opened Text

  predicate IsHexDigit(c: char) {
    IsDigit(c) || 'a' <= c <= 'f' || 'A' <= c <= 'F'
  }

  predicate IsOctalDigit(c: char) {
    '0' <= c <= '7'
  }

  predicate IsBinaryDigit(c: char) {
    c == '0' || c == '1'
  }

  predicate IsSign(c: char) {
    c == '+' || c == '-'
  }

  /** DecimalDigits: one or more digits. */
  predicate IsDecimalDigits(s: string) {
    s != [] && AllDigits(s)
  }

  /** What follows the `e` or `E` of an ExponentPart: an optional sign, then digits. */
  predicate IsExponentBody(s: string) {
    if s != [] && IsSign(s[0]) then IsDecimalDigits(s[1..]) else IsDecimalDigits(s)
  }

  /** Digits with at most one `.`, and at least one digit on some side of it. */
  predicate IsMantissa(s: string) {
    var intPart := SplitFirst(s, '.');
    if |intPart| == |s| then IsDecimalDigits(s)
    else
      var frac := s[|intPart| + 1..];
      AllDigits(intPart) && AllDigits(frac) && (intPart != [] || frac != [])
  }

  /** The index of the first `e` or `E`, or `|s|` when there is none. */
  function ExponentIndex(s: string): (i: nat)
    ensures i <= |s|
    ensures forall j :: 0 <= j < i ==> s[j] != 'e' && s[j] != 'E'
    ensures i < |s| ==> s[i] == 'e' || s[i] == 'E'
  {
    if s == [] || s[0] == 'e' || s[0] == 'E' then 0 else 1 + ExponentIndex(s[1..])
  }

  /** StrUnsignedDecimalLiteral. */
  predicate IsUnsignedDecimal(s: string) {
    || s == "Infinity"
    || (var i := ExponentIndex(s);
        IsMantissa(s[..i]) && (i == |s| || IsExponentBody(s[i + 1..])))
  }

  /** StrDecimalLiteral: an optional sign, then an unsigned decimal. */
  predicate IsStrDecimalLiteral(s: string) {
    if s != [] && IsSign(s[0]) then IsUnsignedDecimal(s[1..]) else IsUnsignedDecimal(s)
  }

  /** NonDecimalIntegerLiteral: `0x`, `0o` or `0b` and at least one digit of that base. */
  predicate IsNonDecimalInteger(s: string) {
    && |s| >= 3 && s[0] == '0'
    && (|| ((s[1] == 'x' || s[1] == 'X') && forall i :: 2 <= i < |s| ==> IsHexDigit(s[i]))
        || ((s[1] == 'o' || s[1] == 'O') && forall i :: 2 <= i < |s| ==> IsOctalDigit(s[i]))
        || ((s[1] == 'b' || s[1] == 'B') && forall i :: 2 <= i < |s| ==> IsBinaryDigit(s[i])))
  }

  /** `isNaN(Number(s))`. */
  predicate IsNaN(s: string) {
    var t := Trim(s);
    t != [] && !IsStrDecimalLiteral(t) && !IsNonDecimalInteger(t)
  }

  /** A string of digits is a number (the empty string converts to 0). */
  lemma DigitStringIsNumber(s: string)
    requires AllDigits(s)
    ensures !IsNaN(s)
  {
    if s != [] {
      TrimKeepsUnpadded(s);
      assert s != "Infinity" by { assert !IsDigit(("Infinity")[0]); }
      var i := ExponentIndex(s);
      assert i == |s|;
      assert s[..i] == s;
      assert SplitFirst(s, '.') == s;
    }
  }

  /** Trimming leaves a string alone when neither end is white space. */
  lemma TrimKeepsUnpadded(s: string)
    requires s != [] && !IsJsWhitespace(s[0]) && !IsJsWhitespace(s[|s| - 1])
    ensures Trim(s) == s
  {
    assert TrimStart(s) == s;
  }

  /** A string of white space only (the empty string included) converts to 0, which is not NaN. */
  lemma BlankIsNumber(s: string)
    requires forall i :: 0 <= i < |s| ==> IsJsWhitespace(s[i])
    ensures !IsNaN(s)
  {
    assert Trim(s) == [];
  }

  /** Exponent notation: digits, `e`, digits is a number. */
  lemma ExponentIsNumber(m: string, e: string)
    requires IsDecimalDigits(m) && IsDecimalDigits(e)
    ensures !IsNaN(m + "e" + e)
  {
    var s := m + "e" + e;
    assert s[0] == m[0] && s[|s| - 1] == e[|e| - 1];
    TrimKeepsUnpadded(s);
    var i := ExponentIndex(s);
    assert s[|m|] == 'e';
    assert forall j :: 0 <= j < |m| ==> s[j] == m[j];
    assert i == |m|;
    assert s[..i] == m;
    assert s[i + 1..] == e;
    assert !IsSign(e[0]);
  }

  /** Lower-case letters from `g` to `z`: none is a digit of any base, an exponent mark or a dot. */
  predicate IsLateLetters(t: string) {
    t != [] && forall i :: 0 <= i < |t| ==> 'g' <= t[i] <= 'z'
  }

  /** Digits then late letters are not a StrDecimalLiteral: no exponent, and the mantissa has a letter. */
  lemma LateLettersNotDecimal(m: string, t: string)
    requires IsDecimalDigits(m) && IsLateLetters(t)
    ensures !IsStrDecimalLiteral(m + t)
  {
    var s := m + t;
    assert s[0] == m[0] && s[|m|] == t[0];
    assert s != "Infinity" by { assert s[0] != 'I'; }
    assert forall j :: 0 <= j < |s| ==> s[j] != 'e' && s[j] != 'E' && s[j] != '.' by {
      forall j | 0 <= j < |s| ensures s[j] != 'e' && s[j] != 'E' && s[j] != '.' {
        if j < |m| { assert s[j] == m[j]; } else { assert s[j] == t[j - |m|]; }
      }
    }
    assert ExponentIndex(s) == |s|;
    assert s[..|s|] == s;
    assert |SplitFirst(s, '.')| == |s|;
    assert !IsDigit(s[|m|]);
  }

  /** Digits then late letters are not a hexadecimal, octal or binary literal. */
  lemma LateLettersNotNonDecimal(m: string, t: string)
    requires IsDecimalDigits(m) && IsLateLetters(t)
    ensures !IsNonDecimalInteger(m + t)
  {
    var s := m + t;
    if |s| >= 3 && s[0] == '0' && !IsDigit(s[1]) {
      assert |m| == 1;
      assert s[2] == t[1];
    }
  }

  /**
   * Digits followed by lower-case letters past `f` are NaN: the letters cannot be read
   * as an exponent, a hexadecimal, octal or binary literal, or `Infinity`.
   */
  lemma TrailingLettersAreNaN(m: string, t: string)
    requires IsDecimalDigits(m) && IsLateLetters(t)
    ensures IsNaN(m + t)
  {
    var s := m + t;
    assert s[0] == m[0] && s[|s| - 1] == t[|t| - 1];
    TrimKeepsUnpadded(s);
    LateLettersNotDecimal(m, t);
    LateLettersNotNonDecimal(m, t);
  }
}

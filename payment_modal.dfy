/**
 * The payment form: the input formatters that rerun on every keystroke, and the
 * form's state through opening and submitting.
 */
module PaymentModal {
  import opened Wrappers
  import opened Text
  import opened Types
  import StripeService
  import JsNumber

  function Min(a: int, b: int): int {
    if a < b then a else b
  }

  // ---------------------------------------------------------------------------
  // Card number

  /** Digits in groups of four separated by single spaces; the last group has one to four. */
  predicate IsCardLayout(s: string)
    decreases |s|
  {
    if |s| <= 4 then s != [] && AllDigits(s)
    else AllDigits(s[..4]) && s[4] == ' ' && IsCardLayout(s[5..])
  }

  /** `m` cut into runs of four, with a space between runs. */
  function Grouped(m: string): string
    decreases |m|
  {
    if |m| <= 4 then m else m[..4] + " " + Grouped(m[4..])
  }

  /** The substrings `m.substring(i, i + 4)` for i = 0, 4, 8, ... below `|m|`. */
  function Chunks(m: string): seq<string>
    decreases |m|
  {
    if m == [] then [] else [m[..Min(4, |m|)]] + Chunks(m[Min(4, |m|)..])
  }

  /** `parts.join(sep)`. */
  function Join(parts: seq<string>, sep: string): string {
    if parts == [] then ""
    else if |parts| == 1 then parts[0]
    else parts[0] + sep + Join(parts[1..], sep)
  }

  lemma {:induction false} JoinChunks(m: string)
    ensures Join(Chunks(m), " ") == Grouped(m)
    decreases |m|
  {
    if |m| > 4 {
      JoinChunks(m[4..]);
      assert Chunks(m) == [m[..4]] + Chunks(m[4..]);
    } else if m != [] {
      assert m[..|m|] == m;
      assert m[|m|..] == [];
    }
  }

  /** A digit string of length n grouped: a card layout of n + (n - 1) / 4 characters with the same digits. */
  lemma GroupedShape(m: string)
    requires m != [] && AllDigits(m)
    ensures IsCardLayout(Grouped(m))
    ensures |Grouped(m)| == |m| + (|m| - 1) / 4
    ensures DigitsOf(Grouped(m)) == m && RemoveWhitespace(Grouped(m)) == m
  {
    GroupedLayout(m);
    GroupedLength(m);
    GroupedDigits(m);
    GroupedWithoutSpaces(m);
  }

  lemma {:induction false} GroupedLayout(m: string)
    requires m != [] && AllDigits(m)
    ensures IsCardLayout(Grouped(m))
    decreases |m|
  {
    if |m| > 4 {
      GroupedLayout(m[4..]);
      var g := Grouped(m);
      assert g[..4] == m[..4] && g[4] == ' ' && g[5..] == Grouped(m[4..]);
    }
  }

  lemma {:induction false} GroupedLength(m: string)
    requires m != []
    ensures |Grouped(m)| == |m| + (|m| - 1) / 4
    decreases |m|
  {
    if |m| > 4 {
      GroupedLength(m[4..]);
    }
  }

  lemma {:induction false} GroupedDigits(m: string)
    requires AllDigits(m)
    ensures DigitsOf(Grouped(m)) == m
    decreases |m|
  {
    if |m| > 4 {
      GroupedDigits(m[4..]);
      DigitsOfAppend(m[..4] + " ", Grouped(m[4..]));
      DigitsOfAppend(m[..4], " ");
      assert m[..4] + m[4..] == m;
    }
  }

  lemma {:induction false} GroupedWithoutSpaces(m: string)
    requires AllDigits(m)
    ensures RemoveWhitespace(Grouped(m)) == m
    decreases |m|
  {
    if |m| > 4 {
      GroupedWithoutSpaces(m[4..]);
      RemoveWhitespaceAppend(m[..4] + " ", Grouped(m[4..]));
      RemoveWhitespaceAppend(m[..4], " ");
      assert forall i :: 0 <= i < |m[..4]| ==> !IsJsWhitespace(m[..4][i]);
      assert m[..4] + m[4..] == m;
    } else {
      assert forall i :: 0 <= i < |m| ==> !IsJsWhitespace(m[i]);
    }
  }

  /** `replace(/\s+/g, '')` and then `replace(/[^0-9]/gi, '')` keep exactly the digits. */
  lemma {:induction false} DigitsIgnoreWhitespace(s: string)
    ensures DigitsOf(RemoveWhitespace(s)) == DigitsOf(s)
  {
    if s != [] {
      DigitsIgnoreWhitespace(s[1..]);
      var head := if IsJsWhitespace(s[0]) then [] else [s[0]];
      DigitsOfAppend(head, RemoveWhitespace(s[1..]));
      assert IsJsWhitespace(s[0]) ==> !IsDigit(s[0]);
    }
  }

  /**
   * What `formatCardNumber` returns: an input with fewer than four digits gives those
   * digits; otherwise the first (at most sixteen) digits, grouped by four.
   */
  function FormattedCardNumber(val: string): string {
    var v := DigitsOf(val);
    if |v| < 4 then v else Grouped(v[..Min(16, |v|)])
  }

  /**
   * `formatCardNumber`: digits and single spaces only, at most 16 digits and 19
   * characters; the digits are the input's first `min(16, n)`.
   */
  lemma CardNumberShape(val: string)
    ensures var r := FormattedCardNumber(val);
      && (forall i :: 0 <= i < |r| ==> IsDigit(r[i]) || r[i] == ' ')
      && |r| <= 19 && |DigitsOf(r)| <= 16
    ensures var v := DigitsOf(val);
      |v| < 4 ==> FormattedCardNumber(val) == v
    ensures var v := DigitsOf(val);
      |v| >= 4 ==>
        && IsCardLayout(FormattedCardNumber(val))
        && DigitsOf(FormattedCardNumber(val)) == v[..Min(16, |v|)]
  {
    var v := DigitsOf(val);
    if |v| >= 4 {
      var m := v[..Min(16, |v|)];
      GroupedShape(m);
      LayoutChars(Grouped(m));
    }
  }

  lemma {:induction false} LayoutChars(s: string)
    requires IsCardLayout(s)
    ensures forall i :: 0 <= i < |s| ==> IsDigit(s[i]) || s[i] == ' '
    decreases |s|
  {
    if |s| > 4 {
      LayoutChars(s[5..]);
      forall i | 0 <= i < |s| ensures IsDigit(s[i]) || s[i] == ' ' {
        if i < 4 {
          assert s[i] == s[..4][i];
        } else if i > 4 {
          assert s[i] == s[5..][i - 5];
        }
      }
    }
  }

  /** Formatting the formatted number again changes nothing, so rerunning it on every keystroke is safe. */
  lemma CardNumberIdempotent(val: string)
    ensures FormattedCardNumber(FormattedCardNumber(val)) == FormattedCardNumber(val)
  {
    var v := DigitsOf(val);
    if |v| >= 4 {
      var m := v[..Min(16, |v|)];
      GroupedShape(m);
      assert m[..Min(16, |m|)] == m;
    }
  }

  /**
   * A number typed through the formatter passes the service's number check exactly
   * when at least fifteen digits were typed.
   */
  lemma FormattedNumberCheck(val: string)
    ensures !StripeService.NumberIncomplete(StripeService.CleanNumber(FormattedCardNumber(val)))
            <==> |DigitsOf(val)| >= 15
  {
    var v := DigitsOf(val);
    var r := FormattedCardNumber(val);
    if |v| >= 4 {
      var m := v[..Min(16, |v|)];
      GroupedShape(m);
      JsNumber.DigitStringIsNumber(m);
    } else {
      assert forall i :: 0 <= i < |v| ==> !IsJsWhitespace(v[i]);
    }
  }

  /** `formatCardNumber`: builds the four-digit parts with a stepping loop and joins them. */
  method FormatCardNumber(val: string) returns (r: string)
    ensures r == FormattedCardNumber(val)
  {
    var v := DigitsOf(RemoveWhitespace(val));
    DigitsIgnoreWhitespace(val);
    // the first run of 4 to 16 digits; `v` holds digits only, so the run starts at 0
    var match_ := if |v| >= 4 then v[..Min(16, |v|)] else "";
    var parts: seq<string> := [];
    var i := 0;
    var len := |match_|;
    while i < len
      invariant 0 <= i
      invariant parts + Chunks(match_[Min(i, len)..]) == Chunks(match_)
    {
      var rest := match_[i..];
      assert rest[..Min(4, |rest|)] == match_[i..Min(i + 4, len)];
      assert rest[Min(4, |rest|)..] == match_[Min(i + 4, len)..];
      parts := parts + [match_[i..Min(i + 4, len)]];
      i := i + 4;
    }
    assert match_[Min(i, len)..] == [];
    assert parts == Chunks(match_);
    if |parts| > 0 {
      JoinChunks(match_);
      r := Join(parts, " ");
    } else {
      r := v;
    }
  }

  // ---------------------------------------------------------------------------
  // Expiry

  /**
   * `formatExpiry`: two or more digits become the first two, `" / "`, and the next
   * (up to) two; fewer stay as they are.
   */
  function FormatExpiry(val: string): (r: string)
    ensures var v := DigitsOf(val);
      |v| >= 2 ==> r == v[..2] + " / " + v[2..Min(4, |v|)]
    ensures var v := DigitsOf(val);
      |v| < 2 ==> r == v
    ensures |r| <= 7
  {
    var v := DigitsOf(RemoveWhitespace(val));
    DigitsIgnoreWhitespace(val);
    if |v| >= 2 then v[..2] + " / " + v[2..Min(4, |v|)] else v
  }

  /** The digits of the expiry layout are the digits around the separator. */
  lemma {:induction false} ExpiryLayoutDigits(a: string, b: string)
    requires AllDigits(a) && AllDigits(b)
    ensures DigitsOf(a + " / " + b) == a + b
  {
    DigitsOfAppend(a + " / ", b);
    DigitsOfAppend(a, " / ");
    assert DigitsOf(" / ") == [];
  }

  /** Formatting the formatted expiry again changes nothing. */
  lemma ExpiryIdempotent(val: string)
    ensures FormatExpiry(FormatExpiry(val)) == FormatExpiry(val)
  {
    var v := DigitsOf(val);
    if |v| >= 2 {
      var a := v[..2];
      var b := v[2..Min(4, |v|)];
      ExpiryLayoutDigits(a, b);
      assert DigitsOf(FormatExpiry(val)) == a + b;
      assert (a + b)[..2] == a;
      assert (a + b)[2..Min(4, |a + b|)] == b;
    }
  }

  // ---------------------------------------------------------------------------
  // The form

  /** The payment dialog's state. */
  class PaymentForm {
    var processing: bool
    var error: Option<string>
    var cardNumber: string
    var expiry: string
    var cvc: string
    var name: string
    const selectedTier: SubscriptionTier

    constructor (tier: SubscriptionTier)
      ensures selectedTier == tier
      ensures !processing && error == None
      ensures cardNumber == "" && expiry == "" && cvc == "" && name == ""
    {
      selectedTier := tier;
      processing := false;
      error := None;
      cardNumber, expiry, cvc, name := "", "", "", "";
    }

    /** Opening the dialog clears the four fields, the error and the busy flag. */
    method Open()
      modifies this
      ensures !processing && error == None
      ensures cardNumber == "" && expiry == "" && cvc == "" && name == ""
    {
      processing := false;
      error := None;
      cardNumber := "";
      expiry := "";
      cvc := "";
      name := "";
    }

    method ChangeCardNumber(input: string)
      modifies this
      ensures cardNumber == FormattedCardNumber(input)
      ensures processing == old(processing) && error == old(error)
      ensures expiry == old(expiry) && cvc == old(cvc) && name == old(name)
    {
      cardNumber := FormatCardNumber(input);
    }

    method ChangeExpiry(input: string)
      modifies this
      ensures expiry == FormatExpiry(input)
      ensures processing == old(processing) && error == old(error)
      ensures cardNumber == old(cardNumber) && cvc == old(cvc) && name == old(name)
    {
      expiry := FormatExpiry(input);
    }

    /** The security-code field keeps only the digits typed. */
    method ChangeCvc(input: string)
      modifies this
      ensures cvc == DigitsOf(input) && AllDigits(cvc)
      ensures processing == old(processing) && error == old(error)
      ensures cardNumber == old(cardNumber) && expiry == old(expiry) && name == old(name)
    {
      cvc := DigitsOf(input);
    }

    method ChangeName(input: string)
      modifies this
      ensures name == input
      ensures processing == old(processing) && error == old(error)
      ensures cardNumber == old(cardNumber) && expiry == old(expiry) && cvc == old(cvc)
    {
      name := input;
    }

    /**
     * `handlePayment`: submits the fields; on success reports it to the caller (the
     * `onSuccess` callback), on failure shows the service's error or "Payment failed".
     * The dialog is not busy afterwards either way.
     */
    method HandlePayment(randomId: string) returns (succeeded: bool)
      modifies this
      ensures var result := StripeService.ProcessStripePayment(selectedTier,
        StripeService.CardDetails(cardNumber, expiry, cvc, name), randomId);
        && succeeded == result.success
        && (succeeded ==> error == None)
        && (!succeeded ==> error == Some(result.error.GetOr("Payment failed")))
      ensures !processing
      ensures cardNumber == old(cardNumber) && expiry == old(expiry)
      ensures cvc == old(cvc) && name == old(name)
    {
      processing := true;
      error := None;
      var result := StripeService.ProcessStripePayment(selectedTier,
        StripeService.CardDetails(cardNumber, expiry, cvc, name), randomId);
      if result.success {
        succeeded := true;
      } else {
        succeeded := false;
        error := Some(result.error.GetOr("Payment failed"));
      }
      processing := false;
    }
  }
}

/**
 * The simulated card payment: a fixed sequence of checks on the card details, each
 * returning its own failure, then a decline rule for test numbers starting with 4000.
 */
module StripeService {
  import opened Wrappers
  import opened Text
  import opened Types
  import JsNumber

  datatype CardDetails = CardDetails(number: string, expiry: string, cvc: string, name: string)

  datatype PaymentResponse = PaymentResponse(success: bool, transactionId: Option<string>, error: Option<string>)

  const IncompleteNumberMessage: string := "Your card number is incomplete."
  const IncompleteCvcMessage: string := "Your card's security code is incomplete."
  const NameRequiredMessage: string := "Name on card is required."
  const DeclinedMessage: string := "Your card was declined."
  const TransactionPrefix: string := "ch_"
  const DeclinedPrefix: string := "4000"

  /** The card number with all white space removed. */
  function CleanNumber(number: string): string {
    RemoveWhitespace(number)
  }

  predicate NumberIncomplete(clean: string) {
    |clean| < 15 || |clean| > 16 || JsNumber.IsNaN(clean)
  }

  predicate CvcIncomplete(cvc: string) {
    |cvc| < 3 || JsNumber.IsNaN(cvc)
  }

  predicate NameMissing(name: string) {
    Trim(name) == []
  }

  predicate IsDeclinedNumber(clean: string) {
    StartsWith(clean, DeclinedPrefix)
  }

  /** All four checks pass. */
  predicate Accepted(card: CardDetails) {
    var clean := CleanNumber(card.number);
    !NumberIncomplete(clean) && !CvcIncomplete(card.cvc) && !NameMissing(card.name) && !IsDeclinedNumber(clean)
  }

  /**
   * `processStripePayment`: the checks run in the order number, security code, name,
   * decline, and the first that fails decides the error; when all pass the answer is a
   * success with a `ch_` transaction id (`randomId` stands for its random part).
   */
  function ProcessStripePayment(tier: SubscriptionTier, card: CardDetails, randomId: string): (r: PaymentResponse)
    ensures r.success <==> Accepted(card)
    ensures r.success ==> r.error.None? && r.transactionId == Some(TransactionPrefix + randomId)
    ensures !r.success ==> r.transactionId.None? && r.error.Some?
    ensures NumberIncomplete(CleanNumber(card.number)) ==> r.error == Some(IncompleteNumberMessage)
    ensures !NumberIncomplete(CleanNumber(card.number)) && CvcIncomplete(card.cvc) ==>
      r.error == Some(IncompleteCvcMessage)
    ensures !NumberIncomplete(CleanNumber(card.number)) && !CvcIncomplete(card.cvc) && NameMissing(card.name) ==>
      r.error == Some(NameRequiredMessage)
    ensures !NumberIncomplete(CleanNumber(card.number)) && !CvcIncomplete(card.cvc) && !NameMissing(card.name)
            && IsDeclinedNumber(CleanNumber(card.number)) ==>
      r.error == Some(DeclinedMessage)
  {
    var amount := TierPrice(tier);
    var cleanNumber := CleanNumber(card.number);
    if NumberIncomplete(cleanNumber) then
      PaymentResponse(false, None, Some(IncompleteNumberMessage))
    else if CvcIncomplete(card.cvc) then
      PaymentResponse(false, None, Some(IncompleteCvcMessage))
    else if NameMissing(card.name) then
      PaymentResponse(false, None, Some(NameRequiredMessage))
    else if IsDeclinedNumber(cleanNumber) then
      PaymentResponse(false, None, Some(DeclinedMessage))
    else
      PaymentResponse(true, Some(TransactionPrefix + randomId), None)
  }

  /**
   * A 15- or 16-digit number that starts with 4000 is declined even when the code and
   * the name are fine.
   */
  lemma TestNumberIsDeclined(tier: SubscriptionTier, card: CardDetails, randomId: string)
    requires var clean := CleanNumber(card.number);
      AllDigits(clean) && 15 <= |clean| <= 16 && StartsWith(clean, DeclinedPrefix)
    requires AllDigits(card.cvc) && |card.cvc| >= 3 && !NameMissing(card.name)
    ensures ProcessStripePayment(tier, card, randomId) == PaymentResponse(false, None, Some(DeclinedMessage))
  {
    JsNumber.DigitStringIsNumber(CleanNumber(card.number));
    JsNumber.DigitStringIsNumber(card.cvc);
  }

  /** A security code of three spaces passes the code check, since `Number("   ")` is 0. */
  lemma BlankCvcPassesCheck()
    ensures !CvcIncomplete("   ")
  {
    JsNumber.BlankIsNumber("   ");
  }
}

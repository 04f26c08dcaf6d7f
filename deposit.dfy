/**
 * Deposit amounts. Money is held in integer cents; a percentage of a price in
 * cents is an amount in hundredths of a cent, rounded to cents half-to-even as
 * Python's `round` and `Decimal.quantize` do under the default decimal context.
 */
module Deposit {
  import opened Common
  import opened Models

  /**
   * The nearest whole number of cents to `n` hundredths of a cent; an exact tie
   * goes to the even neighbour.
   */
  function RoundToCents(n: int): (r: int)
    ensures -50 <= n - 100 * r <= 50
    ensures (n - 100 * r == 50 || n - 100 * r == -50) ==> r % 2 == 0
  {
    var q, rem := n / 100, n % 100;
    if rem < 50 then q
    else if rem > 50 then q + 1
    else if q % 2 == 0 then q
    else q + 1
  }

  /** The rounding is determined by its two properties: no other whole number has them. */
  lemma RoundToCentsUnique(n: int, c: int)
    requires -50 <= n - 100 * c <= 50
    requires (n - 100 * c == 50 || n - 100 * c == -50) ==> c % 2 == 0
    ensures c == RoundToCents(n)
  {
    var r := RoundToCents(n);
    assert 100 * (r - c) == (n - 100 * c) - (n - 100 * r);
  }

  /** Rounding an exact number of cents gives it back. */
  lemma RoundToCentsExact(c: int)
    ensures RoundToCents(100 * c) == c
  {
    RoundToCentsUnique(100 * c, c);
  }

  datatype DepositKind = Fixed | Percentage

  /** The deposit settings of a business (`deposit_amount` is in cents). */
  datatype DepositPolicy = DepositPolicy(
    required: bool,
    kind: DepositKind,
    fixedAmount: int,
    percentage: int)

  /**
   * `calculate_deposit_amount`: nothing when deposits are off; for a percentage
   * policy, nothing when the price is missing or zero and otherwise the rounded
   * share of the price; for a fixed policy, the fixed amount.
   */
  function CalculateDeposit(p: DepositPolicy, price: Option<int>): (r: int)
    ensures !p.required ==> r == 0
    ensures p.required && p.kind == Fixed ==> r == p.fixedAmount
    ensures p.required && p.kind == Percentage && (price.None? || price.value == 0) ==> r == 0
    ensures p.required && p.kind == Percentage && price.Some? ==>
      -50 <= price.value * p.percentage - 100 * r <= 50
    ensures p.required && p.kind == Percentage && price.Some? ==>
      var e := price.value * p.percentage - 100 * r;
      (e == 50 || e == -50) ==> r % 2 == 0
  {
    if !p.required then 0
    else match p.kind
      case Percentage =>
        if price.None? || price.value == 0 then 0
        else RoundToCents(price.value * p.percentage)
      case Fixed => p.fixedAmount
  }

  /** A full percentage deposit is the whole price. */
  lemma FullPercentageIsPrice(p: DepositPolicy, price: int)
    requires p.required && p.kind == Percentage && p.percentage == 100
    ensures CalculateDeposit(p, Some(price)) == price
  {
    RoundToCentsExact(price);
  }

  /** A percentage deposit between 0 and 100 percent of a non-negative price lies between 0 and the price. */
  lemma {:induction false} PercentageDepositBounded(p: DepositPolicy, price: int)
    requires p.required && p.kind == Percentage && 0 <= p.percentage <= 100 && 0 <= price
    ensures 0 <= CalculateDeposit(p, Some(price)) <= price
  {
    if price != 0 {
      var n := price * p.percentage;
      assert 0 <= n <= 100 * price;
      var r := RoundToCents(n);
      assert -50 <= n - 100 * r <= 50;
    }
  }

  /**
   * The deposit of a manual booking when one is needed: the quantized share of
   * the price at the business's percentage (100 when that is 0), or nothing
   * without a price. The deposit type is not consulted.
   */
  function ManualDeposit(percentage: int, price: Option<int>): (r: int)
    ensures price.None? ==> r == 0
    ensures price.Some? && percentage == 0 ==> r == RoundToCents(price.value * 100)
    ensures price.Some? && percentage != 0 ==> -50 <= price.value * percentage - 100 * r <= 50
    ensures price.Some? && percentage != 0 ==>
      var e := price.value * percentage - 100 * r;
      (e == 50 || e == -50) ==> r % 2 == 0
  {
    match price
    case None => 0
    case Some(v) => RoundToCents(v * (if percentage == 0 then 100 else percentage))
  }

  /** With a percentage of 0 the manual booking asks for the whole price. */
  lemma ManualDepositDefaultFull(price: int)
    ensures ManualDeposit(0, Some(price)) == price
  {
    RoundToCentsExact(price);
  }

  /** Where a fixed-amount business asks for its fixed amount online, a manual booking still asks for a share of the price. */
  lemma ManualDepositIgnoresKind()
    ensures CalculateDeposit(DepositPolicy(true, Fixed, 5000, 0), Some(20000)) == 5000
    ensures ManualDeposit(0, Some(20000)) == 20000
  {
    ManualDepositDefaultFull(20000);
  }

  /** How a new online booking starts out. */
  datatype BookingTerms = BookingTerms(
    amountToPay: int,
    depositPaid: bool,
    status: Status,
    requiresPayment: bool)

  /**
   * The exemption step of the public booking view: an exempt client is confirmed
   * with nothing to pay; anyone else starts pending with the calculated deposit,
   * and must pay iff deposits are on and that deposit is positive.
   */
  function OnlineBookingTerms(exempt: bool, p: DepositPolicy, price: Option<int>): (t: BookingTerms)
    ensures exempt ==> t == BookingTerms(0, true, Confirmed, false)
    ensures !exempt ==> t.status == Pending && !t.depositPaid
    ensures !exempt ==> t.amountToPay == CalculateDeposit(p, price)
    ensures t.requiresPayment <==> !exempt && p.required && t.amountToPay > 0
  {
    if exempt then BookingTerms(0, true, Confirmed, false)
    else
      var d := CalculateDeposit(p, price);
      BookingTerms(d, false, Pending, p.required && d > 0)
  }

  /** A booking that must be paid for is never confirmed up front, and one that is confirmed up front owes nothing. */
  lemma PaymentExcludesConfirmation(exempt: bool, p: DepositPolicy, price: Option<int>)
    ensures var t := OnlineBookingTerms(exempt, p, price);
      (t.requiresPayment ==> t.status == Pending && !t.depositPaid) &&
      (t.status == Confirmed ==> t.amountToPay == 0 && t.depositPaid)
  {
  }

  /**
   * The manual booking view: a booking that needs a deposit starts pending with
   * the manual deposit; any other is confirmed and marked paid with nothing owed.
   */
  function ManualBookingTerms(depositNeeded: bool, percentage: int, price: Option<int>): (t: BookingTerms)
    ensures depositNeeded ==> t.status == Pending && t.amountToPay == ManualDeposit(percentage, price) && t.requiresPayment
    ensures !depositNeeded ==> t == BookingTerms(0, true, Confirmed, false)
  {
    if depositNeeded then BookingTerms(ManualDeposit(percentage, price), false, Pending, true)
    else BookingTerms(0, true, Confirmed, false)
  }
}

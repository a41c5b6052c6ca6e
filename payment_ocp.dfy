/** Open/Closed design of the payment calculation: one shared discount formula,
    and one payment variant per kind, each fixing its own discount percentage.
    Amounts are exact reals, not IEEE-754 doubles. */
module PaymentOcp {

  /** The concrete payment classes; the base class's `calc` is abstract and has no variant. */
  datatype Payment = CashPayment | CreditCardPayment {

    /** The percentage each variant passes to the shared discount formula. */
    function Percent(): (p: real)
      ensures 0.0 <= p <= 100.0
    {
      match this
      case CashPayment => 10.0
      case CreditCardPayment => 0.0
    }

    /** The payable amount for a base value: the shared formula at this variant's percentage. */
    function Calc(value: real): (r: real)
      ensures this == CashPayment ==> r == 0.9 * value
      ensures this == CreditCardPayment ==> r == value
      ensures 0.0 <= value ==> 0.0 <= r <= value
    {
      CalcDiscount(value, Percent())
    }
  }

  /** The shared helper: the value less `percent` per cent of it. */
  function CalcDiscount(value: real, percent: real): (r: real)
    ensures r == value * (1.0 - percent / 100.0)
    ensures percent == 0.0 ==> r == value
    ensures percent == 100.0 ==> r == 0.0
    ensures 0.0 <= value && 0.0 <= percent <= 100.0 ==> 0.0 <= r <= value
  {
    value - value * (percent / 100.0)
  }

  /** A larger percentage never yields a larger amount for a non-negative value. */
  lemma DiscountNonIncreasing(value: real, p: real, q: real)
    requires 0.0 <= value && p <= q
    ensures CalcDiscount(value, q) <= CalcDiscount(value, p)
  {
  }

  /** The worked examples: a cash payment of 100 costs 90, a card payment of 100 costs 100. */
  lemma CalcOfHundred()
    ensures CashPayment.Calc(100.0) == 90.0
    ensures CreditCardPayment.Calc(100.0) == 100.0
  {
  }
}

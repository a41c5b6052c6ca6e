/** The design that violates Open/Closed: one dispatcher that switches over a
    string tag, with each kind's rule written inline. */
module PaymentOcpViolation {

  /** The tag table: each key maps to the string with its own name. */
  datatype MethodTags = MethodTags(Cash: string, CreditCard: string)

  const PaymentsMethods: MethodTags := MethodTags("CASH", "CREDIT_CARD")

  /** The switch compares the tag against each case in turn; an unknown tag matches
      no case, and since there is no default the initial amount 0 is returned. */
  function CalcPayment(tag: string, value: real): (r: real)
    ensures tag == PaymentsMethods.Cash ==> r == value * 0.9
    ensures tag == PaymentsMethods.CreditCard ==> r == value
    ensures tag != PaymentsMethods.Cash && tag != PaymentsMethods.CreditCard ==> r == 0.0
    ensures IsKnownTag(tag) && 0.0 <= value ==> 0.0 <= r <= value
  {
    var finalAmount := 0.0;
    if tag == PaymentsMethods.Cash then value * 0.9
    else if tag == PaymentsMethods.CreditCard then value * 1.0
    else finalAmount
  }

  predicate IsKnownTag(tag: string)
  {
    tag == PaymentsMethods.Cash || tag == PaymentsMethods.CreditCard
  }

  /** The two tags differ, so the order of the cases does not matter. */
  lemma TagsDistinct()
    ensures PaymentsMethods.Cash != PaymentsMethods.CreditCard
  {
    assert PaymentsMethods.Cash[1] != PaymentsMethods.CreditCard[1];
  }

  /** A non-zero amount comes only from a recognised tag. */
  lemma NonZeroMeansKnown(tag: string, value: real)
    requires CalcPayment(tag, value) != 0.0
    ensures IsKnownTag(tag) && value != 0.0
  {
  }
}

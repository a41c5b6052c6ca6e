/** The two payment designs compute the same amounts: the tag-switch dispatcher
    agrees with the polymorphic variants on every value, and returns 0 exactly
    where no variant exists. */
module PaymentEquivalence {
  import opened PaymentOcp
  import opened PaymentOcpViolation

  datatype Option<T> = None | Some(value: T)

  /** The tag under which the switch design knows each variant. */
  function TagOf(p: Payment): (tag: string)
    ensures IsKnownTag(tag)
  {
    match p
    case CashPayment => PaymentsMethods.Cash
    case CreditCardPayment => PaymentsMethods.CreditCard
  }

  /** The registry lookup that replaces the switch: the variant for a tag, if any. */
  function KindOf(tag: string): (k: Option<Payment>)
    ensures k.Some? <==> IsKnownTag(tag)
    ensures k.Some? ==> TagOf(k.value) == tag
  {
    if tag == PaymentsMethods.Cash then Some(CashPayment)
    else if tag == PaymentsMethods.CreditCard then Some(CreditCardPayment)
    else None
  }

  /** Tags and variants are in one-to-one correspondence. */
  lemma TagRoundTrip(p: Payment)
    ensures KindOf(TagOf(p)) == Some(p)
  {
    TagsDistinct();
  }

  lemma CashAgrees(value: real)
    ensures CalcPayment(PaymentsMethods.Cash, value) == CashPayment.Calc(value)
  {
  }

  lemma CreditCardAgrees(value: real)
    ensures CalcPayment(PaymentsMethods.CreditCard, value) == CreditCardPayment.Calc(value)
  {
    TagsDistinct();
  }

  /** For every tag and value, the switch returns the variant's amount, or 0 when
      the tag names no variant. */
  lemma DesignsAgree(tag: string, value: real)
    ensures CalcPayment(tag, value) == match KindOf(tag) {
                                            case Some(p) => p.Calc(value)
                                            case None => 0.0
                                          }
  {
    if tag == PaymentsMethods.Cash {
      CashAgrees(value);
    } else if tag == PaymentsMethods.CreditCard {
      CreditCardAgrees(value);
    }
  }

  /** Each variant, dispatched through its tag, yields its own amount. */
  lemma VariantsAgree(p: Payment, value: real)
    ensures CalcPayment(TagOf(p), value) == p.Calc(value)
  {
    TagRoundTrip(p);
    DesignsAgree(TagOf(p), value);
  }
}

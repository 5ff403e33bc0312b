/** The third-party quote providers as the clients see them: a request value goes out,
    a list of offers comes back, and each offer carries a monthly payment. */
module ThirdParties {
  import opened Outcomes

  /** `ThirdPartyMortgageRequest`: the amount to borrow. */
  datatype MortgageRequest = MortgageRequest(mortgageAmount: real)

  /** `ThirdPartyHomeInsuranceRequest`: the house value and the value of its contents. */
  datatype HomeInsuranceRequest = HomeInsuranceRequest(houseValue: real, contentsValue: real)

  /** One round trip to a provider: the request sent and the cheapest monthly payment
      read off the offers it returned (or the exception that reading raised). */
  datatype Exchange<+R> = Exchange(sent: R, payment: Completion<real>)

  /** The offers a provider returns, each reduced to its monthly payment. The provider's
      order carries no meaning. */
  type Payments = seq<real>

  /** True when `p` is one of the offers and no offer is cheaper. */
  predicate IsCheapest(p: real, payments: Payments) {
    p in payments && forall q :: q in payments ==> p <= q
  }

  /** `OrderBy(x => x.MonthlyPayment).FirstOrDefault()`, projected to the payment:
      the lowest monthly payment of the offers, or `null` when there are none. */
  function CheapestPayment(payments: Payments): (r: Option<real>)
    ensures r.None? <==> |payments| == 0
    ensures r.Some? ==> IsCheapest(r.value, payments)
  {
    if |payments| == 0 then None
    else
      assert payments == [payments[0]] + payments[1..];
      match CheapestPayment(payments[1..])
      case None => Some(payments[0])
      case Some(rest) => Some(if payments[0] <= rest then payments[0] else rest)
  }

  /** Reading `.MonthlyPayment` off the first element of the ordered offers: on an empty
      list `FirstOrDefault()` yields `null` and the member access throws. */
  function FirstMonthlyPayment(payments: Payments): (r: Completion<real>)
    ensures r.Threw? <==> |payments| == 0
    ensures r.Threw? ==> r.exception == NullReferenceException
    ensures r.Returned? ==> IsCheapest(r.value, payments)
  {
    match CheapestPayment(payments)
    case None => Threw(NullReferenceException)
    case Some(p) => Returned(p)
  }

  /** Two payments that are both the cheapest of the same offers are equal. */
  lemma CheapestIsUnique(p: real, q: real, payments: Payments)
    requires IsCheapest(p, payments) && IsCheapest(q, payments)
    ensures p == q
  {
  }

  /** The selected payment does not depend on the order the provider returns offers in. */
  lemma CheapestIgnoresOrder(s: Payments, t: Payments)
    requires multiset(s) == multiset(t)
    ensures CheapestPayment(s) == CheapestPayment(t)
  {
    if |s| > 0 {
      var p, q := CheapestPayment(s).value, CheapestPayment(t).value;
      forall x | x in s ensures x in t {
        assert x in multiset(s);
      }
      forall x | x in t ensures x in s {
        assert x in multiset(t);
      }
      CheapestIsUnique(p, q, s);
    } else {
      assert |t| == |multiset(t)|;
    }
  }
}

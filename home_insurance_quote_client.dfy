/** `HomeInsuranceQuoteClient`: the house-value ceiling, one call to the insurance provider
    with a fixed contents value, and the reduction of its offers to the cheapest payment. */
module HomeInsuranceQuoteClient {
  import opened Outcomes
  import opened Models
  import opened ThirdParties
  import opened HomeInsuranceQuotes

  /** The dearest house the client quotes for, in pounds (inclusive). */
  const MaxHouseValue: real := 10_000_000.0

  /** `_contentsValue`: the contents value sent with every provider request. The field is
      never reassigned, so it is a constant here. */
  const ContentsValue: real := 50_000.0

  /** The reason on the quote refused for the house value. */
  const HouseValueTooHighReason: string := "Quotes cannot be provided for house worth over £10 million"

  /** One run of `GetQuote`: the request sent to the provider (`None` when the provider is
      not called) and how the call ends. This client never returns a `null` quote. */
  datatype HomeInsuranceCall = HomeInsuranceCall(providerRequest: Option<HomeInsuranceRequest>, outcome: Completion<HomeInsuranceQuote>)

  /** `HouseValueIsEligible`: the house is worth at most ten million pounds. */
  function HouseValueIsEligible(request: QuoteRequest): (eligible: bool)
    ensures eligible <==> request.houseValue <= 10_000_000.0
    ensures request.houseValue == 10_000_000.0 ==> eligible
  {
    request.houseValue <= MaxHouseValue
  }

  /** `GetCheapestMonthlyPaymentForInsurance`: sends the house value with the fixed contents
      value and reads the lowest monthly payment off the returned offers; an empty list
      makes the read throw. */
  function GetCheapestMonthlyPaymentForInsurance(request: QuoteRequest, offers: Payments): (x: Exchange<HomeInsuranceRequest>)
    ensures x.sent.houseValue == request.houseValue && x.sent.contentsValue == 50_000.0
    ensures x.payment.Threw? <==> |offers| == 0
    ensures x.payment.Threw? ==> x.payment.exception == NullReferenceException
    ensures x.payment.Returned? ==> IsCheapest(x.payment.value, offers)
  {
    Exchange(HomeInsuranceRequest(request.houseValue, ContentsValue), FirstMonthlyPayment(offers))
  }

  /** `GetQuote`, for a provider that answers with `offers`. */
  function GetQuote(request: QuoteRequest, offers: Payments): (call: HomeInsuranceCall)
    // The provider is called exactly when the house is worth at most ten million.
    ensures call.providerRequest.Some? <==> request.houseValue <= 10_000_000.0
    // A dearer house: the failed quote with the fixed reason.
    ensures request.houseValue > 10_000_000.0 ==>
      call.outcome == Returned(FailedHomeInsuranceQuote(HouseValueTooHighReason))
    // The provider gets the house value and a contents value of 50,000.
    ensures call.providerRequest.Some? ==>
      call.providerRequest.value == HomeInsuranceRequest(request.houseValue, 50_000.0)
    // No offers: the null dereference escapes the client.
    ensures call.providerRequest.Some? && |offers| == 0 ==> call.outcome == Threw(NullReferenceException)
    // Offers: a successful quote with the cheapest payment.
    ensures call.providerRequest.Some? && |offers| > 0 ==>
      && call.outcome.Returned? && call.outcome.value.succeeded
      && call.outcome.value.monthlyPayment.Some?
      && IsCheapest(call.outcome.value.monthlyPayment.value, offers)
    // Every quote it returns is well formed.
    ensures call.outcome.Returned? ==> call.outcome.value.WellFormed()
  {
    if !HouseValueIsEligible(request) then
      HomeInsuranceCall(None, Returned(FailedHomeInsuranceQuote(HouseValueTooHighReason)))
    else
      var exchange := GetCheapestMonthlyPaymentForInsurance(request, offers);
      match exchange.payment
      case Threw(e) => HomeInsuranceCall(Some(exchange.sent), Threw(e))
      case Returned(p) => HomeInsuranceCall(Some(exchange.sent), Returned(SuccessfulHomeInsuranceQuote(p)))
  }

  /** Only the house value matters: the deposit is never read, so two requests for the same
      house get the same call and the same quote. */
  lemma DepositIsNeverRead(a: QuoteRequest, b: QuoteRequest, offers: Payments)
    requires a.houseValue == b.houseValue
    ensures GetQuote(a, offers) == GetQuote(b, offers)
  {
  }

  /** Every call that reaches the provider sends the same contents value, whatever the
      requests and the offers. */
  lemma ContentsValueIsFixed(a: QuoteRequest, offersA: Payments, b: QuoteRequest, offersB: Payments)
    requires GetQuote(a, offersA).providerRequest.Some? && GetQuote(b, offersB).providerRequest.Some?
    ensures GetQuote(a, offersA).providerRequest.value.contentsValue == GetQuote(b, offersB).providerRequest.value.contentsValue
  {
  }

  /** The ceiling is inclusive: a house worth exactly ten million pounds gets a successful
      quote when the provider has offers. */
  lemma TenMillionIsEligible(request: QuoteRequest, offers: Payments)
    requires request.houseValue == 10_000_000.0 && |offers| > 0
    ensures GetQuote(request, offers).outcome.Returned?
    ensures GetQuote(request, offers).outcome.value.succeeded
  {
  }

  /** Reordering the provider's offers changes nothing about the quote. */
  lemma QuoteIgnoresOfferOrder(request: QuoteRequest, s: Payments, t: Payments)
    requires multiset(s) == multiset(t)
    ensures GetQuote(request, s) == GetQuote(request, t)
  {
    CheapestIgnoresOrder(s, t);
  }

  /** A house worth one pound over ten million gets a failed quote, not the `null` quote. */
  lemma OverTenMillionIsFailedQuote(offers: Payments)
    ensures GetQuote(QuoteRequest(10_000_001.0, 0.0), offers)
      == HomeInsuranceCall(None, Returned(HomeInsuranceQuote(None, false, Some(HouseValueTooHighReason))))
  {
  }
}

/** `MortgageQuoteClient`: the loan-to-value gate, the house-value ceiling, one call to the
    mortgage provider and the reduction of its offers to the cheapest monthly payment. */
module MortgageQuoteClient {
  import opened Outcomes
  import opened Models
  import opened ThirdParties
  import opened MortgageQuotes

  /** The dearest house the client quotes for, in pounds (inclusive). */
  const MaxHouseValue: real := 10_000_000.0

  /** The smallest deposit, as a share of the house value, the client accepts (inclusive). */
  const MinDepositShare: real := 0.1

  /** The loan-to-value ceiling the deposit gate is meant to express (inclusive). */
  const MaxLoanToValue: real := 0.9

  /** The reason on the quote refused for the house value. */
  const HouseValueTooHighReason: string := "Quotes cannot be provided for houses worth over £10 million"

  /** One run of `GetQuote`: the request sent to the provider (`None` when the provider is
      not called) and how the call ends. A returned `None` is the `null` quote. */
  datatype MortgageCall = MortgageCall(providerRequest: Option<MortgageRequest>, outcome: Completion<Option<MortgageQuote>>)

  /** The share of the house value that is borrowed. */
  function LoanToValue(request: QuoteRequest): real
    requires request.houseValue != 0.0
  {
    (request.houseValue - request.deposit) / request.houseValue
  }

  /** For a non-zero house value, a deposit of at least a tenth of it is the same test as a
      loan to value of at most nine tenths. */
  lemma DepositShareIffLoanToValue(request: QuoteRequest)
    requires request.houseValue != 0.0
    ensures request.deposit / request.houseValue >= MinDepositShare <==> LoanToValue(request) <= MaxLoanToValue
  {
    var h, d := request.houseValue, request.deposit;
    assert h / h == 1.0;
    assert (h - d) / h == h / h - d / h;
  }

  /** For a positive house value, the deposit gate passes exactly when the deposit is at
      least a tenth of the house value. */
  lemma DepositShareIffTenthOfHouseValue(request: QuoteRequest)
    requires request.houseValue > 0.0
    ensures request.deposit / request.houseValue >= MinDepositShare <==> request.deposit >= request.houseValue / 10.0
  {
  }

  /** `LTVIsEligible`: the deposit divided by the house value is at least 0.1. The division
      throws when the house value is zero. */
  function LTVIsEligible(request: QuoteRequest): (r: Completion<bool>)
    ensures r.Threw? <==> request.houseValue == 0.0
    ensures r.Threw? ==> r.exception == DivideByZeroException
    ensures r.Returned? ==> (r.value <==> LoanToValue(request) <= MaxLoanToValue)
    ensures r.Returned? && request.houseValue > 0.0 ==> (r.value <==> request.deposit >= request.houseValue / 10.0)
  {
    if request.houseValue == 0.0 then Threw(DivideByZeroException)
    else
      DepositShareIffLoanToValue(request);
      if request.houseValue > 0.0 then
        DepositShareIffTenthOfHouseValue(request);
        Returned(request.deposit / request.houseValue >= MinDepositShare)
      else
        Returned(request.deposit / request.houseValue >= MinDepositShare)
  }

  /** `HouseValueIsEligible`: the house is worth at most ten million pounds. */
  function HouseValueIsEligible(request: QuoteRequest): (eligible: bool)
    ensures eligible <==> request.houseValue <= 10_000_000.0
    ensures request.houseValue == 10_000_000.0 ==> eligible
  {
    request.houseValue <= MaxHouseValue
  }

  /** `GetMonthlyPaymentForCheapestMortgage`: sends a request for `mortgageAmount` and reads
      the lowest monthly payment off the returned offers. */
  function GetMonthlyPaymentForCheapestMortgage(mortgageAmount: real, offers: Payments): (x: Exchange<MortgageRequest>)
    ensures x.sent.mortgageAmount == mortgageAmount
    ensures x.payment.Threw? <==> |offers| == 0
    ensures x.payment.Threw? ==> x.payment.exception == NullReferenceException
    ensures x.payment.Returned? ==> IsCheapest(x.payment.value, offers)
  {
    Exchange(MortgageRequest(mortgageAmount), FirstMonthlyPayment(offers))
  }

  /** True when a request gets past both gates, stated as the loan-to-value ceiling. */
  predicate PassesGates(request: QuoteRequest) {
    request.houseValue != 0.0 && LoanToValue(request) <= MaxLoanToValue && request.houseValue <= 10_000_000.0
  }

  /** `GetQuote`, for a provider that answers with `offers`. */
  function GetQuote(request: QuoteRequest, offers: Payments): (call: MortgageCall)
    // A zero house value makes the loan-to-value division throw; nothing catches it.
    ensures request.houseValue == 0.0 ==> call == MortgageCall(None, Threw(DivideByZeroException))
    // The provider is called exactly when both gates pass.
    ensures call.providerRequest.Some? <==> PassesGates(request)
    // Too little deposit: a null quote, whatever the house value.
    ensures request.houseValue != 0.0 && LoanToValue(request) > MaxLoanToValue ==> call.outcome == Returned(None)
    // Deposit large enough but house too dear: a failed quote with the fixed reason.
    ensures request.houseValue != 0.0 && LoanToValue(request) <= MaxLoanToValue && request.houseValue > 10_000_000.0 ==>
      && call.outcome.Returned? && call.outcome.value.Some?
      && var q := call.outcome.value.value;
      && !q.succeeded && q.monthlyPayment == None && q.failureReason == Some(HouseValueTooHighReason)
    // The provider is asked for the house value less the deposit, unrounded.
    ensures call.providerRequest.Some? ==> call.providerRequest.value.mortgageAmount == request.houseValue - request.deposit
    // No offers: the null dereference is caught and the quote is null.
    ensures call.providerRequest.Some? && |offers| == 0 ==> call.outcome == Returned(None)
    // Offers: the cheapest payment, on a quote whose Succeeded flag is left false.
    ensures call.providerRequest.Some? && |offers| > 0 ==>
      && call.outcome.Returned? && call.outcome.value.Some?
      && var q := call.outcome.value.value;
      && q.monthlyPayment.Some? && IsCheapest(q.monthlyPayment.value, offers)
      && !q.succeeded && q.failureReason == None
  {
    match LTVIsEligible(request)
    case Threw(e) => MortgageCall(None, Threw(e))
    case Returned(ltvOk) =>
      if !ltvOk then MortgageCall(None, Returned(None))
      else if !HouseValueIsEligible(request) then
        MortgageCall(None, Returned(Some(MortgageQuote(None, false, Some(HouseValueTooHighReason)))))
      else
        var mortgageAmount := request.houseValue - request.deposit;
        var exchange := GetMonthlyPaymentForCheapestMortgage(mortgageAmount, offers);
        match exchange.payment
        case Threw(NullReferenceException) => MortgageCall(Some(exchange.sent), Returned(None))
        case Threw(e) => MortgageCall(Some(exchange.sent), Threw(e))
        case Returned(p) => MortgageCall(Some(exchange.sent), Returned(Some(MortgageQuote(Some(p), false, None))))
  }

  /** The deposit gate runs first: a request that fails both gates gets the `null` quote,
      never the house-value failure, and the provider is not called. */
  lemma DepositGateBeforeHouseValueGate(request: QuoteRequest, offers: Payments)
    requires request.houseValue != 0.0
    requires request.deposit / request.houseValue < MinDepositShare
    requires request.houseValue > 10_000_000.0
    ensures GetQuote(request, offers) == MortgageCall(None, Returned(None))
  {
  }

  /** The deposit gate is inclusive: a deposit of exactly a tenth of a positive house value
      passes it. */
  lemma TenthDepositIsEligible(request: QuoteRequest)
    requires request.houseValue > 0.0 && request.deposit == request.houseValue / 10.0
    ensures LTVIsEligible(request) == Returned(true)
  {
  }

  /** The house-value ceiling is inclusive: a house worth exactly ten million pounds with
      an eligible deposit reaches the provider. */
  lemma TenMillionIsEligible(request: QuoteRequest, offers: Payments)
    requires request.houseValue == 10_000_000.0 && request.deposit >= 1_000_000.0
    ensures GetQuote(request, offers).providerRequest == Some(MortgageRequest(request.houseValue - request.deposit))
  {
  }

  /** A deposit larger than the house value is not refused: the provider is asked for a
      negative amount. */
  lemma DepositAboveHouseValueIsNotRejected(request: QuoteRequest, offers: Payments)
    requires 0.0 < request.houseValue < request.deposit && request.houseValue <= 10_000_000.0
    ensures GetQuote(request, offers).providerRequest.Some?
    ensures GetQuote(request, offers).providerRequest.value.mortgageAmount < 0.0
  {
  }

  /** Reordering the provider's offers changes nothing about the quote. */
  lemma QuoteIgnoresOfferOrder(request: QuoteRequest, s: Payments, t: Payments)
    requires multiset(s) == multiset(t)
    ensures GetQuote(request, s) == GetQuote(request, t)
  {
    CheapestIgnoresOrder(s, t);
  }

  /** The cheapest-offer case from the client's own tests: 299 out of [299, 300] (or
      [300, 299]), for 90,000 borrowed on a 100,000 house. */
  lemma CheapestOfTwoOffers(offers: Payments)
    requires offers == [299.0, 300.0] || offers == [300.0, 299.0]
    ensures var call := GetQuote(QuoteRequest(100_000.0, 10_000.0), offers);
      && call.providerRequest == Some(MortgageRequest(90_000.0))
      && call.outcome == Returned(Some(MortgageQuote(Some(299.0), false, None)))
  {
  }

  /** A house worth one pound over ten million with an eligible deposit gets a failed
      quote, not the `null` quote. */
  lemma OverTenMillionIsFailedQuote(offers: Payments)
    ensures GetQuote(QuoteRequest(10_000_001.0, 1_100_000.0), offers)
      == MortgageCall(None, Returned(Some(FailedMortgageQuote(HouseValueTooHighReason))))
  {
  }

  /** The success path as written: a quote with the cheapest payment whose `Succeeded` flag
      was never set, so it breaks the record's well-formed shape. */
  lemma SuccessQuoteIsNotMarkedSucceeded()
    ensures var call := GetQuote(QuoteRequest(100_000.0, 10_000.0), [300.0]);
      && call.outcome.Returned? && call.outcome.value.Some?
      && call.outcome.value.value.monthlyPayment == Some(300.0)
      && !call.outcome.value.value.succeeded
      && !call.outcome.value.value.WellFormed()
  {
  }

  /** `GetQuote` with the success quote built by `SuccessfulMortgageQuote`, as the insurance
      client builds its own; every quote it returns is well formed. */
  function GetQuoteCorrected(request: QuoteRequest, offers: Payments): (call: MortgageCall)
    ensures call.outcome.Returned? && call.outcome.value.Some? ==> call.outcome.value.value.WellFormed()
    ensures call.providerRequest.Some? && |offers| > 0 ==>
      && call.outcome.Returned? && call.outcome.value.Some?
      && var q := call.outcome.value.value;
      && q.succeeded && q.monthlyPayment.Some? && IsCheapest(q.monthlyPayment.value, offers)
  {
    match LTVIsEligible(request)
    case Threw(e) => MortgageCall(None, Threw(e))
    case Returned(ltvOk) =>
      if !ltvOk then MortgageCall(None, Returned(None))
      else if !HouseValueIsEligible(request) then
        MortgageCall(None, Returned(Some(FailedMortgageQuote(HouseValueTooHighReason))))
      else
        var exchange := GetMonthlyPaymentForCheapestMortgage(request.houseValue - request.deposit, offers);
        match exchange.payment
        case Threw(NullReferenceException) => MortgageCall(Some(exchange.sent), Returned(None))
        case Threw(e) => MortgageCall(Some(exchange.sent), Threw(e))
        case Returned(p) => MortgageCall(Some(exchange.sent), Returned(Some(SuccessfulMortgageQuote(p))))
  }

  /** The correction changes only the `Succeeded` flag of a quote carrying a payment: the
      provider call, the null cases and the failed quotes are those of `GetQuote`. */
  lemma CorrectionOnlySetsSucceeded(request: QuoteRequest, offers: Payments)
    ensures var (written, corrected) := (GetQuote(request, offers), GetQuoteCorrected(request, offers));
      && corrected.providerRequest == written.providerRequest
      && corrected.outcome.Threw? == written.outcome.Threw?
      && (written.outcome.Returned? ==>
            && corrected.outcome.Returned?
            && corrected.outcome.value.None? == written.outcome.value.None?
            && (written.outcome.value.Some? ==>
                  var (w, c) := (written.outcome.value.value, corrected.outcome.value.value);
                  && c.monthlyPayment == w.monthlyPayment
                  && c.failureReason == w.failureReason
                  && c.succeeded == (w.succeeded || w.monthlyPayment.Some?)))
  {
  }
}

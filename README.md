# Quote clients of the OpenMoney interview exercise, modelled in Dafny

The exercise computes a mortgage quote and a home-insurance quote for one applicant
request (a house value and a deposit). Each product has a quote client that checks
eligibility rules, calls a third-party provider once, and reduces the provider's offers to
the cheapest monthly payment. This project models those two clients and the two quote
result records as pure Dafny functions and proves what they do.

- `outcomes.dfy` (`Outcomes`): `Option` stands for C#'s `null`; `Completion` says whether
  a call returned a value or let a `DivideByZeroException` or `NullReferenceException`
  escape.
- `models.dfy` (`Models`): `QuoteRequest`, the applicant's request.
- `third_parties.dfy` (`ThirdParties`): the provider request types and
  `CheapestPayment`, the `OrderBy(x => x.MonthlyPayment).FirstOrDefault()` reduction. The
  offers are given as a sequence of monthly payments.
- `mortgage_quote.dfy` and `home_insurance_quote.dfy`: the quote records, their
  `Failed…`/`Successful…` factories and the well-formed shape
  (`Succeeded` ⇔ payment present ⇔ no reason).
- `mortgage_quote_client.dfy` and `home_insurance_quote_client.dfy`: the clients.

Each client's `GetQuote(request, offers)` returns a call record. `providerRequest` is the
request sent to the provider, or `None` when the provider is not called. `outcome` is what
the C# method returns or throws. `offers` is what the provider would answer.

The model follows the code as written, including where it departs from what the tests or the quote records suggest:

- A mortgage request with too little deposit returns `null`, not a failed quote.
- An empty mortgage offer list returns `null`. The `NullReferenceException` is caught.
- The mortgage success quote is built with an object initialiser, so `Succeeded` stays
  `false` (see Findings).
- The mortgage amount is `HouseValue - Deposit`, unrounded.
- The insurance client has no guard for an empty offer list: the
  `NullReferenceException` escapes.
- The deposit gate is written as `Deposit / HouseValue >= 0.1`.
  `MortgageQuoteClient.DepositShareIffLoanToValue` proves this is the same test as a loan
  to value of at most 0.9.
- A zero house value makes that division throw outside the `try`, so `GetQuote` throws.
- For a house worth over ten million, the code returns a failed quote, but two tests expect
  `null` (`OpenMoney.InterviewExercise.Tests/MortgageQuoteClientFixture.cs:29`,
  `OpenMoney.InterviewExercise.Tests/HomeInsuranceQuoteClientFixture.cs:25`). The model
  follows the code (`OverTenMillionIsFailedQuote` in both clients).
- The mortgage test named for a ten-million house uses `10_000_00`, which is 1,000,000.
  The model's own `MortgageQuoteClient.TenMillionIsEligible` states the boundary at exactly
  10,000,000.

## Model

| member | source | states |
|---|---|---|
| `ThirdParties.CheapestPayment` | OpenMoney.InterviewExercise/QuoteClients/MortgageQuoteClient.cs:71-73 | no offers gives `null`; otherwise the result is one of the offers' payments and no offer is cheaper |
| `ThirdParties.FirstMonthlyPayment` | OpenMoney.InterviewExercise/QuoteClients/HomeInsuranceQuoteClient.cs:52-55 | reading `.MonthlyPayment` throws `NullReferenceException` exactly when there are no offers, and otherwise gives the cheapest payment |
| `ThirdParties.CheapestIgnoresOrder` | OpenMoney.InterviewExercise/QuoteClients/MortgageQuoteClient.cs:71-74 | any reordering of the offers selects the same payment |
| `MortgageQuotes.FailedMortgageQuote` | OpenMoney.InterviewExercise/Models/Quotes/MortgageQuote.cs:13-19 | the quote is well formed, not succeeded, carries the given reason and no payment |
| `MortgageQuotes.SuccessfulMortgageQuote` | OpenMoney.InterviewExercise/Models/Quotes/MortgageQuote.cs:21-27 | the quote is well formed, succeeded, carries the given payment and no reason |
| `MortgageQuotes.WellFormedIffFactoryBuilt` | OpenMoney.InterviewExercise/Models/Quotes/MortgageQuote.cs:5-27 | a quote is well formed exactly when one of the two factories builds it |
| `HomeInsuranceQuotes.FailedHomeInsuranceQuote` | OpenMoney.InterviewExercise/Models/Quotes/HomeInsuranceQuote.cs:13-19 | the quote is well formed, not succeeded, carries the given reason and no payment |
| `HomeInsuranceQuotes.SuccessfulHomeInsuranceQuote` | OpenMoney.InterviewExercise/Models/Quotes/HomeInsuranceQuote.cs:21-27 | the quote is well formed, succeeded, carries the given payment and no reason |
| `HomeInsuranceQuotes.WellFormedIffFactoryBuilt` | OpenMoney.InterviewExercise/Models/Quotes/HomeInsuranceQuote.cs:5-27 | a quote is well formed exactly when one of the two factories builds it |
| `MortgageQuoteClient.LTVIsEligible` | OpenMoney.InterviewExercise/QuoteClients/MortgageQuoteClient.cs:57-60 | throws `DivideByZeroException` exactly for a zero house value; otherwise passes exactly when the loan to value is at most 0.9, and for a positive house value exactly when the deposit is at least a tenth of it |
| `MortgageQuoteClient.DepositShareIffLoanToValue` | OpenMoney.InterviewExercise/QuoteClients/MortgageQuoteClient.cs:59 | for a non-zero house value, `d/h >= 0.1` holds exactly when `(h-d)/h <= 0.9` |
| `MortgageQuoteClient.DepositShareIffTenthOfHouseValue` | OpenMoney.InterviewExercise/QuoteClients/MortgageQuoteClient.cs:59 | for a positive house value, `d/h >= 0.1` holds exactly when `d >= h/10` |
| `MortgageQuoteClient.TenthDepositIsEligible` | OpenMoney.InterviewExercise/QuoteClients/MortgageQuoteClient.cs:59 | a deposit of exactly a tenth of the house value passes the gate |
| `MortgageQuoteClient.HouseValueIsEligible` | OpenMoney.InterviewExercise/QuoteClients/MortgageQuoteClient.cs:52-55 | a house is eligible exactly when it is worth at most 10,000,000, so exactly ten million is eligible |
| `MortgageQuoteClient.GetMonthlyPaymentForCheapestMortgage` | OpenMoney.InterviewExercise/QuoteClients/MortgageQuoteClient.cs:62-75 | the provider is asked for exactly the given amount; the read throws `NullReferenceException` exactly on no offers, and otherwise gives the cheapest payment |
| `MortgageQuoteClient.GetQuote` | OpenMoney.InterviewExercise/QuoteClients/MortgageQuoteClient.cs:24-50 | a zero house value throws with no provider call; the provider is called exactly when the loan to value is at most 0.9 and the house is worth at most ten million, with `houseValue - deposit`; too little deposit gives `null`; a dearer house gives a failed quote with the fixed reason; no offers gives `null`; otherwise the quote carries the cheapest payment, `Succeeded` false and no reason |
| `MortgageQuoteClient.DepositGateBeforeHouseValueGate` | OpenMoney.InterviewExercise/QuoteClients/MortgageQuoteClient.cs:26-36 | a request failing both gates gets `null` and no provider call, never the house-value failure |
| `MortgageQuoteClient.TenMillionIsEligible` | OpenMoney.InterviewExercise/QuoteClients/MortgageQuoteClient.cs:52-55 | a house worth exactly ten million with an eligible deposit reaches the provider with `houseValue - deposit` |
| `MortgageQuoteClient.DepositAboveHouseValueIsNotRejected` | OpenMoney.InterviewExercise/QuoteClients/MortgageQuoteClient.cs:39-40 | a deposit above the house value is accepted and the provider is asked for a negative amount |
| `MortgageQuoteClient.QuoteIgnoresOfferOrder` | OpenMoney.InterviewExercise/QuoteClients/MortgageQuoteClient.cs:71-74 | reordering the provider's offers leaves the call and the quote unchanged |
| `MortgageQuoteClient.CheapestOfTwoOffers` | OpenMoney.InterviewExercise.Tests/MortgageQuoteClientFixture.cs:104-128 | for 100,000 with 10,000 down, the provider is asked for 90,000 and offers 299 and 300 in either order give 299 |
| `MortgageQuoteClient.OverTenMillionIsFailedQuote` | OpenMoney.InterviewExercise/QuoteClients/MortgageQuoteClient.cs:30-36 | the test's over-ten-million request gets the failed quote with the fixed reason, not `null`, and no provider call |
| `MortgageQuoteClient.SuccessQuoteIsNotMarkedSucceeded` | OpenMoney.InterviewExercise/QuoteClients/MortgageQuoteClient.cs:41-44 | a successful lookup returns a quote with a payment but `Succeeded` false, which is not well formed |
| `MortgageQuoteClient.GetQuoteCorrected` | OpenMoney.InterviewExercise/QuoteClients/MortgageQuoteClient.cs:24-50 | every quote returned is well formed, and a provider answer with offers gives a succeeded quote with the cheapest payment |
| `MortgageQuoteClient.CorrectionOnlySetsSucceeded` | OpenMoney.InterviewExercise/QuoteClients/MortgageQuoteClient.cs:41-44 | the corrected client differs from the code only in setting `Succeeded` on quotes that carry a payment |
| `HomeInsuranceQuoteClient.HouseValueIsEligible` | OpenMoney.InterviewExercise/QuoteClients/HomeInsuranceQuoteClient.cs:37-40 | a house is eligible exactly when it is worth at most 10,000,000, so exactly ten million is eligible |
| `HomeInsuranceQuoteClient.GetCheapestMonthlyPaymentForInsurance` | OpenMoney.InterviewExercise/QuoteClients/HomeInsuranceQuoteClient.cs:42-56 | the provider gets the applicant's house value and a contents value of 50,000; the read throws `NullReferenceException` exactly on no offers, and otherwise gives the cheapest payment |
| `HomeInsuranceQuoteClient.GetQuote` | OpenMoney.InterviewExercise/QuoteClients/HomeInsuranceQuoteClient.cs:25-35 | the provider is called exactly when the house is worth at most ten million, with the house value and 50,000; a dearer house gives the failed quote with the fixed reason; no offers lets `NullReferenceException` escape; otherwise a succeeded quote with the cheapest payment; every returned quote is well formed |
| `HomeInsuranceQuoteClient.DepositIsNeverRead` | OpenMoney.InterviewExercise/QuoteClients/HomeInsuranceQuoteClient.cs:25-48 | two requests for the same house value get the same call and quote, whatever their deposits |
| `HomeInsuranceQuoteClient.ContentsValueIsFixed` | OpenMoney.InterviewExercise/QuoteClients/HomeInsuranceQuoteClient.cs:18 | every call that reaches the provider sends the same contents value |
| `HomeInsuranceQuoteClient.TenMillionIsEligible` | OpenMoney.InterviewExercise/QuoteClients/HomeInsuranceQuoteClient.cs:37-40 | a house worth exactly ten million gets a succeeded quote when there are offers |
| `HomeInsuranceQuoteClient.QuoteIgnoresOfferOrder` | OpenMoney.InterviewExercise/QuoteClients/HomeInsuranceQuoteClient.cs:52-55 | reordering the provider's offers leaves the call and the quote unchanged |
| `HomeInsuranceQuoteClient.OverTenMillionIsFailedQuote` | OpenMoney.InterviewExercise/QuoteClients/HomeInsuranceQuoteClient.cs:27-30 | a house worth one pound over ten million gets the failed quote with the fixed reason, not `null`, and no provider call |

## Findings

| source | as written | input that shows it | evidently intended | confidence | as-written member | corrected member |
|---|---|---|---|---|---|---|
| OpenMoney.InterviewExercise/QuoteClients/MortgageQuoteClient.cs:41-44 | the success quote is built with an object initialiser that sets only `MonthlyPayment`, so `Succeeded` stays `false` | house value 100,000, deposit 10,000, provider offers [300]: the quote has payment 300 and `Succeeded` false | `MortgageQuote.SuccessfulMortgageQuote(300)`, as the insurance client builds its quote, with `Succeeded` true | high; not executed | `MortgageQuoteClient.SuccessQuoteIsNotMarkedSucceeded` | `MortgageQuoteClient.GetQuoteCorrected` |

## Left out

- Amounts are exact `real`s. The 28-digit rounding of .NET `decimal` (the quotient at
  `MortgageQuoteClient.cs:59`) and `decimal` overflow are not modelled.
- `GetQuotesRequest` is not part of this model. Its fields are taken to be present. A
  `null` house value or deposit, and the lifted comparisons it would meet, are not modelled.
- The third-party API interfaces and response types are not part of this model. A
  provider is the offers it answers with, given as a sequence of monthly payments. A
  provider request is a plain datatype.
- Faults raised by the provider call itself (transport failures) are not modelled. The
  provider always answers.
- The async/`Task` plumbing is not modelled. Each client makes at most one provider call
  and awaits it at once, so the model is sequential.
- `QuoteOrchestrator` is left out. Its only content is starting both clients concurrently
  and pairing their results, and concurrency is not modelled.
- The reason strings are named constants. The mortgage reason's mis-encoded pound sign
  (`Â£` in `MortgageQuoteClient.cs:34`) is written as `£`.
- The quote records' fields are publicly settable in C#. Only factory-built and
  client-built quotes are modelled.

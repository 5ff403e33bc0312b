/** The `HomeInsuranceQuote` result record and its two factories. The record's fields are
    publicly settable, so only the factories guarantee the well-formed shape. */
module HomeInsuranceQuotes {
  import opened Outcomes

  /** A quote outcome: a monthly payment when the quote succeeded, a reason when it
      failed. Every field may hold its C# default (`null` or `false`). */
  datatype HomeInsuranceQuote = HomeInsuranceQuote(monthlyPayment: Option<real>, succeeded: bool, failureReason: Option<string>)
  {
    /** `Succeeded` holds exactly when a payment is present and exactly when no reason is. */
    predicate WellFormed() {
      && (succeeded <==> monthlyPayment.Some?)
      && (succeeded <==> failureReason.None?)
    }
  }

  /** A failed quote carrying `reason`. */
  function FailedHomeInsuranceQuote(reason: string): (q: HomeInsuranceQuote)
    ensures q.WellFormed() && !q.succeeded
    ensures q.failureReason == Some(reason) && q.monthlyPayment == None
  {
    HomeInsuranceQuote(None, false, Some(reason))
  }

  /** A successful quote carrying `monthlyPayment`. */
  function SuccessfulHomeInsuranceQuote(monthlyPayment: real): (q: HomeInsuranceQuote)
    ensures q.WellFormed() && q.succeeded
    ensures q.monthlyPayment == Some(monthlyPayment) && q.failureReason == None
  {
    HomeInsuranceQuote(Some(monthlyPayment), true, None)
  }

  /** The well-formed quotes are exactly the ones the two factories build. */
  lemma WellFormedIffFactoryBuilt(q: HomeInsuranceQuote)
    ensures q.WellFormed() <==>
      || (q.monthlyPayment.Some? && q == SuccessfulHomeInsuranceQuote(q.monthlyPayment.value))
      || (q.failureReason.Some? && q == FailedHomeInsuranceQuote(q.failureReason.value))
  {
  }
}

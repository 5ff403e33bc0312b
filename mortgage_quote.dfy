/** The `MortgageQuote` result record and its two factories. The record's fields are
    publicly settable, so only the factories guarantee the well-formed shape. */
module MortgageQuotes {
  import opened Outcomes

  /** A quote outcome: a monthly payment when the quote succeeded, a reason when it
      failed. Every field may hold its C# default (`null` or `false`). */
  datatype MortgageQuote = MortgageQuote(monthlyPayment: Option<real>, succeeded: bool, failureReason: Option<string>)
  {
    /** `Succeeded` holds exactly when a payment is present and exactly when no reason is. */
    predicate WellFormed() {
      && (succeeded <==> monthlyPayment.Some?)
      && (succeeded <==> failureReason.None?)
    }
  }

  /** A failed quote carrying `reason`. */
  function FailedMortgageQuote(reason: string): (q: MortgageQuote)
    ensures q.WellFormed() && !q.succeeded
    ensures q.failureReason == Some(reason) && q.monthlyPayment == None
  {
    MortgageQuote(None, false, Some(reason))
  }

  /** A successful quote carrying `monthlyPayment`. */
  function SuccessfulMortgageQuote(monthlyPayment: real): (q: MortgageQuote)
    ensures q.WellFormed() && q.succeeded
    ensures q.monthlyPayment == Some(monthlyPayment) && q.failureReason == None
  {
    MortgageQuote(Some(monthlyPayment), true, None)
  }

  /** The well-formed quotes are exactly the ones the two factories build. */
  lemma WellFormedIffFactoryBuilt(q: MortgageQuote)
    ensures q.WellFormed() <==>
      || (q.monthlyPayment.Some? && q == SuccessfulMortgageQuote(q.monthlyPayment.value))
      || (q.failureReason.Some? && q == FailedMortgageQuote(q.failureReason.value))
  {
  }
}

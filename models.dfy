/** The applicant's request, shared by both quote clients. */
module Models {

  /** `GetQuotesRequest`: the value of the house and the deposit the applicant puts down,
      both in pounds. Neither field is constrained by the clients' callers. */
  datatype QuoteRequest = QuoteRequest(houseValue: real, deposit: real)
}

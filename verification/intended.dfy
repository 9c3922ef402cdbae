/** The mandatory-field check with the co-applicant income made optional.
    An applicant without a co-applicant has a co-applicant income of 0, which
    is an answer, not a gap; the other checked numbers keep treating 0 as
    "not entered", as the check as written does. */
module Intended {
  import opened Wrappers
  import opened Application
  import opened Validation
  import opened FeatureEncoder
  import opened Decision
  import opened Submission

  /** Every mandatory field is entered; co-applicant income, like dependents
      and credit history, may be 0. */
  predicate FilledIn(a: Applicant)
  {
    && a.gender != "" && a.married != "" && a.education != "" && a.employed != ""
    && a.annualIncome != 0 && a.loanAmount != 0 && a.loanAmountTerm != 0
    && a.propertyArea != ""
  }

  /** The submission handler with the corrected check in place of truthiness
      over all nine values. */
  function SubmitIntended(a: Applicant, predict: Classifier): (o: Outcome)
    ensures o.MandatoryError? <==> !FilledIn(a)
    ensures o.ProcessingError? <==> FilledIn(a) && a.propertyArea !in PropertyAreas
    ensures o.Shown? <==> FilledIn(a) && a.propertyArea in PropertyAreas
    ensures o.Shown? ==> Encode(a) == Ok(o.features) && |o.features| == Arity
    ensures o.Shown? ==> (o.message == EligibleMessage <==> predict(o.features) == 1)
    ensures o.Shown? ==> (o.message == DeclinedMessage <==> predict(o.features) != 1)
  {
    if !FilledIn(a) then MandatoryError
    else match Encode(a)
      case Err(_) => ProcessingError
      case Ok(v) => Shown(Message(predict(v)), v)
  }

  /** A form entry with non-zero income, loan amount and term is scored and
      shown the message for its prediction, whatever its co-applicant income. */
  lemma FormEntryShown(a: Applicant, p: Classifier)
    requires FromForm(a)
    requires a.annualIncome != 0 && a.loanAmount != 0 && a.loanAmountTerm != 0
    ensures SubmitIntended(a, p).Shown?
    ensures SubmitIntended(a, p).message == Message(p(SubmitIntended(a, p).features))
  {
  }

  /** The two checks agree wherever co-applicant income is non-zero, and the
      corrected one accepts more only by letting co-applicant income be 0. */
  lemma IntendedExtendsAsWritten(a: Applicant, p: Classifier)
    ensures Valid(a) ==> FilledIn(a) && SubmitIntended(a, p) == Submit(a, p)
    ensures a.coIncome != 0 ==> (FilledIn(a) <==> Valid(a)) && SubmitIntended(a, p) == Submit(a, p)
    ensures FilledIn(a) && !Valid(a) ==> a.coIncome == 0
    ensures FilledIn(a) <==> Valid(a.(coIncome := 1))
  {
  }

  /** The corrected check ignores co-applicant income, dependents and credit history. */
  lemma FilledInIgnoresOptional(a: Applicant, dependents: nat, coIncome: nat,
                                creditHistory: CreditHistory)
    ensures FilledIn(a.(dependents := dependents, coIncome := coIncome,
                        creditHistory := creditHistory)) == FilledIn(a)
  {
  }

  /** A zero loan amount or term is still rejected by the corrected check. */
  lemma ZeroLoanStillRejected(a: Applicant, p: Classifier)
    requires a.annualIncome == 0 || a.loanAmount == 0 || a.loanAmountTerm == 0
    ensures SubmitIntended(a, p) == MandatoryError
  {
  }

  /** An eligible-looking applicant without co-applicant income: the
      as-written handler rejects the entry, the intended one scores it. */
  lemma NoCoIncomeExample(p: Classifier)
    requires p([1, 1, 0, 1, 0, 5000, 0, 100, 360, 1, 2]) == 1
    ensures Submit(Applicant("Male", "Married", 0, "Graduate", "No",
                             5000, 0, 100, 360, 1, "Urban"), p) == MandatoryError
    ensures SubmitIntended(Applicant("Male", "Married", 0, "Graduate", "No",
                                     5000, 0, 100, 360, 1, "Urban"), p)
         == Shown(EligibleMessage, [1, 1, 0, 1, 0, 5000, 0, 100, 360, 1, 2])
  {
  }
}

/** The mandatory-field check the submit handler runs before anything else. */
module Validation {
  import opened PyBuiltins
  import opened Application

  /** The nine values handed to `all`, in the handler's order. The number of
      dependents and the credit history are not among them. */
  function MandatoryFields(a: Applicant): seq<PyValue>
  {
    [Str(a.gender), Str(a.married), Str(a.education), Str(a.employed),
     Int(a.annualIncome), Int(a.coIncome), Int(a.loanAmount), Int(a.loanAmountTerm),
     Str(a.propertyArea)]
  }

  /** The check as written: Python truthiness over the nine values. A
      category passes when it is non-empty, a number when it is non-zero. */
  function Valid(a: Applicant): (ok: bool)
    ensures ok <==>
      && a.gender != "" && a.married != "" && a.education != "" && a.employed != ""
      && a.annualIncome != 0 && a.coIncome != 0 && a.loanAmount != 0 && a.loanAmountTerm != 0
      && a.propertyArea != ""
  {
    var fs := MandatoryFields(a);
    assert Truthy(fs[0]) && Truthy(fs[1]) && Truthy(fs[2]) && Truthy(fs[3]) && Truthy(fs[4])
      && Truthy(fs[5]) && Truthy(fs[6]) && Truthy(fs[7]) && Truthy(fs[8])
      <==> forall i :: 0 <= i < |fs| ==> Truthy(fs[i]);
    All(fs)
  }

  /** A zero in any of the four checked number inputs rejects the
      submission, although each of those inputs accepts 0. */
  lemma ZeroRejected(a: Applicant)
    requires a.annualIncome == 0 || a.coIncome == 0 || a.loanAmount == 0 || a.loanAmountTerm == 0
    ensures !Valid(a)
  {
  }

  /** The number of dependents and the credit history never affect the check. */
  lemma ExemptFields(a: Applicant, dependents: nat, creditHistory: CreditHistory)
    ensures Valid(a.(dependents := dependents, creditHistory := creditHistory)) == Valid(a)
  {
  }
}

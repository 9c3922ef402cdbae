/** The eleven decision fields of one loan application, as the form hands
    them to the submission handler. */
module Application {

  /** The credit-history number input is bounded to 0..1. */
  type CreditHistory = c: int | 0 <= c <= 1

  /** One applicant's decision fields. The number inputs all have a minimum
      of 0 and step in whole numbers, so they are naturals. */
  datatype Applicant = Applicant(
    gender: string,
    married: string,
    dependents: nat,
    education: string,
    employed: string,
    annualIncome: nat,
    coIncome: nat,
    loanAmount: nat,
    loanAmountTerm: nat,
    creditHistory: CreditHistory,
    propertyArea: string)

  /** The options of the form's select boxes, in the form's order. */
  const GenderOptions: seq<string> := ["Male", "Female"]
  const MaritalOptions: seq<string> := ["Married", "Single"]
  const EducationOptions: seq<string> := ["Graduate", "Not Graduate"]
  const EmployedOptions: seq<string> := ["Yes", "No"]
  const PropertyAreas: seq<string> := ["Rural", "Semiurban", "Urban"]

  /** The applicant could have been entered through the form: every select
      box holds one of its options. */
  predicate FromForm(a: Applicant)
  {
    && a.gender in GenderOptions
    && a.married in MaritalOptions
    && a.education in EducationOptions
    && a.employed in EmployedOptions
    && a.propertyArea in PropertyAreas
  }
}

/** One press of the submit button: validate, encode, classify, and show
    either an error or the decision message. */
module Submission {
  import opened Wrappers
  import opened PyBuiltins
  import opened Application
  import opened Validation
  import opened FeatureEncoder
  import opened Decision

  /** The trained model, seen only through its prediction for a feature vector. */
  type Classifier = seq<int> -> int

  /** What one submission ends in. `Shown` carries the decision message and
      the feature vector the classifier saw. The message is also the value
      the database insert lists as loan_status (app.py:114), a statement
      that is never reached as written. */
  datatype Outcome =
    | MandatoryError
    | ProcessingError
    | Shown(message: string, features: seq<int>)

  const MandatoryErrorText: string :=
    "Please fill in all mandatory fields except Number of Dependents and Credit History."
  const ProcessingErrorText: string :=
    "An error occurred while processing the loan application. Please try again."

  /** The submission handler as written: the mandatory check first; then the
      encoder, whose ValueError becomes the generic processing error; then the
      classifier and the message for its prediction. */
  function Submit(a: Applicant, predict: Classifier): (o: Outcome)
    ensures o.MandatoryError? <==> !Valid(a)
    ensures o.ProcessingError? <==> Valid(a) && a.propertyArea !in PropertyAreas
    ensures o.Shown? <==> Valid(a) && a.propertyArea in PropertyAreas
    ensures o.Shown? ==> Encode(a) == Ok(o.features) && |o.features| == Arity
    ensures o.Shown? ==> (o.message == EligibleMessage <==> predict(o.features) == 1)
    ensures o.Shown? ==> (o.message == DeclinedMessage <==> predict(o.features) != 1)
  {
    if !Valid(a) then MandatoryError
    else match Encode(a)
      case Err(_) => ProcessingError
      case Ok(v) => Shown(Message(predict(v)), v)
  }

  /** The text of the success or error box: the decision message on
      success, one of the two error texts otherwise. */
  function Display(o: Outcome): (text: string)
    ensures o.MandatoryError? ==> text == MandatoryErrorText
    ensures o.ProcessingError? ==> text == ProcessingErrorText
    ensures o.Shown? ==> text == o.message
  {
    match o
    case MandatoryError => MandatoryErrorText
    case ProcessingError => ProcessingErrorText
    case Shown(m, _) => m
  }

  /** The displayed line alone tells the user what happened: the four texts
      a submission can show are distinct, and each belongs to one outcome. */
  lemma DisplayTellsOutcome(a: Applicant, p: Classifier)
    ensures Display(Submit(a, p)) == MandatoryErrorText <==> !Valid(a)
    ensures Display(Submit(a, p)) == ProcessingErrorText <==>
      Valid(a) && a.propertyArea !in PropertyAreas
    ensures Display(Submit(a, p)) == EligibleMessage <==>
      Submit(a, p).Shown? && p(Submit(a, p).features) == 1
    ensures Display(Submit(a, p)) == DeclinedMessage <==>
      Submit(a, p).Shown? && p(Submit(a, p).features) != 1
  {
  }

  /** A rejected or failed submission never consults the classifier: any
      two classifiers give the same outcome. */
  lemma ErrorsIgnoreClassifier(a: Applicant, p: Classifier, q: Classifier)
    requires !Submit(a, p).Shown?
    ensures Submit(a, q) == Submit(a, p)
  {
  }

  /** The message depends on nothing but the prediction: two submissions,
      of any applicants and with any classifiers, whose predictions agree
      show the same message. */
  lemma MessageOnlyFromPrediction(a: Applicant, b: Applicant, p: Classifier, q: Classifier)
    requires Submit(a, p).Shown? && Submit(b, q).Shown?
    requires p(Submit(a, p).features) == q(Submit(b, q).features)
    ensures Submit(a, p).message == Submit(b, q).message
  {
  }

  /** A form entry with non-zero checked numbers is always shown a message;
      dependents and credit history may both be 0. */
  lemma FormEntryShown(a: Applicant, p: Classifier)
    requires FromForm(a)
    requires a.annualIncome != 0 && a.coIncome != 0 && a.loanAmount != 0 && a.loanAmountTerm != 0
    ensures Submit(a, p).Shown?
    ensures Submit(a, p).message == Message(p(Submit(a, p).features))
  {
  }

  /** An applicant with no co-applicant income, entered through the form,
      is always told to fill in the mandatory fields. */
  lemma NoCoIncomeRejected(a: Applicant, p: Classifier)
    requires FromForm(a) && a.coIncome == 0
    ensures Display(Submit(a, p)) == MandatoryErrorText
  {
  }

  /** A declined applicant: Female, Married, 2 dependents, Not Graduate,
      self-employed, incomes 2000 and 1500, loan 150 over 180 months, no
      credit history, Rural. A classifier answering 0 gets the declined message. */
  lemma DeclinedExample(p: Classifier)
    requires p([0, 1, 2, 0, 1, 2000, 1500, 150, 180, 0, 0]) == 0
    ensures Submit(Applicant("Female", "Married", 2, "Not Graduate", "Yes",
                             2000, 1500, 150, 180, 0, "Rural"), p)
         == Shown(DeclinedMessage, [0, 1, 2, 0, 1, 2000, 1500, 150, 180, 0, 0])
  {
  }

  /** An unknown property area passes the mandatory check but makes the
      encoder raise, so the generic processing error is shown. */
  lemma UnknownAreaExample(p: Classifier)
    ensures Display(Submit(Applicant("Male", "Married", 0, "Graduate", "Yes",
                                     5000, 1, 100, 360, 1, "Atlantis"), p))
         == ProcessingErrorText
  {
  }
}

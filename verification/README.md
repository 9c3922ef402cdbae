# Loan eligibility form: decision logic

A Dafny model of the decision logic inside the submit handler of the loan
prediction app (`app.py`, function `main`). When the applicant presses
Submit, the handler

1. checks nine mandatory values with Python's `all`, so an empty category or
   a zero number rejects the entry with "Please fill in all mandatory fields
   except Number of Dependents and Credit History.";
2. builds the eleven-element feature vector: gender, married, education and
   employed become 0/1 flags, the six numbers (dependents, applicant income,
   co-applicant income, loan amount, loan term, credit history) pass through,
   and the property area becomes its position in `['Rural', 'Semiurban',
   'Urban']`; an unknown area makes `list.index` raise ValueError, which
   the handler turns into a generic processing error;
3. asks the trained classifier for a prediction and shows "Congratulations!
   You are eligible for this loan." for prediction 1 and "We're sorry, you
   are not eligible for this loan." otherwise. The same text is the value
   the insert lists as `loan_status` (app.py:114). As written, that insert
   is never reached: building its arguments raises KeyError first.

Modules: `Wrappers` (a result type), `PyBuiltins` (truthiness, `all`,
`list.index`), `Application` (the applicant record and the form's select-box
options), `Validation`, `FeatureEncoder`, `Decision`, `Submission` (the whole
handler, as the code is written) and `Intended` (the handler with
co-applicant income made optional in the mandatory check; see Findings).

The classifier is a parameter `predict: seq<int> -> int`. The number inputs
are declared with integer minimums and no float step, so they are modelled
as `nat`. Credit history is bounded to 0..1.

The stored `loan_status` is the full message text. A 0 in any of the four
checked numbers rejects the entry. The numbers are integers.

## Model

| member | source | states |
|---|---|---|
| Application.FromForm | app.py:43-53 | an entry the form can produce: each select box holds one of its listed options |
| Validation.MandatoryFields | app.py:61-62 | the nine values handed to `all`, in the handler's order, leaving out dependents and credit history |
| PyBuiltins.All | app.py:61-63 | `all` is true exactly when every listed value is truthy |
| PyBuiltins.Index | app.py:89 | `list.index` succeeds exactly when the value occurs, returning its first position; otherwise ValueError |
| PyBuiltins.IndexOfElement | app.py:89 | on the list of areas, which has no repeats, `index` returns the position looked up |
| Validation.Valid | app.py:61-63 | the entry passes exactly when the four categories and the property area are non-empty and income, co-income, loan amount and loan term are non-zero |
| Validation.ZeroRejected | app.py:48-63 | a 0 in income, co-income, loan amount or loan term rejects the entry, although those inputs accept 0 |
| Validation.ExemptFields | app.py:45-63 | dependents and credit history never change the outcome of the check |
| FeatureEncoder.Flag | app.py:79-83 | a flag is 0 or 1, and 1 exactly when the category equals the one compared against |
| FeatureEncoder.Encode | app.py:79-89 | encoding succeeds exactly when the area is known (else ValueError); the vector has 11 components in field order, flags 1 exactly for Male, Married, Graduate and Yes, the six numbers unchanged, and the area's position in the area list |
| FeatureEncoder.Decode | app.py:43-53 | reading a well-formed vector back gives an entry the form can produce |
| FeatureEncoder.DecodeEncode | app.py:43-89 | every form entry encodes to a well-formed vector that decodes back to the same entry |
| FeatureEncoder.EncodeDecode | app.py:79-89 | every well-formed vector is the encoding of its decoding |
| FeatureEncoder.EncodeInjective | app.py:79-89 | two form entries with the same vector are equal |
| FeatureEncoder.AreaIndex | app.py:89 | Rural encodes as 0, Semiurban as 1, Urban as 2 |
| Decision.Message | app.py:91-92 | the message is the eligible text exactly when the prediction is 1 and the declined text otherwise |
| Decision.MessageReflectsLabel | app.py:91-92 | the two texts are distinct: two predictions give the same message exactly when both or neither are 1 |
| Submission.Submit | app.py:59-120 | mandatory error exactly when the check fails; processing error exactly when the check passes and the area is unknown; otherwise the shown vector is the encoding and the message reflects whether the classifier's prediction for it is 1 |
| Submission.Display | app.py:91-120 | the text of the success box is the decision message; the error boxes hold the matching error text |
| Submission.DisplayTellsOutcome | app.py:91-120 | the four texts a submission can show are distinct: the mandatory text appears exactly when the check fails, the processing text exactly when the area is unknown, the eligible text exactly when the prediction is 1 |
| Submission.ErrorsIgnoreClassifier | app.py:61-120 | when no message is shown, the outcome is the same for every classifier: nothing is predicted |
| Submission.MessageOnlyFromPrediction | app.py:90-92 | two shown submissions whose predictions agree show the same message, whatever else differs |
| Submission.FormEntryShown | app.py:43-93 | a form entry with non-zero checked numbers is shown the message for its prediction, whatever its dependents and credit history |
| Submission.NoCoIncomeRejected | app.py:49-120 | a form entry with co-applicant income 0 always gets the mandatory-field error |
| Submission.DeclinedExample | app.py:79-93 | a concrete Rural applicant encodes to `[0,1,2,0,1,2000,1500,150,180,0,0]` and a classifier answering 0 gets the declined message |
| Submission.UnknownAreaExample | app.py:89-117 | an area outside the list yields the generic processing error text |
| Intended.SubmitIntended | app.py:59-120 | the handler with co-applicant income optional: mandatory error exactly when the corrected check fails, processing error exactly when it passes and the area is unknown, otherwise the encoding and the eligible or declined message for its prediction |
| Intended.FormEntryShown | app.py:43-120 | with the corrected check, a form entry with non-zero income, loan amount and term is scored and shown the message for its prediction, whatever its co-applicant income |
| Intended.IntendedExtendsAsWritten | app.py:61-63 | the corrected check is the as-written one with co-applicant income treated as non-zero; the handlers agree whenever co-applicant income is non-zero |
| Intended.FilledInIgnoresOptional | app.py:45-63 | the corrected check does not depend on co-applicant income, dependents or credit history |
| Intended.ZeroLoanStillRejected | app.py:48-63 | a 0 income, loan amount or term is still the mandatory-field error with the corrected check |
| Intended.NoCoIncomeExample | app.py:61-92 | a concrete Urban applicant without co-applicant income is rejected as written and shown the eligible message with the corrected check |

## Findings

| source | as written | input that shows it | evidently intended | confidence | as-written member | corrected member |
|---|---|---|---|---|---|---|
| app.py:61-63 | `all(mandatory_fields)` treats a co-applicant income of 0 as a missing answer | any form entry with Coapplicant Income 0 (no co-applicant), e.g. Male, Married, 0, Graduate, No, 5000, 0, 100, 360, 1, Urban | an applicant without a co-applicant can submit: co-applicant income of 0 is accepted, while a 0 income, loan amount or term still reads as not entered | medium; not executed | Submission.NoCoIncomeRejected | Intended.FormEntryShown |

`Submission.Submit` keeps the behaviour as written; `Intended.SubmitIntended`
is the corrected handler and `Intended.IntendedExtendsAsWritten` relates the two.

## Left out

- Streamlit widgets, page layout, `st.session_state` and the rendering of
  success and error boxes: UI glue; only the values that flow through it are modelled.
- The identity fields (first name, middle name, surname, address, telephone,
  email): they play no part in validation, encoding or the decision.
- Loading the pickled classifier and its internals: an opaque artifact; it is
  the total function parameter `predict`, so an exception raised inside
  `predict` is not modelled.
- The SQLite table creation, insert and commit: I/O. As written, the insert
  reads identity keys that are never stored in the session dictionary and
  lists 19 placeholders for 18 values, so it fails after the message is
  already displayed, with an error the ValueError handler does not catch.
- Submission.Display: it gives the text of the success or error box only; under the success box Streamlit also shows the uncaught KeyError of the insert that follows, which is not modelled.
- Submission.Submit: its `Shown` outcome stops at the displayed message; the
  failure of the insert that follows it is not modelled, because it is database I/O.
- NumPy array shape and the truthiness of `prediction == 1` on a
  one-element array: the prediction is an integer.

/** The text of the success box after a prediction. It is also the value
    the database insert lists as loan_status (app.py:114), a statement that
    is never reached as written. */
module Decision {

  const EligibleMessage: string := "Congratulations! You are eligible for this loan."
  const DeclinedMessage: string := "We're sorry, you are not eligible for this loan."

  /** The message for a classifier prediction: only 1 means eligible. */
  function Message(prediction: int): (m: string)
    ensures m == EligibleMessage || m == DeclinedMessage
    ensures m == EligibleMessage <==> prediction == 1
    ensures m == DeclinedMessage <==> prediction != 1
  {
    if prediction == 1 then EligibleMessage else DeclinedMessage
  }

  /** The two texts are distinct: two predictions give the same message
      exactly when both or neither are 1. */
  lemma MessageReflectsLabel(l1: int, l2: int)
    ensures Message(l1) == Message(l2) <==> (l1 == 1 <==> l2 == 1)
  {
  }
}

/** The feature vector handed to the classifier: eleven integers in a fixed
    order that the trained model depends on. */
module FeatureEncoder {
  import opened Wrappers
  import opened PyBuiltins
  import opened Application

  /** The length of the feature vector. */
  const Arity: nat := 11

  /** 1 when the category equals `on`, 0 for any other string. */
  function Flag(s: string, on: string): (b: int)
    ensures b == 0 || b == 1
    ensures b == 1 <==> s == on
  {
    if s == on then 1 else 0
  }

  /** The encoder. Four categories become flags, six numbers pass through
      unchanged, and the property area becomes its position in the list of
      areas; an unknown area raises ValueError from the list lookup. */
  function Encode(a: Applicant): (r: Result<seq<int>, PyError>)
    ensures r.Ok? <==> a.propertyArea in PropertyAreas
    ensures r.Err? ==> r.error == ValueError
    ensures r.Ok? ==>
      var v := r.value;
      && |v| == Arity
      && (v[0] == 1 <==> a.gender == "Male") && (v[0] == 0 <==> a.gender != "Male")
      && (v[1] == 1 <==> a.married == "Married") && (v[1] == 0 <==> a.married != "Married")
      && v[2] == a.dependents
      && (v[3] == 1 <==> a.education == "Graduate") && (v[3] == 0 <==> a.education != "Graduate")
      && (v[4] == 1 <==> a.employed == "Yes") && (v[4] == 0 <==> a.employed != "Yes")
      && v[5] == a.annualIncome
      && v[6] == a.coIncome
      && v[7] == a.loanAmount
      && v[8] == a.loanAmountTerm
      && v[9] == a.creditHistory
      && 0 <= v[10] < |PropertyAreas| && PropertyAreas[v[10]] == a.propertyArea
  {
    match Index(PropertyAreas, a.propertyArea)
    case Err(e) => Err(e)
    case Ok(area) =>
      Ok([Flag(a.gender, "Male"), Flag(a.married, "Married"), a.dependents,
          Flag(a.education, "Graduate"), Flag(a.employed, "Yes"),
          a.annualIncome, a.coIncome, a.loanAmount, a.loanAmountTerm,
          a.creditHistory, area])
  }

  /** A vector the encoder can produce from a form entry: flags are 0 or 1,
      numbers are non-negative, credit history is 0 or 1 and the area index
      is 0, 1 or 2. */
  predicate WellFormed(v: seq<int>)
  {
    && |v| == Arity
    && 0 <= v[0] <= 1 && 0 <= v[1] <= 1 && 0 <= v[2]
    && 0 <= v[3] <= 1 && 0 <= v[4] <= 1
    && 0 <= v[5] && 0 <= v[6] && 0 <= v[7] && 0 <= v[8]
    && 0 <= v[9] <= 1 && 0 <= v[10] < |PropertyAreas|
  }

  /** Reads a well-formed vector back as the form entry it encodes; flag 0
      is read as the select box's other option. */
  function Decode(v: seq<int>): (a: Applicant)
    requires WellFormed(v)
    ensures FromForm(a)
  {
    Applicant(
      if v[0] == 1 then "Male" else "Female",
      if v[1] == 1 then "Married" else "Single",
      v[2],
      if v[3] == 1 then "Graduate" else "Not Graduate",
      if v[4] == 1 then "Yes" else "No",
      v[5], v[6], v[7], v[8], v[9],
      PropertyAreas[v[10]])
  }

  /** Every form entry encodes, to a well-formed vector that decodes back to it. */
  lemma DecodeEncode(a: Applicant)
    requires FromForm(a)
    ensures Encode(a).Ok?
    ensures WellFormed(Encode(a).value)
    ensures Decode(Encode(a).value) == a
  {
  }

  /** Every well-formed vector is the encoding of the entry it decodes to. */
  lemma EncodeDecode(v: seq<int>)
    requires WellFormed(v)
    ensures Encode(Decode(v)) == Ok(v)
  {
    var a := Decode(v);
    IndexOfElement(PropertyAreas, v[10]);
    assert Encode(a).value == v;
  }

  /** Two form entries with the same feature vector are the same entry: the
      encoder loses nothing the form can express. */
  lemma EncodeInjective(a: Applicant, b: Applicant)
    requires FromForm(a) && FromForm(b)
    requires Encode(a) == Encode(b)
    ensures a == b
  {
    DecodeEncode(a);
    DecodeEncode(b);
  }

  /** The area index is 0 for "Rural", 1 for "Semiurban" and 2 for "Urban". */
  lemma AreaIndex(a: Applicant)
    ensures a.propertyArea == "Rural" ==> Encode(a).Ok? && Encode(a).value[10] == 0
    ensures a.propertyArea == "Semiurban" ==> Encode(a).Ok? && Encode(a).value[10] == 1
    ensures a.propertyArea == "Urban" ==> Encode(a).Ok? && Encode(a).value[10] == 2
  {
  }
}

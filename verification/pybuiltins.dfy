/** The few Python built-ins the loan form's decision logic relies on:
    truthiness, `all` and `list.index`. */
module PyBuiltins {
  import opened Wrappers

  /** A form value as Python sees it: text from a select box or an integer
      from a number input. */
  datatype PyValue = Str(s: string) | Int(i: int)

  /** The exception `list.index` raises for a value that is not in the list. */
  datatype PyError = ValueError

  /** Python truthiness: the empty string and zero are false, everything else is true. */
  predicate Truthy(v: PyValue)
  {
    match v
    case Str(s) => s != ""
    case Int(i) => i != 0
  }

  /** Python's `all(vs)`: true exactly when every element is truthy
      (so true of the empty list). */
  function All(vs: seq<PyValue>): (r: bool)
    ensures r <==> forall i :: 0 <= i < |vs| ==> Truthy(vs[i])
  {
    if |vs| == 0 then true else Truthy(vs[0]) && All(vs[1..])
  }

  /** Python's `xs.index(x)`: the position of the first occurrence of `x`,
      or ValueError when `x` does not occur. */
  function Index<T(==)>(xs: seq<T>, x: T): (r: Result<nat, PyError>)
    ensures r.Ok? <==> x in xs
    ensures r.Ok? ==> r.value < |xs| && xs[r.value] == x
    ensures r.Ok? ==> forall j :: 0 <= j < r.value ==> xs[j] != x
  {
    if |xs| == 0 then Err(ValueError)
    else if xs[0] == x then Ok(0)
    else match Index(xs[1..], x)
      case Ok(k) => Ok(k + 1)
      case Err(e) => Err(e)
  }

  /** On a list without repeats, `index` inverts indexing. */
  lemma IndexOfElement<T>(xs: seq<T>, k: nat)
    requires k < |xs|
    requires forall i, j :: 0 <= i < j < |xs| ==> xs[i] != xs[j]
    ensures Index(xs, xs[k]) == Ok(k)
  {
  }
}

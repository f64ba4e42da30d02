/** The property slots an SBOL object declares in its constructor: a predicate
    URI, a lower and an upper cardinality bound, a list of validation rules and
    the stored values, kept in insertion order. Only the declared bounds are
    enforced here; what a validation rule checks is not part of this model. */
module Property {
  import opened Results
  import opened SbolErrors

  /** The upper bound of a declaration: a number, or `'*'` for unbounded. */
  datatype UpperBound = AtMost(n: nat) | Unbounded

  /** The validation rules the modelled declarations attach; only their names are modelled. */
  datatype ValidationRule = LibsbolRule18

  /** One declared slot with its current values. */
  datatype Slot<T> = Slot(predicateUri: string, lower: nat, upper: UpperBound,
                          rules: seq<ValidationRule>, values: seq<T>)

  /** `n` values satisfy the bounds `lower..upper`. */
  predicate CountFits(n: nat, lower: nat, upper: UpperBound) {
    lower <= n && (upper.AtMost? ==> n <= upper.n)
  }

  /** The slot's current values satisfy its declared bounds. */
  predicate WithinBounds<T>(s: Slot<T>) {
    CountFits(|s.values|, s.lower, s.upper)
  }

  /** Two slots share their declaration (everything but the stored values). */
  predicate SameDeclaration<T>(s: Slot<T>, t: Slot<T>) {
    s.predicateUri == t.predicateUri && s.lower == t.lower && s.upper == t.upper && s.rules == t.rules
  }

  /** Replaces all values of a slot; a count outside the declared bounds is
      refused and nothing is stored. */
  function Write<T>(s: Slot<T>, vals: seq<T>): (r: Result<Slot<T>, Error>)
    ensures r.Success? <==> CountFits(|vals|, s.lower, s.upper)
    ensures r.Success? ==> r.value.values == vals && SameDeclaration(s, r.value) && WithinBounds(r.value)
    ensures r.Failure? ==> IsSbolError(r.error) && Code(r.error) == CardinalityViolation
  {
    if CountFits(|vals|, s.lower, s.upper) then Success(s.(values := vals))
    else Failure(Cardinality(s.predicateUri, |vals|))
  }

  /** Appends one value after the existing ones, refused if the slot is full. */
  function Append<T>(s: Slot<T>, v: T): (r: Result<Slot<T>, Error>)
    requires WithinBounds(s)
    ensures r.Success? <==> CountFits(|s.values| + 1, s.lower, s.upper)
    ensures r.Success? ==> r.value.values == s.values + [v] && SameDeclaration(s, r.value) && WithinBounds(r.value)
    ensures r.Failure? ==> IsSbolError(r.error) && Code(r.error) == CardinalityViolation
  {
    Write(s, s.values + [v])
  }

  /** Reading a slot after a successful write yields the written values, and a
      second write simply replaces the first. */
  lemma LastWriteWins<T>(s: Slot<T>, a: seq<T>, b: seq<T>)
    requires Write(s, a).Success?
    ensures Write(Write(s, a).value, b) == Write(s, b)
  {
  }
}

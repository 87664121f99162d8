/** The value a numeric form field holds. The form library keeps the
    number it was given as a default or by `setValue`, but once the user
    types into an `<input type="number">` the field holds the typed text. */
module FormInput {
  import opened Types
  import opened Strings

  datatype FieldValue = Num(n: int) | Text(s: string)

  /** `Number(v)` as the schema's coercion applies it: a number is itself,
      the empty text is 0, a decimal numeral is its value, anything else is
      `NaN` (`None`). */
  function ToNumber(v: FieldValue): (r: Option<int>)
    ensures v.Num? ==> r == Some(v.n)
    ensures v == Text("") ==> r == Some(0)
    ensures v.Text? && v.s != "" && r.Some? ==>
      (IsDigit(v.s[0]) || (v.s[0] == '-' && |v.s| >= 2)) && forall i :: 1 <= i < |v.s| ==> IsDigit(v.s[i])
    ensures v.Text? && v.s != "" && (forall i :: 0 <= i < |v.s| ==> IsDigit(v.s[i])) ==> r.Some? && r.value >= 0
  {
    match v
    case Num(n) => Some(n)
    case Text(s) => if s == "" then Some(0) else ParseInt(s)
  }

  /** `Number(v) || 0`: the number, with `NaN` counted as 0. */
  function NumberOrZero(v: FieldValue): (r: int)
    ensures ToNumber(v).Some? ==> r == ToNumber(v).value
    ensures ToNumber(v).None? ==> r == 0
  {
    match ToNumber(v)
    case Some(n) => n
    case None => 0
  }

  /** Typing the decimal numeral of `n` reads back as `n`, exactly as
      holding the number itself does. */
  lemma TypedNumeralReadsBack(n: int)
    ensures ToNumber(Text(IntToString(n))) == ToNumber(Num(n)) == Some(n)
  {
    IntToStringRoundTrip(n);
  }

  /** A value meets `z.coerce.number().int().min(low)`. */
  predicate AtLeast(v: FieldValue, low: int)
  {
    ToNumber(v).Some? && ToNumber(v).value >= low
  }
}

/** Optional values and the JavaScript notion of "truthy" that the wizard's
    guards (`if (x)`, `a || b`) rely on. */
module Values {

  /** An absent JavaScript value (`undefined`, `null`, or `NaN` from a failed
      `parseInt`) is `None`. */
  datatype Option<+T> = None | Some(value: T)

  /** A number is truthy when it is present and not zero. */
  predicate TruthyInt(o: Option<int>)
  {
    o.Some? && o.value != 0
  }

  predicate TruthyReal(o: Option<real>)
  {
    o.Some? && o.value != 0.0
  }

  /** A string is truthy when it is present and not empty. */
  predicate TruthyString(o: Option<string>)
  {
    o.Some? && o.value != ""
  }
}

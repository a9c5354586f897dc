/**
 * `orElse` of the `denops_test` directory: a value, or the result of a
 * fallback computed only when the value is missing. The comparison is the
 * loose `== undefined`, so `null` counts as missing too.
 */
module OrElse {
  import opened Values

  /** The result, and whether the fallback was run to get it. */
  datatype Chosen = Chosen(value: Value, fallbackRan: bool)

  predicate Missing(v: Value) {
    v.Undefined? || v.Null?
  }

  function OrElse(value: Value, fallback: () -> Value): (r: Chosen)
    ensures r.fallbackRan <==> value.Undefined? || value.Null?
    ensures r.fallbackRan ==> r.value == fallback()
    ensures !r.fallbackRan ==> r.value == value
  {
    if Missing(value) then Chosen(fallback(), true) else Chosen(value, false)
  }

  /**
   * A present value is kept whatever the fallback is, and chaining a second
   * fallback after a present result changes nothing.
   */
  lemma OrElseKeepsPresent(value: Value, f: () -> Value, g: () -> Value)
    requires !Missing(value)
    ensures OrElse(value, f).value == OrElse(value, g).value == value
    ensures OrElse(OrElse(value, f).value, g) == OrElse(value, f)
  {
  }
}

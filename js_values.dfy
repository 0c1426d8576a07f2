/** JavaScript value semantics that the components rely on: optional values,
    numbers that may be NaN, and the `x || fallback` defaulting idiom. */
module JsValues {

  datatype Option<+T> = None | Some(value: T)

  /** A JavaScript number as produced by `Number.parseFloat` or `Number(...)`:
      either a real value or NaN (what unparseable text becomes). */
  datatype Number = Num(value: real) | NaN

  /** True when JavaScript treats `n` as falsy: NaN and 0. */
  predicate Falsy(n: Number) {
    n.NaN? || n.value == 0.0
  }

  /** `n || fallback` for a number: a falsy number yields the fallback. */
  function OrElse(n: Number, fallback: real): (r: real)
    ensures Falsy(n) ==> r == fallback
    ensures !Falsy(n) ==> r == n.value
  {
    if Falsy(n) then fallback else n.value
  }

  /** Division of a possibly-NaN number by a non-zero constant; NaN propagates. */
  function Over(n: Number, d: real): (r: Number)
    requires d != 0.0
    ensures r.NaN? <==> n.NaN?
    ensures n.Num? ==> r.value * d == n.value
  {
    match n
    case Num(v) => Num(v / d)
    case NaN => NaN
  }

  /** Multiplication of a possibly-NaN number by a constant; NaN propagates. */
  function Times(n: Number, k: real): (r: Number)
    ensures r.NaN? <==> n.NaN?
    ensures n.Num? ==> r.value == n.value * k
  {
    match n
    case Num(v) => Num(v * k)
    case NaN => NaN
  }

  /** `n > k` in JavaScript: every comparison with NaN is false. */
  predicate Above(n: Number, k: real) {
    n.Num? && n.value > k
  }

  /** `n <= k` in JavaScript: every comparison with NaN is false. */
  predicate AtMost(n: Number, k: real) {
    n.Num? && n.value <= k
  }

  /** A string is truthy in JavaScript exactly when it is non-empty; an absent
      optional string (`undefined`) is falsy. */
  predicate Present(s: Option<string>) {
    s.Some? && s.value != ""
  }

  /** Comparisons with NaN are all false, so NaN is neither above nor at most
      any bound, while a real number is always exactly one of the two. */
  lemma ComparisonDichotomy(n: Number, k: real)
    ensures n.NaN? ==> !Above(n, k) && !AtMost(n, k)
    ensures n.Num? ==> (Above(n, k) <==> !AtMost(n, k))
  {
  }
}

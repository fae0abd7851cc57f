/** The one property of JavaScript numbers the core checks explicitly. */
module JsNumber {

  /** `Number.isInteger(x)` for a finite number. */
  predicate IsInteger(x: real) {
    x == x.Floor as real
  }
}

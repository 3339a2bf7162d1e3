/** Notions several modules share. */
module Common {
  datatype Option<T> = None | Some(value: T)

  predicate Distinct<T(==)>(s: seq<T>) {
    forall k, l | 0 <= k < l < |s| :: s[k] != s[l]
  }

  predicate TurnsSumIntoProduct(exp: real -> real, x: real, y: real) {
    exp(x + y) == exp(x) * exp(y)
  }

  /** The laws of the exponential function that are used. */
  ghost predicate IsExp(exp: real -> real) {
    && (forall x :: exp(x) > 0.0)
    && (forall x, y :: TurnsSumIntoProduct(exp, x, y))
  }
}

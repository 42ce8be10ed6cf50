/**
 * The part of Python's `float` the decision logic depends on: a value is
 * either a finite number or NaN (what pandas' rolling windows yield before
 * they fill), and every ordered comparison involving NaN is false.
 */
module PyFloat {
  datatype Float = Finite(value: real) | NaN

  /** `a > b` on Python floats. */
  predicate Gt(a: Float, b: Float)
  {
    a.Finite? && b.Finite? && a.value > b.value
  }

  /** `a < b` on Python floats. */
  predicate Lt(a: Float, b: Float)
  {
    Gt(b, a)
  }
}

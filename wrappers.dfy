/** The optional values of the source's loosely typed input record: a field
    that is `undefined` in the source is `None` here. */
module Wrappers {

  datatype Option<+T> = None | Some(value: T)

  /** The source's `x || 0` on a numeric field: an absent number reads as 0.
      (The source's NaN-to-0 coercion is not modelled: numbers are reals.) */
  function OrZero(o: Option<real>): real {
    match o
    case Some(v) => v
    case None => 0.0
  }
}

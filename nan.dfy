/** Values of a table cell. A pandas float cell is either a number or NaN;
    here `None` stands for NaN, and the arithmetic below propagates it the
    way column arithmetic does: any NaN operand gives NaN. */
module Nan {

  datatype Option<+T> = None | Some(value: T)

  /** One cell of a numeric column: `None` is NaN (a missing value). */
  type Num = Option<real>

  /** `a / b` on cells. A present divisor must be non-zero: the model never
      divides by a present zero (division by zero gives an infinity in pandas,
      which is not modelled). */
  function Div(a: Num, b: Num): (r: Num)
    requires b.Some? ==> b.value != 0.0
    ensures r.Some? <==> a.Some? && b.Some?
    ensures r.Some? ==> r.value * b.value == a.value
  {
    if a.Some? && b.Some? then Some(a.value / b.value) else None
  }

  /** `a * b` on cells. */
  function Mul(a: Num, b: Num): (r: Num)
    ensures r.Some? <==> a.Some? && b.Some?
  {
    if a.Some? && b.Some? then Some(a.value * b.value) else None
  }

  /** `a - b` on cells. */
  function Sub(a: Num, b: Num): (r: Num)
    ensures r.Some? <==> a.Some? && b.Some?
    ensures r.Some? ==> r.value + b.value == a.value
  {
    if a.Some? && b.Some? then Some(a.value - b.value) else None
  }
}

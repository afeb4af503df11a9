/** Small value types shared by the whole model. */
module Common {

  datatype Option<+T> = None | Some(value: T)

  /**
   * A JavaScript number as far as the zoom-scale bookkeeping needs it: either a
   * finite value, or something that is not finite (`undefined`, `NaN`, or an
   * infinity).  Multiplying or dividing with a non-finite operand stays
   * non-finite, and so does a division by zero.
   */
  datatype Num = Finite(v: real) | NotFinite

  const One: Num := Finite(1.0)

  /** JavaScript `a * b`. */
  function Mul(a: Num, b: Num): (r: Num)
    ensures r.Finite? <==> a.Finite? && b.Finite?
    ensures r.Finite? ==> r.v == a.v * b.v
  {
    if a.Finite? && b.Finite? then Finite(a.v * b.v) else NotFinite
  }

  /** JavaScript `a / b` on finite operands: dividing by zero gives a non-finite number. */
  function Div(a: real, b: real): (r: Num)
    ensures r.Finite? <==> b != 0.0
    ensures r.Finite? ==> r.v * b == a
  {
    if b == 0.0 then NotFinite else Finite(a / b)
  }

  function Min(a: real, b: real): (r: real)
    ensures r <= a && r <= b && (r == a || r == b)
  {
    if a <= b then a else b
  }

  function Max(a: real, b: real): (r: real)
    ensures r >= a && r >= b && (r == a || r == b)
  {
    if a >= b then a else b
  }
}

/** Small definitions shared by the other modules. */
module Prelude {

  datatype Option<+T> = None | Some(value: T)

  function Max(a: int, b: int): int {
    if a >= b then a else b
  }

  function Min(a: int, b: int): int {
    if a <= b then a else b
  }

  /** Conversion to a whole number cuts off the fraction, on either side of zero. */
  function Truncate(x: real): int {
    if x >= 0.0 then x.Floor else -((-x).Floor)
  }

  function Sum(xs: seq<real>): real {
    if xs == [] then 0.0 else Sum(xs[..|xs| - 1]) + xs[|xs| - 1]
  }

  lemma Scale(x: real, y: real, p: real)
    requires p > 0.0
    ensures x <= y ==> x * p <= y * p
    ensures x < y ==> x * p < y * p
  {
  }

  lemma Unscale(x: real, y: real, p: real)
    requires p > 0.0 && x * p <= y * p
    ensures x <= y
  {
    if y < x {
      Scale(y, x, p);
    }
  }

  lemma Compare(x: real, y: real, p: real)
    requires p > 0.0
    ensures x <= y <==> x * p <= y * p
    ensures x >= y <==> x * p >= y * p
  {
    Scale(x, y, p);
    Scale(y, x, p);
  }

  lemma Quotient(x: real, y: real, q: real)
    requires y > 0.0 && q * y == x
    ensures x / y == q
  {
    assert x / y * y == x;
    Unscale(x / y, q, y);
    Unscale(q, x / y, y);
  }
}

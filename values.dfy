/** JavaScript value semantics the sizing engine relies on: optional
    numeric fields, number truthiness, Math.abs and Math.min. Numbers are
    modelled as mathematical reals; NaN and the infinities are not. */
module Values {

  /** An optional value: `undefined` in the source is `None`. */
  datatype Option<+T> = None | Some(value: T) {
    function GetOr(default: T): T {
      match this
      case Some(v) => v
      case None => default
    }
  }

  /** A number in a boolean position (`if (x)`, `x || y`, `!x`) is true
      exactly when it is present and different from 0. */
  predicate Truthy(x: Option<real>) {
    x.Some? && x.value != 0.0
  }

  /** `a || b` on two optional numbers. */
  function Or(a: Option<real>, b: Option<real>): (r: Option<real>)
    ensures Truthy(a) ==> r == a
    ensures !Truthy(a) ==> r == b
  {
    if Truthy(a) then a else b
  }

  /** Math.abs */
  function Abs(x: real): (r: real)
    ensures r >= 0.0
    ensures r == x || r == -x
  {
    if x < 0.0 then -x else x
  }

  /** Math.min */
  function Min(a: int, b: int): (r: int)
    ensures r <= a && r <= b
    ensures r == a || r == b
  {
    if a <= b then a else b
  }
}

/**
 * Double-precision values and the C# integer conversions the plots use.
 *
 * A `double` is modelled as a real number, NaN or a signed infinity;
 * rounding is not modelled.  Only the operations the plot code applies
 * to doubles are defined.
 */
module Numbers {

  datatype Num = Val(r: real) | NaN | Inf(positive: bool)

  predicate IsNaN(x: Num) { x.NaN? }

  function Neg(a: Num): Num {
    match a
    case Val(x) => Val(-x)
    case NaN => NaN
    case Inf(p) => Inf(!p)
  }

  /** IEEE addition: NaN absorbs, opposite infinities give NaN. */
  function Add(a: Num, b: Num): (r: Num)
    ensures a.Val? && b.Val? ==> r == Val(a.r + b.r)
    ensures (a.NaN? || b.NaN?) ==> r.NaN?
  {
    match (a, b)
    case (NaN, _) => NaN
    case (_, NaN) => NaN
    case (Inf(p), Inf(q)) => if p == q then Inf(p) else NaN
    case (Inf(p), _) => Inf(p)
    case (_, Inf(q)) => Inf(q)
    case (Val(x), Val(y)) => Val(x + y)
  }

  function Sub(a: Num, b: Num): Num { Add(a, Neg(b)) }

  /** Math.Abs */
  function Abs(a: Num): (r: Num)
    ensures r.Val? ==> r.r >= 0.0
    ensures r.NaN? <==> a.NaN?
  {
    match a
    case Val(x) => Val(if x < 0.0 then -x else x)
    case NaN => NaN
    case Inf(_) => Inf(true)
  }

  /** Division by the literal 2.0. */
  function Half(a: Num): Num {
    match a
    case Val(x) => Val(x / 2.0)
    case NaN => NaN
    case Inf(p) => Inf(p)
  }

  /** The double quotient x / y of two finite doubles: a division by zero
      gives NaN for 0/0 and an infinity of the numerator's sign otherwise. */
  function Quotient(x: real, y: real): (q: Num)
    ensures y != 0.0 ==> q == Val(x / y)
    ensures y == 0.0 ==> (q.NaN? <==> x == 0.0)
  {
    if y != 0.0 then Val(x / y)
    else if x == 0.0 then NaN
    else Inf(x > 0.0)
  }

  /** The `<` comparison on doubles: false whenever either side is NaN. */
  predicate Less(a: Num, b: Num) {
    match (a, b)
    case (Val(x), Val(y)) => x < y
    case (Val(_), Inf(q)) => q
    case (Inf(p), Val(_)) => !p
    case (Inf(p), Inf(q)) => !p && q
    case _ => false
  }

  /** The C# cast `(int) f` of a float: truncation toward zero
      (values outside the 32-bit range are not modelled). */
  function TruncToInt(f: real): (t: int)
    ensures f >= 0.0 ==> t as real <= f < t as real + 1.0
    ensures f < 0.0 ==> t as real - 1.0 < f <= t as real
  {
    if f >= 0.0 then f.Floor else -((-f).Floor)
  }

  /** C# integer division `a / b`, which truncates toward zero. */
  function TruncDiv(a: int, b: int): int
    requires b != 0
  {
    var q := (if a < 0 then -a else a) / (if b < 0 then -b else b);
    if (a < 0) != (b < 0) then -q else q
  }

  /** Math.Abs on a double known to be finite. */
  function RealAbs(x: real): real { if x < 0.0 then -x else x }
}

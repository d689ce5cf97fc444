/** Floating-point numbers without rounding: the reals, with what division by zero leads to. There is
    one zero, as no operation on the way here makes a negative one. */
module Floats {

  datatype Float = Finite(value: real) | PlusInfinity | MinusInfinity | NaN

  function InfinityOf(x: real): Float {
    if x > 0.0 then PlusInfinity else if x < 0.0 then MinusInfinity else NaN
  }

  function Sign(x: Float): real {
    match x
    case Finite(v) => if v > 0.0 then 1.0 else if v < 0.0 then -1.0 else 0.0
    case PlusInfinity => 1.0
    case MinusInfinity => -1.0
    case NaN => 0.0
  }

  function Plus(x: Float, y: Float): Float {
    if x.Finite? && y.Finite? then Finite(x.value + y.value)
    else if x.NaN? || y.NaN? then NaN
    else if x.Finite? then y
    else if y.Finite? || x == y then x
    else NaN
  }

  function Times(x: Float, y: Float): Float {
    if x.Finite? && y.Finite? then Finite(x.value * y.value)
    else if x.NaN? || y.NaN? then NaN
    else InfinityOf(Sign(x) * Sign(y))
  }

  function Over(x: Float, y: Float): Float {
    if x.NaN? || y.NaN? then NaN
    else if x.Finite? && y.Finite? then
      if y.value != 0.0 then Finite(x.value / y.value) else InfinityOf(x.value)
    else if x.Finite? then Finite(0.0)
    else if y.Finite? then if Sign(y) < 0.0 then InfinityOf(-Sign(x)) else x
    else NaN
  }

  /** A comparison with NaN is false. */
  predicate Less(x: real, y: Float) {
    match y
    case Finite(v) => x < v
    case PlusInfinity => true
    case _ => false
  }

  function Power(x: Float, n: nat): Float {
    if n == 0 then Finite(1.0) else Times(x, Power(x, n - 1))
  }

  lemma ProductPositive(x: real, y: real)
    requires x > 0.0 && y > 0.0
    ensures x * y > 0.0
  {
  }

  lemma {:induction false} PowerPositive(x: real, n: nat)
    requires x > 0.0
    ensures Power(Finite(x), n).Finite? && Power(Finite(x), n).value > 0.0
  {
    if n > 0 {
      PowerPositive(x, n - 1);
      ProductPositive(x, Power(Finite(x), n - 1).value);
    }
  }

  lemma {:induction false} PowerOfInfinity(n: nat)
    requires n > 0
    ensures Power(PlusInfinity, n) == PlusInfinity
  {
    if n > 1 {
      PowerOfInfinity(n - 1);
    }
  }
}

/** Numbers of the expression language.
    The source computes with Python ints and floats. Here an int stays an
    unbounded `int`, and a float is held as an exact `real`: the tag records
    which of the two Python would produce, the value is not rounded. */
module Numbers {

  datatype Number = Int(i: int) | Float(r: real)
  {
    /** The numeric value, forgetting the int/float tag. */
    function Real(): real {
      match this
      case Int(i) => i as real
      case Float(r) => r
    }
  }

  /** `b ** e` on integers with a natural exponent. */
  function IntPow(b: int, e: nat): int {
    if e == 0 then 1 else b * IntPow(b, e - 1)
  }

  /** `b ** e` on reals with a natural exponent. */
  function RealPow(b: real, e: nat): real {
    if e == 0 then 1.0 else b * RealPow(b, e - 1)
  }

  lemma {:induction false} RealPowNonZero(b: real, e: nat)
    requires b != 0.0
    ensures RealPow(b, e) != 0.0
  {
    if e > 0 {
      RealPowNonZero(b, e - 1);
    }
  }

  lemma {:induction false} RealPowOfInt(b: int, e: nat)
    ensures RealPow(b as real, e) == IntPow(b, e) as real
  {
    if e > 0 {
      RealPowOfInt(b, e - 1);
    }
  }
}

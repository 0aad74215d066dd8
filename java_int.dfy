/** The parts of Java's 32-bit `int` arithmetic that the loader relies on. */
module JavaInt {

  const MinInt: int := -0x8000_0000
  const MaxInt: int := 0x7fff_ffff

  /** A Java `int`. */
  type int32 = x: int | -0x8000_0000 <= x < 0x8000_0000

  /** The result of a Java `int` operation whose mathematical value is `x`:
      two's-complement wrap-around modulo 2^32. */
  function Wrap(x: int): (r: int32)
    ensures (x - r) % 0x1_0000_0000 == 0
    ensures MinInt <= x <= MaxInt ==> r == x
  {
    (x + 0x8000_0000) % 0x1_0000_0000 - 0x8000_0000
  }

  /** Java's `a % 5`, the only remainder the loader takes: the remainder of
      division rounded toward zero, so it takes the sign of the dividend, where
      Dafny's `%` is never negative. */
  function RemFive(a: int): (r: int)
    ensures a >= 0 ==> 0 <= r < 5
    ensures a < 0 ==> -5 < r <= 0
    ensures (a - r) % 5 == 0
  {
    if a >= 0 then a % 5 else -((-a) % 5)
  }

  /** Java's narrowing cast `(int) d` of a (finite) double: rounds toward zero
      and saturates at the ends of the `int` range. */
  function TruncateToInt(d: real): (r: int32)
    ensures 0.0 <= d < 2147483648.0 ==> 0 <= r && r as real <= d < r as real + 1.0
    ensures -2147483649.0 < d <= 0.0 ==> r <= 0 && r as real - 1.0 < d <= r as real
    ensures d >= 2147483648.0 ==> r == MaxInt
    ensures d <= -2147483649.0 ==> r == MinInt
  {
    var t := if d >= 0.0 then d.Floor else -((-d).Floor);
    if t > MaxInt then MaxInt else if t < MinInt then MinInt else t
  }
}

/** Number conversions that JavaScript and the browser apply implicitly:
    truncation, Math.round, and the two ways a number is stored into a
    byte array (Uint8Array wraps, Uint8ClampedArray clamps and rounds). */
module Numeric {

  /** One 8-bit sample of an RGBA buffer. */
  type Byte = x: int | 0 <= x <= 255

  function Min(a: real, b: real): (r: real)
    ensures r <= a && r <= b && (r == a || r == b)
  {
    if a <= b then a else b
  }

  function Max(a: real, b: real): (r: real)
    ensures r >= a && r >= b && (r == a || r == b)
  {
    if a >= b then a else b
  }

  /** Truncation toward zero, as ToIntegerOrInfinity does for a finite number. */
  function Trunc(x: real): (n: int)
    ensures x >= 0.0 ==> n as real <= x < n as real + 1.0
    ensures x < 0.0 ==> n as real - 1.0 < x <= n as real
  {
    if x >= 0.0 then x.Floor else -((-x).Floor)
  }

  /** Storing a number into a Uint8Array: truncate, then reduce modulo 2^8. */
  function ToUint8(x: real): (b: Byte)
    ensures 0.0 <= x < 256.0 ==> b as real <= x < b as real + 1.0
  {
    Trunc(x) % 256
  }

  /** Round to nearest, ties to the even neighbour. */
  function RoundHalfEven(x: real): (n: int)
    ensures n as real - 0.5 <= x <= n as real + 0.5
    ensures (x == n as real + 0.5 || x == n as real - 0.5) ==> n % 2 == 0
  {
    var f := x.Floor;
    var d := x - f as real;
    if d < 0.5 then f
    else if d > 0.5 then f + 1
    else if f % 2 == 0 then f
    else f + 1
  }

  /** Storing a number into a Uint8ClampedArray (ImageData.data):
      clamp to [0, 255], then round to nearest with ties to even. */
  function ToUint8Clamp(x: real): (b: Byte)
    ensures x <= 0.0 ==> b == 0
    ensures x >= 255.0 ==> b == 255
    ensures 0.0 < x < 255.0 ==> b as real - 0.5 <= x <= b as real + 0.5
    ensures 0.0 < x < 255.0 && (x == b as real + 0.5 || x == b as real - 0.5) ==> b % 2 == 0
  {
    if x <= 0.0 then 0
    else if x >= 255.0 then 255
    else RoundHalfEven(x)
  }

  /** Math.round: nearest integer, ties toward positive infinity. */
  function MathRound(x: real): (n: int)
    ensures n as real - 0.5 <= x < n as real + 0.5
  {
    (x + 0.5).Floor
  }

  /** A whole number stored into a clamped byte is kept as it is. */
  lemma ClampKeepsByte(v: Byte)
    ensures ToUint8Clamp(v as real) == v
  {
  }

  /** Rounding half to even never reverses the order of two numbers. */
  lemma RoundHalfEvenMonotone(x: real, y: real)
    requires x <= y
    ensures RoundHalfEven(x) <= RoundHalfEven(y)
  {
  }

  /** A larger number is never stored as a smaller clamped byte. */
  lemma ClampMonotone(x: real, y: real)
    requires x <= y
    ensures ToUint8Clamp(x) <= ToUint8Clamp(y)
  {
    if 0.0 < x && y < 255.0 {
      RoundHalfEvenMonotone(x, y);
    }
  }

  /** Math.round of a whole number is that number; rounding is monotone. */
  lemma MathRoundMonotone(x: real, y: real)
    requires x <= y
    ensures MathRound(x) <= MathRound(y)
  {
  }

  /** Math.round never exceeds a whole bound that its argument stays under. */
  lemma MathRoundBelow(x: real, n: int)
    requires x <= n as real
    ensures MathRound(x) <= n
  {
  }

  /** A fraction between 0 and 1 of a non-negative number lies between 0
      and that number. */
  lemma MulWithin(a: real, f: real)
    requires 0.0 <= a && 0.0 <= f <= 1.0
    ensures 0.0 <= a * f <= a
  {
  }
}

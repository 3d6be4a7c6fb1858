/**
 * The two-byte progress register that the worker shares with the page.
 * It is a Uint8ClampedArray: every number stored into it is clamped to
 * 0..255 and rounded half-to-even.  The model performs that conversion on
 * exact rationals.
 */
module Progress {

  /** One element of a Uint8ClampedArray. */
  newtype byte = x: int | 0 <= x < 256

  /** Offset of the progress byte within the register. */
  const ProgressIndex: nat := 0
  /** Offset of the phase byte within the register. */
  const PhaseIndex: nat := 1

  /** Rounds a real to the nearest integer, ties to the even neighbour. */
  function RoundHalfEven(x: real): (n: int)
    ensures n as real - 0.5 <= x <= n as real + 0.5
    ensures x == n as real - 0.5 || x == n as real + 0.5 ==> n % 2 == 0
  {
    var f := x.Floor;
    var frac := x - f as real;
    if frac < 0.5 then f
    else if frac > 0.5 then f + 1
    else if f % 2 == 0 then f
    else f + 1
  }

  /**
   * The value a Uint8ClampedArray element holds after `x` is stored into it:
   * non-positive values give 0, values of 255 and above give 255, anything
   * in between is rounded half-to-even.
   */
  function ToUint8Clamp(x: real): (b: byte)
    ensures x <= 0.0 ==> b == 0
    ensures x >= 255.0 ==> b == 255
    ensures 0.0 <= x <= 255.0 ==> b as real - 0.5 <= x <= b as real + 0.5
  {
    if x <= 0.0 then 0
    else if x >= 255.0 then 255
    else RoundHalfEven(x) as byte
  }

  /** Rounding is monotone. */
  lemma RoundHalfEvenMonotone(x: real, y: real)
    requires x <= y
    ensures RoundHalfEven(x) <= RoundHalfEven(y)
  {
    var fx, fy := x.Floor, y.Floor;
    if fx < fy {
      assert RoundHalfEven(x) <= fx + 1 <= fy <= RoundHalfEven(y);
    } else {
      assert fx == fy;
    }
  }

  /** Clamped stores are monotone: a larger number never stores as a smaller byte. */
  lemma ToUint8ClampMonotone(x: real, y: real)
    requires x <= y
    ensures ToUint8Clamp(x) <= ToUint8Clamp(y)
  {
    if 0.0 < x && y < 255.0 {
      RoundHalfEvenMonotone(x, y);
    }
  }

  /** An integer that already fits a byte is stored unchanged. */
  lemma ToUint8ClampExact(n: int)
    requires 0 <= n < 256
    ensures ToUint8Clamp(n as real) as int == n
  {
  }
}

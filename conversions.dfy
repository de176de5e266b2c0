/**
 * JVM integer and floating-point conversions used by the equalizer manager,
 * written out explicitly because Dafny's integers are unbounded and its
 * `/` rounds differently from Kotlin's on negative operands.
 */
module Conversions {

  const IntMin: int := -0x8000_0000
  const IntMax: int := 0x7FFF_FFFF
  const ShortMin: int := -0x8000
  const ShortMax: int := 0x7FFF

  /** One dB is one hundred millibels. */
  const MillibelsPerDb: int := 100

  predicate IsInt(x: int) { IntMin <= x <= IntMax }

  predicate IsShort(x: int) { ShortMin <= x <= ShortMax }

  function Abs(x: int): (r: nat)
    ensures r == x || r == -x
  {
    if x < 0 then -x else x
  }

  /**
   * Kotlin's `Int / Int`: the quotient rounded toward zero. The contract
   * pins the quotient down: `q * d` lies between 0 and `a` and is less
   * than `d` away from it.
   */
  function TruncDiv(a: int, d: int): (q: int)
    requires d > 0
    ensures a >= 0 ==> 0 <= q * d <= a < q * d + d
    ensures a < 0 ==> q * d - d < a <= q * d <= 0
  {
    if a >= 0 then
      DivBounds(a, d);
      a / d
    else
      DivBounds(-a, d);
      NegateProduct((-a) / d, d);
      -((-a) / d)
  }

  lemma DivBounds(n: nat, d: int)
    requires d > 0
    ensures 0 <= (n / d) * d <= n < (n / d) * d + d
  {
    assert n == (n / d) * d + n % d;
  }

  lemma NegateProduct(x: int, d: int)
    ensures (-x) * d == -(x * d)
  {
  }

  /** The integer part of `x`, rounded toward zero. */
  function TruncReal(x: real): (r: int)
    ensures x >= 0.0 ==> r as real <= x < r as real + 1.0
    ensures x < 0.0 ==> r as real - 1.0 < x <= r as real
  {
    if x >= 0.0 then x.Floor else -((-x).Floor)
  }

  /**
   * Kotlin's `Double.toInt()`: rounds toward zero and saturates at the
   * bounds of `Int`.
   */
  function DoubleToInt(x: real): (r: int)
    ensures IsInt(r)
    ensures IsInt(TruncReal(x)) ==> r == TruncReal(x)
    ensures TruncReal(x) > IntMax ==> r == IntMax
    ensures TruncReal(x) < IntMin ==> r == IntMin
  {
    var t := TruncReal(x);
    if t > IntMax then IntMax else if t < IntMin then IntMin else t
  }

  /**
   * Kotlin's `Int.toShort()`: keeps the low 16 bits, read as a signed
   * two's-complement value.
   */
  function ToShort(x: int): (r: int)
    ensures IsShort(r)
    ensures (x - r) % 0x1_0000 == 0
  {
    (x - ShortMin) % 0x1_0000 + ShortMin
  }

  lemma ToShortKeepsShorts(x: int)
    requires IsShort(x)
    ensures ToShort(x) == x
  {
    var r := ToShort(x);
    var k := (x - r) / 0x1_0000;
    assert x - r == k * 0x1_0000;
    assert -0x1_0000 < x - r < 0x1_0000;
  }

  /** `(level * 100).toInt().toShort()`: a gain in dB as a millibel short. */
  function ToMillibels(db: real): (mb: int)
    ensures IsShort(mb)
  {
    ToShort(DoubleToInt(db * MillibelsPerDb as real))
  }

  /**
   * Within the range a short can hold, the conversion is exactly the
   * hundredfold gain truncated toward zero: no saturation or wrap-around.
   */
  lemma ToMillibelsInRange(db: real)
    requires -327.68 <= db <= 327.67
    ensures ToMillibels(db) == TruncReal(db * 100.0)
    ensures db * 100.0 == TruncReal(db * 100.0) as real ==> ToMillibels(db) as real == db * 100.0
  {
    var t := TruncReal(db * 100.0);
    assert IsShort(t);
    ToShortKeepsShorts(t);
  }

  /** Gains of 3.5 dB and -12 dB become 350 and -1200 millibels exactly. */
  lemma ToMillibelsExamples()
    ensures ToMillibels(3.5) == 350
    ensures ToMillibels(-12.0) == -1200
    ensures ToMillibels(0.0) == 0
    ensures ToMillibels(-0.259) == -25
  {
    ToMillibelsInRange(3.5);
    ToMillibelsInRange(-12.0);
    ToMillibelsInRange(0.0);
    ToMillibelsInRange(-0.259);
  }

  /** A gain beyond the short range wraps around instead of clamping. */
  lemma ToMillibelsWraps()
    ensures ToMillibels(400.0) == -25536
  {
    assert TruncReal(40000.0) == 40000;
  }

  /** Kotlin's `mB / 100`: millibels to whole dB, rounded toward zero. */
  function MillibelsToDb(mb: int): (db: int)
    ensures mb >= 0 ==> 0 <= db * 100 <= mb < db * 100 + 100
    ensures mb < 0 ==> db * 100 - 100 < mb <= db * 100 <= 0
  {
    TruncDiv(mb, MillibelsPerDb)
  }

  /**
   * Rounding toward zero differs from Dafny's Euclidean division on
   * negative levels: -1250 mB reports -12 dB, not -13.
   */
  lemma MillibelsToDbTruncates()
    ensures MillibelsToDb(-1250) == -12
    ensures -1250 / 100 == -13
    ensures MillibelsToDb(1250) == 12
    ensures MillibelsToDb(-1500) == -15
  {
  }
}

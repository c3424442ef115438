/**
 * The Q15 fixed-point utility library shared by the horde and template
 * firmwares: saturation, rounding shifts, the Q5.27 mix bus, PWM and ADC
 * conversions, Q0.8 interpolation and Q0.32 phase decomposition.
 */
module FixedPoint {
  import opened IntArith

  /** Saturate a 32-bit value into Q1.15. */
  function SatQ15(x: int): (r: int)
    ensures IsI16(r)
    ensures IsI16(x) ==> r == x
    ensures x > 32767 ==> r == 32767
    ensures x < -32768 ==> r == -32768
  {
    if x > 32767 then 32767 else if x < -32768 then -32768 else x
  }

  lemma SatQ15Idempotent(x: int)
    ensures SatQ15(SatQ15(x)) == SatQ15(x)
  {
  }

  /** Saturating Q1.15 addition. */
  function AddQ15(a: int, b: int): (r: int)
    requires IsI16(a) && IsI16(b)
    ensures IsI16(r)
  {
    var sum := a + b;
    if sum > 32767 then 32767 else if sum < -32768 then -32768 else sum
  }

  lemma AddQ15IsSaturatedSum(a: int, b: int)
    requires IsI16(a) && IsI16(b)
    ensures AddQ15(a, b) == SatQ15(a + b)
    ensures AddQ15(a, b) == AddQ15(b, a)
  {
  }

  /** The product of two Q1.15 values rounded half-up to 15 fractional bits, before saturation. */
  function RoundedProduct(a: int, b: int): int
  {
    (a * b + 0x4000) / TWO15
  }

  /** Q1.15 multiplication: round half-up, then saturate. */
  function MulQ15(a: int, b: int): (r: int)
    requires IsI16(a) && IsI16(b)
    ensures IsI16(r)
  {
    var rounded := RoundedProduct(a, b);
    if rounded > 32767 then 32767 else if rounded < -32768 then -32768 else rounded
  }

  lemma MulQ15Commutative(a: int, b: int)
    requires IsI16(a) && IsI16(b)
    ensures MulQ15(a, b) == MulQ15(b, a)
  {
    assert a * b == b * a;
  }

  /** |a·b| for int16 operands: at most 2^30, and above 2^15·(2^15 − 1) only for (−2^15)·(−2^15). */
  lemma ProductBound(a: int, b: int)
    requires IsI16(a) && IsI16(b)
    ensures -(TWO15 * (TWO15 - 1)) <= a * b <= TWO15 * TWO15
    ensures a * b > TWO15 * (TWO15 - 1) ==> a == -TWO15 && b == -TWO15
  {
    var x, y := Abs(a), Abs(b);
    MulMono(x, y, TWO15, TWO15);
    if x < TWO15 {
      MulMono(x, y, TWO15 - 1, TWO15);
    }
    if y < TWO15 {
      MulMono(x, y, TWO15, TWO15 - 1);
    }
    if (a < 0) != (b < 0) {
      assert x < TWO15 || y < TWO15;
      assert a * b == -(x * y);
    } else {
      assert a * b == x * y;
    }
  }

  /**
   * The only int16 pair whose rounded product leaves the Q1.15 range is
   * (−32768, −32768), which saturates to 32767; every other product is exact.
   */
  lemma {:induction false} MulQ15SaturatesOnlyAtMinSquared(a: int, b: int)
    requires IsI16(a) && IsI16(b)
    ensures RoundedProduct(a, b) >= -32768
    ensures RoundedProduct(a, b) > 32767 <==> (a == -32768 && b == -32768)
    ensures !(a == -32768 && b == -32768) ==> MulQ15(a, b) == RoundedProduct(a, b)
    ensures a == -32768 && b == -32768 ==> MulQ15(a, b) == 32767
  {
    ProductBound(a, b);
  }

  /** Rounded arithmetic right shift, `(x + 2^(s-1)) >> s`. */
  function RShiftRound(x: int, s: nat): (r: int)
    requires 1 <= s <= 31
    ensures r * Pow2(s) - Pow2(s - 1) <= x < r * Pow2(s) + Pow2(s - 1)
  {
    var h := Pow2(s - 1);
    var d := Pow2(s);
    assert d == 2 * h;
    var q := (x + h) / d;
    assert x + h == q * d + (x + h) % d;
    q
  }

  /** `(d·c) >> 15` for a Q15 fraction c lies between 0 and d. */
  lemma FractionOfDifference(d: int, c: int)
    requires 0 <= c < TWO15
    ensures d >= 0 ==> 0 <= (d * c) / TWO15 <= d
    ensures d < 0 ==> d <= (d * c) / TWO15 <= 0
    ensures c == 0 || d == 0 ==> (d * c) / TWO15 == 0
  {
    if d >= 0 {
      MulLe(c, TWO15, d);
      DivModUnique(d * TWO15, TWO15, d, 0);
      DivMonotone(d * c, d * TWO15, TWO15);
      DivMonotone(0, d * c, TWO15);
    } else {
      MulLe(c, TWO15, -d);
      DivModUnique(d * TWO15, TWO15, d, 0);
      DivMonotone(d * TWO15, d * c, TWO15);
      DivMonotone(d * c, 0, TWO15);
    }
  }

  /** Q0.32 phase accumulation wraps modulo 2^32. */
  function IncPhaseQ32(phase: int, inc: int): (r: int)
    requires IsU32(phase) && IsU32(inc)
    ensures IsU32(r)
    ensures (r - (phase + inc)) % TWO32 == 0
    ensures phase + inc < TWO32 ==> r == phase + inc
    ensures phase + inc >= TWO32 ==> r == phase + inc - TWO32
  {
    (phase + inc) % TWO32
  }

  /** Q1.15 to the Q5.27 mix bus: a 12-bit left shift. */
  function Q15ToMix(s: int): (r: int)
    requires IsI16(s)
    ensures IsI32(r) && r % 4096 == 0
  {
    s * 4096
  }

  /** Q5.27 back to Q1.15 with rounding and saturation. */
  function MixToQ15(accum: int): (r: int)
    ensures IsI16(r)
  {
    SatQ15(RShiftRound(accum, 12))
  }

  lemma MixRoundTrip(s: int)
    requires IsI16(s)
    ensures MixToQ15(Q15ToMix(s)) == s
  {
    var r := RShiftRound(s * 4096, 12);
    Pow2Values();
    assert Pow2(11) == 2048;
    assert r * 4096 - 2048 <= s * 4096 < r * 4096 + 2048;
    assert r == s;
  }

  /** Flipping bit 15 of a 16-bit pattern is adding 2^15 modulo 2^16; for an int16 that is the offset-binary value. */
  function OffsetBinary(s: int): (u: int)
    requires IsI16(s)
    ensures u == s + 32768
  {
    (U16(s) + 0x8000) % TWO16
  }

  /** Q1.15 to a 12-bit PWM duty, rounded. */
  function Q15ToPwm(s: int): (r: int)
    requires IsI16(s)
    ensures 0 <= r <= 4095
  {
    var product := OffsetBinary(s) * 4095;
    (product + 0x8000) / TWO16
  }

  lemma {:induction false} Q15ToPwmMonotone(a: int, b: int)
    requires IsI16(a) && IsI16(b) && a <= b
    ensures Q15ToPwm(a) <= Q15ToPwm(b)
  {
    assert OffsetBinary(a) * 4095 <= OffsetBinary(b) * 4095;
  }

  lemma Q15ToPwmEndpoints()
    ensures Q15ToPwm(-32768) == 0
    ensures Q15ToPwm(0) == 2048
    ensures Q15ToPwm(32767) == 4095
  {
  }

  /** A 12-bit ADC reading centred at 2048 and scaled by 8, saturated. */
  function AdcToQ15(adc: int): (r: int)
    requires IsU16(adc)
    ensures IsI16(r)
  {
    SatQ15((adc - 2048) * 8)
  }

  lemma AdcToQ15InRange(adc: int)
    requires 0 <= adc <= 4095
    ensures AdcToQ15(adc) == 8 * (adc - 2048)
  {
  }

  /** Linear interpolation a + (b − a)·t/256 with a floor shift, saturated. */
  function LerpQ15(a: int, b: int, t: int): (r: int)
    requires IsI16(a) && IsI16(b) && IsU8(t)
    ensures IsI16(r)
  {
    var diff := b - a;
    SatQ15(a + (diff * t) / 256)
  }

  lemma {:induction false} LerpQ15Between(a: int, b: int, t: int)
    requires IsI16(a) && IsI16(b) && IsU8(t)
    ensures Min(a, b) <= LerpQ15(a, b, t) <= Max(a, b)
    ensures t == 0 ==> LerpQ15(a, b, t) == a
  {
    var diff := b - a;
    FractionOfDiff(diff, t);
    var step := (diff * t) / 256;
    assert a + step == a + (diff * t) / 256;
    assert Min(a, b) <= a + step <= Max(a, b);
  }

  /** A Q0.8 fraction of a difference, floored, lies between 0 and the difference. */
  lemma FractionOfDiff(diff: int, t: int)
    requires 0 <= t < 256
    ensures diff >= 0 ==> 0 <= (diff * t) / 256 <= diff
    ensures diff < 0 ==> diff <= (diff * t) / 256 <= 0
    ensures t == 0 ==> (diff * t) / 256 == 0
  {
    var p := diff * t;
    if diff >= 0 {
      MulLe(0, t, diff);
      MulLe(t, 256, diff);
      assert 0 <= p <= diff * 256;
    } else {
      MulLe(0, t, -diff);
      MulLe(t, 256, -diff);
      assert diff * 256 <= p <= 0;
    }
  }

  /** The table index held in the top `bits` bits of a Q0.32 phase. */
  function PhaseToIndex(phase: int, bits: nat): (r: nat)
    requires IsU32(phase) && 1 <= bits <= 32
    ensures r < Pow2(bits)
  {
    Pow2Add(32 - bits, bits);
    Pow2Values();
    DivBound(phase, Pow2(32 - bits), Pow2(bits));
    phase / Pow2(32 - bits)
  }

  /** The 8 interpolation bits right below the index bits. */
  function PhaseToMu(phase: int, bits: nat): (r: nat)
    requires IsU32(phase) && bits <= 24
    ensures r <= 255
  {
    (phase / Pow2(24 - bits)) % 256
  }

  /** Splitting a quotient by 256 splits the dividend into three digits. */
  lemma ThreeDigits(x: int, lo: int)
    requires lo > 0
    ensures x == ((x / lo) / 256) * (lo * 256) + ((x / lo) % 256) * lo + x % lo
  {
    var q := x / lo;
    assert x == q * lo + x % lo;
    assert q == (q / 256) * 256 + q % 256;
    assert q * lo == (q / 256) * (lo * 256) + (q % 256) * lo;
  }

  /** A phase is its index, then its 8-bit fraction, then the bits below. */
  lemma {:induction false} PhaseSplit(phase: int, bits: nat)
    requires IsU32(phase) && 1 <= bits <= 24
    ensures phase == PhaseToIndex(phase, bits) * Pow2(32 - bits)
                     + PhaseToMu(phase, bits) * Pow2(24 - bits)
                     + phase % Pow2(24 - bits)
  {
    var lo := Pow2(24 - bits);
    Pow2Add(24 - bits, 8);
    Pow2Values();
    assert Pow2(32 - bits) == lo * 256;
    DivDiv(phase, lo, 256);
    ThreeDigits(phase, lo);
  }
}

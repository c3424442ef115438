/**
 * The horde firmware's two-pole TPT state-variable band-pass filter, audio
 * path only. The input is lifted to Q2.30. Every intermediate of the
 * topology-preserving transform and both integrator states are clamped to
 * ±2^33. The band-pass output is rounded back to Q1.15, scaled by the gain
 * compensation and saturated. The coefficients g (Q5.26), h and r (Q2.30)
 * come from floating-point design code and are plain fields here.
 */
module ResonantBandpass {
  import opened IntArith
  import opened FixedPoint

  const STATE_LIMIT: int := 0x2_0000_0000
  const TWO26: int := 0x400_0000
  const TWO30: int := 0x4000_0000

  /** The ±2^33 guard applied after every step. */
  function Guard(x: int): (r: int)
    ensures -STATE_LIMIT <= r <= STATE_LIMIT
    ensures -STATE_LIMIT <= x <= STATE_LIMIT ==> r == x
  {
    if x > STATE_LIMIT then STATE_LIMIT else if x < -STATE_LIMIT then -STATE_LIMIT else x
  }

  /** A Q-format product: the 64-bit product, then an arithmetic shift right by `s` bits. */
  function QMul(coef: int, x: int, scale: int): int
    requires scale > 0
  {
    I64(coef * x) / scale
  }

  predicate Guarded(x: int) { -STATE_LIMIT <= x <= STATE_LIMIT }

  /** The filter state and coefficients (`ResonantBandpass2P` without its float fields). */
  datatype BandpassState = BandpassState(ic1: int, ic2: int, g: int, h: int, r: int, gain: int)

  predicate StateOk(s: BandpassState)
  {
    IsI64(s.ic1) && IsI64(s.ic2) && IsI32(s.g) && IsI32(s.h) && IsI32(s.r) && IsU16(s.gain)
  }

  /** The result of one sample: the two new integrator states, the band-pass value and the output. */
  datatype BandpassStepResult = BandpassStepResult(ic1: int, ic2: int, bp: int, out: int)

  /** The rounding Q2.30 → Q1.15, the gain scaling with rounding, and the int16 saturation. */
  function BandpassOutput(bp: int, gain: int): (y: int)
    ensures IsI16(y)
  {
    var yQ15 := I32((bp + 0x4000) / TWO15);
    var scaled64 := I64(yQ15 * gain + 0x4000);
    var scaled := I32(scaled64 / TWO15);
    if scaled > 32767 then 32767 else if scaled < -32768 then -32768 else scaled
  }

  /** `resonant_bandpass_process` on values. */
  function BandpassStep(s: BandpassState, input: int): (res: BandpassStepResult)
    requires StateOk(s) && IsI16(input)
    ensures Guarded(res.ic1) && Guarded(res.ic2) && Guarded(res.bp) && IsI16(res.out)
  {
    var x := input * TWO15;
    var rIc1 := QMul(s.r, s.ic1, TWO30);
    var hpNum := Guard(x - s.ic2 - rIc1);
    var hp := Guard(QMul(s.h, hpNum, TWO30));
    var gHp := Guard(QMul(s.g, hp, TWO26));
    var bp := Guard(gHp + s.ic1);
    var gBp := Guard(QMul(s.g, bp, TWO26));
    var lp := Guard(gBp + s.ic2);
    BandpassStepResult(Guard(bp + gHp), Guard(lp + gBp), bp, BandpassOutput(bp, s.gain))
  }

  /** A silent filter at rest stays at rest. */
  lemma ZeroStateZeroInputIsFixed(s: BandpassState)
    requires StateOk(s) && s.ic1 == 0 && s.ic2 == 0
    ensures BandpassStep(s, 0) == BandpassStepResult(0, 0, 0, 0)
  {
  }

  /** With g = 0 and a cleared state, nothing reaches the integrators or the output, whatever the input. */
  lemma ZeroCutoffBlocksInput(s: BandpassState, input: int)
    requires StateOk(s) && s.g == 0 && s.ic1 == 0 && s.ic2 == 0 && IsI16(input)
    ensures BandpassStep(s, input) == BandpassStepResult(0, 0, 0, 0)
  {
  }

  /** |bp + 2^14| below 2^34 keeps the first rounding inside ±2^19. */
  lemma RoundQ30Bound(bp: int)
    requires Guarded(bp)
    ensures -0x8_0000 <= (bp + 0x4000) / TWO15 <= 0x8_0000
  {
    DivMonotone(bp + 0x4000, STATE_LIMIT + 0x4000, TWO15);
    DivMonotone(-STATE_LIMIT + 0x4000, bp + 0x4000, TWO15);
  }

  /**
   * For a guarded band-pass value none of the int32/int64 narrowings in the
   * output path changes anything: the output is the rounded Q1.15 value
   * times the gain, rounded, then saturated.
   */
  lemma BandpassOutputIsRoundedGain(bp: int, gain: int)
    requires Guarded(bp) && IsU16(gain)
    ensures BandpassOutput(bp, gain) == SatQ15(RShiftRound(RShiftRound(bp, 15) * gain, 15))
  {
    Pow2Values();
    assert Pow2(14) == 0x4000 by { Pow2Add(12, 2); }
    var y := (bp + 0x4000) / TWO15;
    RoundQ30Bound(bp);
    assert y == RShiftRound(bp, 15);
    var ay := Abs(y);
    MulMono(ay, gain, 0x8_0000, TWO16);
    assert Abs(y * gain) == ay * gain;
    var p := y * gain + 0x4000;
    assert IsI64(p);
    DivMonotone(p, 0x8_0000 * TWO16 + 0x4000, TWO15);
    DivMonotone(-(0x8_0000 * TWO16) + 0x4000, p, TWO15);
    assert IsI32(p / TWO15);
  }

  /** `ResonantBandpass2P`, audio fields only. */
  class ResonantBandpass2P {
    var ic1Eq: int
    var ic2Eq: int
    var gQ26: int
    var hQ30: int
    var rQ30: int
    var bpGainQ15: int

    function State(): BandpassState
      reads this
    {
      BandpassState(ic1Eq, ic2Eq, gQ26, hQ30, rQ30, bpGainQ15)
    }

    ghost predicate Valid()
      reads this
    {
      StateOk(State())
    }

    /**
     * `resonant_bandpass_process`: the new integrator states are those of the
     * TPT step, both within the guard, and the coefficients are untouched.
     */
    method Process(input: int) returns (out: int)
      requires Valid() && IsI16(input)
      modifies this
      ensures Valid() && Guarded(ic1Eq) && Guarded(ic2Eq)
      ensures ic1Eq == BandpassStep(old(State()), input).ic1
      ensures ic2Eq == BandpassStep(old(State()), input).ic2
      ensures out == BandpassStep(old(State()), input).out
      ensures gQ26 == old(gQ26) && hQ30 == old(hQ30) && rQ30 == old(rQ30) && bpGainQ15 == old(bpGainQ15)
    {
      var x := input * TWO15;
      var ic1 := ic1Eq;
      var ic2 := ic2Eq;
      var rIc1 := QMul(rQ30, ic1, TWO30);
      var hpNum := Guard(x - ic2 - rIc1);
      var hp := Guard(QMul(hQ30, hpNum, TWO30));
      var gHp := Guard(QMul(gQ26, hp, TWO26));
      var bp := Guard(gHp + ic1);
      var gBp := Guard(QMul(gQ26, bp, TWO26));
      var lp := Guard(gBp + ic2);
      ic1Eq := Guard(bp + gHp);
      ic2Eq := Guard(lp + gBp);
      out := BandpassOutput(bp, bpGainQ15);
    }
  }
}

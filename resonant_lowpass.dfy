/**
 * The template firmware's two-pole resonant low-pass filter, audio path
 * only: two integrators held as Q1.15 values with 8 extra fractional bits,
 * a feedback term taken from the second stage, every step clamped to the
 * scaled int16 range, and the output shifted back and saturated. The cutoff
 * and feedback coefficients come from floating-point design code and are
 * plain fields here.
 */
module ResonantLowpass {
  import opened IntArith
  import opened FixedPoint

  const STATE_SHIFT_SCALE: int := 256
  const STATE_MAX: int := 32767 * 256
  const STATE_MIN: int := -32768 * 256

  /** The clamp into [STATE_MIN, STATE_MAX]. */
  function ClampState(x: int): (r: int)
    ensures STATE_MIN <= r <= STATE_MAX
    ensures STATE_MIN <= x <= STATE_MAX ==> r == x
  {
    if x > STATE_MAX then STATE_MAX else if x < STATE_MIN then STATE_MIN else x
  }

  predicate InState(x: int) { STATE_MIN <= x <= STATE_MAX }

  /** `(coef·x) >> 15` through a 64-bit product, narrowed to int32. */
  function Q15Scale(coef: int, x: int): int
  {
    I32((coef * x) / TWO15)
  }

  /** The filter drive: the scaled input less the feedback from stage 2, clamped. */
  function Drive(input: int, feedback: int, stage2: int): (d: int)
    ensures InState(d)
  {
    ClampState(I32(input * STATE_SHIFT_SCALE - Q15Scale(feedback, stage2)))
  }

  /** One integrator: `stage += (g·(target − stage)) >> 15`, clamped. */
  function Integrate(stage: int, target: int, g: int): (s: int)
    ensures InState(s)
  {
    ClampState(I32(stage + Q15Scale(g, I32(target - stage))))
  }

  /** The output: stage 2 shifted back to Q1.15 and saturated. */
  function LowpassOutput(stage2: int): (y: int)
    ensures IsI16(y)
  {
    var o := stage2 / STATE_SHIFT_SCALE;
    if o > 32767 then 32767 else if o < -32768 then -32768 else o
  }

  /** For a state inside the clamp range the final saturation never fires. */
  lemma LowpassOutputIsShift(stage2: int)
    requires InState(stage2)
    ensures LowpassOutput(stage2) == stage2 / STATE_SHIFT_SCALE
  {
    DivMonotone(stage2, STATE_MAX, STATE_SHIFT_SCALE);
    DivMonotone(STATE_MIN, stage2, STATE_SHIFT_SCALE);
  }

  /**
   * With a cutoff coefficient in [0, 1) an integrator inside the range moves
   * toward its target and never past it, and no int32 narrowing fires.
   */
  lemma IntegrateTowardTarget(stage: int, target: int, g: int)
    requires InState(stage) && InState(target) && 0 <= g < TWO15
    ensures Min(stage, target) <= Integrate(stage, target, g) <= Max(stage, target)
  {
    var d := target - stage;
    FractionOfDifference(d, g);
    assert IsI32(d);
    assert IsI32((g * d) / TWO15);
  }

  /** `ResonantLowpass2P`. */
  class ResonantLowpass2P {
    var stage1: int
    var stage2: int
    var gQ15: int
    var feedbackQ15: int

    ghost predicate Valid()
      reads this
    {
      InState(stage1) && InState(stage2) && IsI16(gQ15) && IsI16(feedbackQ15)
    }

    /**
     * `resonant_lowpass_process`: stage 1 integrates toward the drive, stage 2
     * toward the new stage 1, both stay inside [STATE_MIN, STATE_MAX], and
     * the output is the new stage 2 shifted back.
     */
    method Process(input: int) returns (out: int)
      requires Valid() && IsI16(input)
      modifies this
      ensures Valid()
      ensures stage1 == Integrate(old(stage1), Drive(input, feedbackQ15, old(stage2)), gQ15)
      ensures stage2 == Integrate(old(stage2), stage1, gQ15)
      ensures out == LowpassOutput(stage2) && out == stage2 / STATE_SHIFT_SCALE
      ensures gQ15 == old(gQ15) && feedbackQ15 == old(feedbackQ15)
    {
      var s1, s2 := StageStep(stage1, stage2, gQ15, feedbackQ15, input);
      stage1 := s1;
      stage2 := s2;
      LowpassOutputIsShift(s2);
      out := LowpassOutput(s2);
    }
  }

  /**
   * The clamped integer steps of `resonant_lowpass_process` on local copies
   * of the two stages, before they are written back.
   */
  method StageStep(stage1: int, stage2: int, g: int, feedback: int, input: int)
    returns (s1: int, s2: int)
    requires IsI16(input)
    ensures s1 == Integrate(stage1, Drive(input, feedback, stage2), g)
    ensures s2 == Integrate(stage2, s1, g)
  {
    var inScaled := input * STATE_SHIFT_SCALE;
    var fb := Q15Scale(feedback, stage2);
    var drive := ClampStep(I32(inScaled - fb));
    s1 := IntegrateStep(stage1, drive, g);
    s2 := IntegrateStep(stage2, s1, g);
  }

  /** One integrator update with the source's two clamping `if`s. */
  method IntegrateStep(stage: int, target: int, g: int) returns (s: int)
    ensures s == Integrate(stage, target, g)
  {
    var delta := I32(target - stage);
    s := ClampStep(I32(stage + Q15Scale(g, delta)));
  }

  /** The two clamping `if`s the source repeats after every step. */
  method ClampStep(x: int) returns (r: int)
    ensures r == ClampState(x)
  {
    r := x;
    if r > STATE_MAX { r := STATE_MAX; }
    if r < STATE_MIN { r := STATE_MIN; }
  }

  /** With g = 0 a `Process` call leaves both stages where they were, for any input. */
  lemma ZeroCutoffFreezesState(stage1: int, stage2: int, feedback: int, input: int)
    requires InState(stage1) && InState(stage2)
    ensures Integrate(stage1, Drive(input, feedback, stage2), 0) == stage1
    ensures Integrate(stage2, stage1, 0) == stage2
  {
    IntegrateZeroCutoff(stage1, Drive(input, feedback, stage2));
    IntegrateZeroCutoff(stage2, stage1);
  }

  lemma IntegrateZeroCutoff(stage: int, target: int)
    requires InState(stage)
    ensures Integrate(stage, target, 0) == stage
  {
    assert Q15Scale(0, I32(target - stage)) == 0;
  }
}

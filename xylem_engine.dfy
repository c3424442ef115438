/**
 * Xylem's audio engine: one sine voice read from the interpolated table,
 * scaled by its amplitude, then the context effects (a precision
 * quantiser and a pace-driven tremolo with its own phase), and the
 * conversion of each Q15 sample to a 12-bit PWM duty. The engine has an
 * initialised and a running flag; a stopped engine renders the centre
 * duty. The voice's float increment, the serial messages and the DMA
 * buffer hand-off are outside the model: the increment is a parameter,
 * and so are the output buffer and the callback flag.
 */
module XylemEngine {
  import opened IntArith
  import opened FixedPoint
  import opened SineTable
  import opened ContextParams

  /** `AUDIO_ENGINE_CENTER_VALUE`: the duty written while stopped. */
  const CENTER_VALUE: int := 2047
  /** `AUDIO_BLOCK_SIZE`: the block the callback renders. */
  const AUDIO_BLOCK_SIZE: int := 16
  /** The test tone's amplitude and full envelope. */
  const TEST_AMPLITUDE: int := 16383
  const FULL_ENVELOPE: int := 32767

  /** `q15_to_pwm_u`: offset binary times `PWM_RESOLUTION - 1`, shifted down by 16, without rounding. */
  function PwmOf(sample: int): (r: int)
    requires IsI16(sample)
    ensures 0 <= r <= 4094
  {
    DivBound(OffsetBinary(sample) * 4095, TWO16, 4095);
    (OffsetBinary(sample) * 4095) / TWO16
  }

  /** The duty grows with the sample, from 0 to 4094, and silence is the centre duty. */
  lemma PwmShape(a: int, b: int)
    requires IsI16(a) && IsI16(b) && a <= b
    ensures PwmOf(a) <= PwmOf(b)
    ensures PwmOf(-TWO15) == 0 && PwmOf(0) == CENTER_VALUE && PwmOf(TWO15 - 1) == 4094
  {
    DivMonotone(OffsetBinary(a) * 4095, OffsetBinary(b) * 4095, TWO16);
  }

  /** `(precision * 32767) / 255`: a Q15 factor that reaches one exactly at 255. */
  function PrecisionFactor(precision: int): (f: int)
    requires IsU8(precision)
    ensures 0 <= f <= 32767
    ensures f < 32767 <==> precision < 255
  {
    PrecisionFactorBounds(precision);
    (precision * 32767) / 255
  }

  lemma PrecisionFactorBounds(precision: int)
    requires IsU8(precision)
    ensures 0 <= (precision * 32767) / 255 <= 32767
    ensures (precision * 32767) / 255 < 32767 <==> precision < 255
  {
    DivBound(precision * 32767, 255, 32768);
    if precision < 255 {
      DivMonotone(precision * 32767, 254 * 32767, 255);
    }
  }

  /** The precision quantiser: the sample times the factor, shifted by 15, and left alone at full precision. */
  function Quantize(sample: int, precision: int): (r: int)
    requires IsI16(sample) && IsU8(precision)
    ensures IsI16(r)
  {
    var f := PrecisionFactor(precision);
    if f < 32767 then QuantizeBounds(sample, f); sample * f / TWO15 else sample
  }

  lemma QuantizeBounds(sample: int, f: int)
    requires IsI16(sample) && 0 <= f < 32767
    ensures sample >= 0 ==> 0 <= sample * f / TWO15 <= sample
    ensures sample < 0 ==> sample <= sample * f / TWO15 <= 0
  {
    FractionBetween(sample, f, TWO15);
  }

  /** The quantiser never amplifies and never flips the sign; precision 255 is the identity and 0 silences. */
  lemma QuantizeShrinks(sample: int, precision: int)
    requires IsI16(sample) && IsU8(precision)
    ensures Abs(Quantize(sample, precision)) <= Abs(sample)
    ensures sample >= 0 ==> Quantize(sample, precision) >= 0
    ensures sample <= 0 ==> Quantize(sample, precision) <= 0
    ensures precision == 255 ==> Quantize(sample, precision) == sample
    ensures precision == 0 ==> Quantize(sample, precision) == 0
  {
    if PrecisionFactor(precision) < 32767 {
      QuantizeBounds(sample, PrecisionFactor(precision));
    }
  }

  /** `(pace * 32767) / 255`: the tremolo depth as a Q15 factor. */
  function PaceFactor(pace: int): (f: int)
    requires IsU8(pace)
    ensures 0 <= f <= 32767
  {
    DivBound(pace * 32767, 255, 32768);
    (pace * 32767) / 255
  }

  /** `(pace_factor >> 8) + 1`: the tremolo phase always moves, by at most 128. */
  function TremoloInc(pace: int): (inc: int)
    requires IsU8(pace)
    ensures 1 <= inc <= 128
  {
    DivBound(PaceFactor(pace), 256, 128);
    PaceFactor(pace) / 256 + 1
  }

  /** `(tremolo * pace_factor) >> 15`: the sine scaled by the depth, an exact int16. */
  function TremoloDepth(sine: int, paceFactor: int): (d: int)
    requires IsI16(sine) && 0 <= paceFactor <= 32767
    ensures IsI16(d)
  {
    DepthBounds(sine, paceFactor);
    sine * paceFactor / TWO15
  }

  lemma DepthBounds(sine: int, paceFactor: int)
    requires IsI16(sine) && 0 <= paceFactor <= 32767
    ensures IsI16(sine * paceFactor / TWO15)
  {
    FractionBetween(sine, paceFactor, TWO15);
  }

  /** Line 111 as written: `32767 + (tremolo >> 3)` stored back into an int16, so congruent to it modulo 2^16. */
  function TremoloGainAsWritten(depth: int): (g: int)
    ensures IsI16(g) && (g - (32767 + depth / 8)) % TWO16 == 0
  {
    I16(32767 + depth / 8)
  }

  /** Line 114 and 115 as written: the product shifted by 15, narrowed to int16. */
  function ApplyTremoloAsWritten(sample: int, gain: int): (r: int)
    ensures IsI16(r) && (r - sample * gain / TWO15) % TWO16 == 0
  {
    I16(sample * gain / TWO15)
  }

  /** As written, any depth of 8 or more wraps the gain negative, so the tremolo inverts the sample. */
  lemma TremoloGainWrapsNegative(depth: int)
    requires 8 <= depth < TWO15
    ensures TremoloGainAsWritten(depth) < 0
  {
    DivBound(depth, 8, 4096);
  }

  /**
   * At pace 255 and a table entry of 32767 the depth is 32766, the gain
   * as written is -28674 instead of 36862, and a sample of 16384 comes out
   * as -14337 where the intended gain gives 18431.
   */
  lemma FullPaceInvertsSample()
    ensures PaceFactor(255) == 32767
    ensures TremoloDepth(32767, 32767) == 32766
    ensures TremoloGainAsWritten(32766) == -28674
    ensures ApplyTremoloAsWritten(16384, -28674) == -14337
    ensures TremoloGain(32766) == 36862 && ApplyTremolo(16384, 36862) == 18431
  {
  }

  /** The intended gain: one (32767) plus an eighth of the depth, kept in int32. */
  function TremoloGain(depth: int): (g: int)
    requires IsI16(depth)
    ensures 28671 <= g <= 36862
  {
    32767 + depth / 8
  }

  /** The intended product: the gain applied and the result saturated to int16. */
  function ApplyTremolo(sample: int, gain: int): (r: int)
    ensures IsI16(r)
  {
    Sat16(sample * gain / TWO15)
  }

  /**
   * With the intended gain the tremolo keeps the sample's sign and
   * changes its size by at most an eighth, ignoring rounding down.
   */
  lemma TremoloKeepsSign(sample: int, depth: int)
    requires IsI16(sample) && IsI16(depth)
    ensures var r := ApplyTremolo(sample, TremoloGain(depth));
      (sample >= 0 ==> 0 <= r <= sample * 9 / 8)
      && (sample <= 0 ==> sample * 9 / 8 <= r <= 0)
  {
    var g := TremoloGain(depth);
    if sample >= 0 {
      GainBoundsUp(sample, g);
    } else {
      GainBoundsDown(sample, g);
    }
  }

  lemma GainBoundsUp(sample: int, g: int)
    requires 0 <= sample < TWO15 && 0 < g <= 36864
    ensures 0 <= sample * g / TWO15 <= sample * 9 / 8
  {
    MulLe(g, 36864, sample);
    DivMonotone(sample * g, sample * 36864, TWO15);
    DivMonotone(0, sample * g, TWO15);
    DivDiv(sample * 36864, 4096, 8);
  }

  lemma GainBoundsDown(sample: int, g: int)
    requires -TWO15 <= sample < 0 && 0 < g <= 36864
    ensures sample * 9 / 8 <= sample * g / TWO15 <= 0
  {
    MulLe(g, 36864, -sample);
    DivMonotone(sample * 36864, sample * g, TWO15);
    DivMonotone(sample * g, 0, TWO15);
    DivDiv(sample * 36864, 4096, 8);
  }

  /**
   * `apply_context_effects`: quantise, advance the tremolo phase, read
   * the sine at the new phase, and apply the gain; the new sample and the
   * new tremolo phase.
   */
  function Effects(sample: int, p: Params, tremoloPhase: int, table: seq<int>): (r: (int, int))
    requires IsI16(sample) && ParamsOk(p) && IsU32(tremoloPhase) && TableOk(table)
    ensures IsI16(r.0) && r.1 == U32(tremoloPhase + TremoloInc(p.pace))
  {
    var q := Quantize(sample, p.precision);
    var phase := U32(tremoloPhase + TremoloInc(p.pace));
    var depth := TremoloDepth(InterpSine(table, phase), PaceFactor(p.pace));
    (ApplyTremolo(q, TremoloGain(depth)), phase)
  }

  /** Silence stays silence through the effects. */
  lemma EffectsKeepSilence(p: Params, tremoloPhase: int, table: seq<int>)
    requires ParamsOk(p) && IsU32(tremoloPhase) && TableOk(table)
    ensures Effects(0, p, tremoloPhase, table).0 == 0
  {
    QuantizeShrinks(0, p.precision);
  }

  /** The voice: phase and increment in Q0.32, amplitude and envelope in Q1.15. */
  datatype Voice = Voice(phase: int, inc: int, ampCur: int, env: int, active: bool)

  predicate VoiceOk(v: Voice)
  {
    IsU32(v.phase) && IsU32(v.inc) && IsI16(v.ampCur) && IsI16(v.env)
  }

  /** What the render loop carries from sample to sample. */
  datatype RenderState = RenderState(voice: Voice, tremoloPhase: int)

  predicate RenderStateOk(s: RenderState)
  {
    VoiceOk(s.voice) && IsU32(s.tremoloPhase)
  }

  /** The voice's raw sample: the sine at its phase times its amplitude, or 0 when inactive. */
  function VoiceSample(v: Voice, table: seq<int>): (r: int)
    requires VoiceOk(v) && TableOk(table)
    ensures IsI16(r) && (!v.active ==> r == 0)
  {
    if v.active then I16(InterpSine(table, v.phase) * v.ampCur / TWO15) else 0
  }

  /** `v0.phase += v0.inc` for an active voice. */
  function Advance(v: Voice): Voice
  {
    if v.active then v.(phase := U32(v.phase + v.inc)) else v
  }

  /** An active voice `n` increments on, modulo 2^32; an inactive one unchanged. */
  function VoiceAfter(v: Voice, n: nat): (r: Voice)
    ensures !v.active ==> r == v
    ensures v.active ==> r == v.(phase := r.phase) && IsU32(r.phase) && (r.phase - (v.phase + n * v.inc)) % TWO32 == 0
  {
    if v.active then v.(phase := U32(v.phase + n * v.inc)) else v
  }

  lemma VoiceAfterStep(v: Voice, n: nat)
    requires IsU32(v.phase)
    ensures VoiceAfter(v, 0) == v
    ensures VoiceAfter(v, n + 1) == Advance(VoiceAfter(v, n))
  {
    if v.active {
      PhaseStep(v.phase, v.inc, n);
    }
  }

  /** One slot of `ae_render_block`'s loop: the duty written and the state after it. */
  function SampleStep(s: RenderState, p: Params, table: seq<int>): (r: (int, RenderState))
    requires RenderStateOk(s) && ParamsOk(p) && TableOk(table)
    ensures RenderStateOk(r.1) && 0 <= r.0 <= 4094
    ensures r.1.voice == Advance(s.voice)
  {
    var x := VoiceSample(s.voice, table);
    var v := Advance(s.voice);
    var fx := Effects(x, p, s.tremoloPhase, table);
    (PwmOf(fx.0), RenderState(v, fx.1))
  }

  /** The first `n` duties of a running block and the state after them. */
  function Block(s: RenderState, p: Params, table: seq<int>, n: nat): (r: (seq<int>, RenderState))
    requires RenderStateOk(s) && ParamsOk(p) && TableOk(table)
    ensures |r.0| == n && RenderStateOk(r.1)
    ensures forall i :: 0 <= i < n ==> 0 <= r.0[i] <= 4094
  {
    if n == 0 then ([], s)
    else
      var prev := Block(s, p, table, n - 1);
      var step := SampleStep(prev.1, p, table);
      (prev.0 + [step.0], step.1)
  }

  /**
   * Over a block of `n` samples an active voice's phase advances by `inc`
   * `n` times modulo 2^32, an inactive one stays put, and the tremolo
   * phase advances by its increment once per sample.
   */
  lemma BlockAdvancesPhases(s: RenderState, p: Params, table: seq<int>, n: nat)
    requires RenderStateOk(s) && ParamsOk(p) && TableOk(table)
    ensures var e := Block(s, p, table, n).1;
      e.voice == VoiceAfter(s.voice, n)
      && e.tremoloPhase == U32(s.tremoloPhase + n * TremoloInc(p.pace))
  {
    BlockAdvancesVoice(s, p, table, n);
    BlockAdvancesTremolo(s, p, table, n);
  }

  lemma {:induction false} BlockAdvancesVoice(s: RenderState, p: Params, table: seq<int>, n: nat)
    requires RenderStateOk(s) && ParamsOk(p) && TableOk(table)
    ensures Block(s, p, table, n).1.voice == VoiceAfter(s.voice, n)
  {
    if n > 0 {
      BlockAdvancesVoice(s, p, table, n - 1);
      VoiceAfterStep(s.voice, n - 1);
    } else {
      VoiceAfterStep(s.voice, 0);
    }
  }

  /** One more step of `inc` on a phase already advanced `k` times. */
  lemma PhaseStep(phase: int, inc: int, k: nat)
    ensures U32(U32(phase + k * inc) + inc) == U32(phase + (k + 1) * inc)
  {
    ModAddReduce(phase + k * inc, inc);
    assert phase + k * inc + inc == phase + (k + 1) * inc;
  }

  lemma {:induction false} BlockAdvancesTremolo(s: RenderState, p: Params, table: seq<int>, n: nat)
    requires RenderStateOk(s) && ParamsOk(p) && TableOk(table)
    ensures Block(s, p, table, n).1.tremoloPhase == U32(s.tremoloPhase + n * TremoloInc(p.pace))
  {
    var inc := TremoloInc(p.pace);
    if n > 0 {
      BlockAdvancesTremolo(s, p, table, n - 1);
      ModAddReduce(s.tremoloPhase + (n - 1) * inc, inc);
      assert s.tremoloPhase + (n - 1) * inc + inc == s.tremoloPhase + n * inc;
    }
  }

  /** `U32(U32(x) + y) == U32(x + y)`. */
  lemma ModAddReduce(x: int, y: int)
    ensures U32(U32(x) + y) == U32(x + y)
  {
    DivModUnique(U32(x) + y, TWO32, (x + y) / TWO32 - x / TWO32, U32(x + y));
  }

  /** With an inactive voice every duty of a running block is the centre duty, as when stopped. */
  lemma {:induction false} InactiveVoiceRendersCentre(s: RenderState, p: Params, table: seq<int>, n: nat)
    requires RenderStateOk(s) && ParamsOk(p) && TableOk(table) && !s.voice.active
    ensures forall i :: 0 <= i < n ==> Block(s, p, table, n).0[i] == CENTER_VALUE
  {
    if n > 0 {
      InactiveVoiceRendersCentre(s, p, table, n - 1);
      BlockAdvancesVoice(s, p, table, n - 1);
      InactiveStepIsCentre(Block(s, p, table, n - 1).1, p, table);
    }
  }

  lemma InactiveStepIsCentre(m: RenderState, p: Params, table: seq<int>)
    requires RenderStateOk(m) && ParamsOk(p) && TableOk(table) && !m.voice.active
    ensures SampleStep(m, p, table).0 == CENTER_VALUE
  {
    EffectsKeepSilence(p, m.tremoloPhase, table);
    PwmShape(0, 0);
  }

  /** The engine's statics, the voice `v0` and the tremolo phase. */
  class Engine {
    var running: bool
    var initialized: bool
    var v0: Voice
    var tremoloPhase: int

    predicate Valid()
      reads this
    {
      RenderStateOk(RenderState(v0, tremoloPhase)) && (running ==> initialized)
    }

    /** The statics at power-up: uninitialised, stopped, an all-zero voice. */
    constructor()
      ensures Valid() && !running && !initialized && v0 == Voice(0, 0, 0, 0, false) && tremoloPhase == 0
    {
      running := false;
      initialized := false;
      v0 := Voice(0, 0, 0, 0, false);
      tremoloPhase := 0;
    }

    /** `audioEngineInit`: the first call initialises and stops; later calls change nothing. */
    method Init() returns (ok: bool)
      requires Valid()
      modifies this
      ensures Valid() && ok && initialized
      ensures old(initialized) ==> unchanged(this)
      ensures !old(initialized) ==> !running && v0 == old(v0) && tremoloPhase == old(tremoloPhase)
    {
      if initialized {
        return true;
      }
      running := false;
      initialized := true;
      return true;
    }

    /** `audioEngineIsRunning`. */
    method IsRunning() returns (r: bool)
      ensures r == running
    {
      return running;
    }

    /**
     * `audioEngineStart`: without `audioEngineInit` nothing changes;
     * otherwise the test voice starts at phase 0 with the given increment
     * (the float `440 · 2^32 / audio_rate`, truncated) and the engine runs.
     */
    method Start(inc: int)
      requires Valid() && IsU32(inc)
      modifies this
      ensures Valid()
      ensures !old(initialized) ==> unchanged(this)
      ensures old(initialized) ==> (running && initialized && tremoloPhase == old(tremoloPhase)
        && v0 == Voice(0, inc, TEST_AMPLITUDE, FULL_ENVELOPE, true))
    {
      if !initialized {
        return;
      }
      v0 := Voice(0, inc, TEST_AMPLITUDE, FULL_ENVELOPE, true);
      running := true;
    }

    /** `audioEngineStop`: the voice goes inactive and the engine stops. */
    method Stop()
      requires Valid()
      modifies this
      ensures Valid() && !running && initialized == old(initialized)
      ensures v0 == old(v0).(active := false) && tremoloPhase == old(tremoloPhase)
    {
      v0 := v0.(active := false);
      running := false;
    }

    /**
     * `ae_render_block`: nothing without initialisation or a buffer; the
     * centre duty in every slot while stopped; otherwise the block of
     * duties, with the voice and tremolo advanced as `Block` says.
     */
    method RenderBlock(out: array?<int>, blockSize: int, p: Params, table: seq<int>)
      requires Valid() && IsU16(blockSize) && ParamsOk(p) && TableOk(table)
      requires out != null ==> blockSize <= out.Length
      modifies this, out
      ensures Valid() && running == old(running) && initialized == old(initialized)
      ensures !old(initialized) || out == null ==> unchanged(this) && (out != null ==> unchanged(out))
      ensures old(initialized) && out != null && !old(running) ==>
        unchanged(this) && out[..blockSize] == seq(blockSize, _ => CENTER_VALUE)
        && out[blockSize..] == old(out[blockSize..])
      ensures old(initialized) && out != null && old(running) ==>
        var (duties, s) := Block(RenderState(old(v0), old(tremoloPhase)), p, table, blockSize);
        out[..blockSize] == duties && out[blockSize..] == old(out[blockSize..])
        && v0 == s.voice && tremoloPhase == s.tremoloPhase
    {
      if !initialized || out == null {
        return;
      }
      if !running {
        FillCentre(out, blockSize);
        return;
      }
      var s := RenderState(v0, tremoloPhase);
      RenderInto(out, blockSize, s, p, table);
      var (_, e) := Block(s, p, table, blockSize);
      v0 := e.voice;
      tremoloPhase := e.tremoloPhase;
    }

    /**
     * `audioEngineProcessCallback`: when the DMA flag is set it is
     * cleared and, given a buffer, one `AUDIO_BLOCK_SIZE` block rendered.
     */
    method ProcessCallback(flag: bool, buffer: array?<int>, p: Params, table: seq<int>) returns (flagAfter: bool)
      requires Valid() && ParamsOk(p) && TableOk(table)
      requires buffer != null ==> AUDIO_BLOCK_SIZE <= buffer.Length
      modifies this, buffer
      ensures Valid() && !flagAfter && running == old(running) && initialized == old(initialized)
      ensures !flag || buffer == null ==> unchanged(this) && (buffer != null ==> unchanged(buffer))
      ensures flag && buffer != null && !old(initialized) ==> unchanged(this) && unchanged(buffer)
      ensures flag && buffer != null && old(initialized) && !old(running) ==>
        unchanged(this) && buffer[..AUDIO_BLOCK_SIZE] == seq(AUDIO_BLOCK_SIZE, _ => CENTER_VALUE)
      ensures flag && buffer != null && old(initialized) && old(running) ==>
        var (duties, s) := Block(RenderState(old(v0), old(tremoloPhase)), p, table, AUDIO_BLOCK_SIZE);
        buffer[..AUDIO_BLOCK_SIZE] == duties && v0 == s.voice && tremoloPhase == s.tremoloPhase
      ensures buffer != null ==> buffer[AUDIO_BLOCK_SIZE..] == old(buffer[AUDIO_BLOCK_SIZE..])
    {
      if flag && buffer != null {
        RenderBlock(buffer, AUDIO_BLOCK_SIZE, p, table);
      }
      return false;
    }
  }

  /** The stopped branch's loop: the centre duty in the first `n` slots. */
  method FillCentre(out: array<int>, n: int)
    requires 0 <= n <= out.Length
    modifies out
    ensures out[..n] == seq(n, _ => CENTER_VALUE) && out[n..] == old(out[n..])
  {
    for i := 0 to n
      invariant out[..i] == seq(i, _ => CENTER_VALUE) && out[n..] == old(out[n..])
    {
      out[i] := CENTER_VALUE;
    }
  }

  /** The running branch's loop, on a local copy of the voice and tremolo state. */
  method RenderInto(out: array<int>, n: int, start: RenderState, p: Params, table: seq<int>)
    requires 0 <= n <= out.Length && RenderStateOk(start) && ParamsOk(p) && TableOk(table)
    modifies out
    ensures out[..n] == Block(start, p, table, n).0 && out[n..] == old(out[n..])
  {
    var s := start;
    for i := 0 to n
      invariant RenderStateOk(s)
      invariant (out[..i], s) == Block(start, p, table, i)
      invariant out[n..] == old(out[n..])
    {
      var (pwm, s2) := SampleStep(s, p, table);
      out[i] := pwm;
      assert out[..i + 1] == out[..i] + [pwm];
      s := s2;
    }
  }
}

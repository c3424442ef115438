/**
 * The horde firmware's audio engine: white noise from a linear congruential
 * generator drives six resonant band-pass voices tuned to the current glyph's
 * chord; their gain-weighted sum is normalised and written to the PWM buffer.
 * The floating-point parts are inputs of the model: filter coefficient
 * design, voice leading, per-voice gains, the normalisation gain and the
 * feedback knob's shaping all arrive as values. The integer logic around
 * them is modelled as the source writes it.
 *
 * Every method of `HordeEngine` is proved against a function on the value
 * `EngineState`; the properties are lemmas about those functions.
 */
module HordeEngine {
  import opened IntArith
  import opened FixedPoint
  import opened ResonantBandpass
  import opened HexGlyph

  /** kVoiceCount. */
  const VOICES: int := 6
  /** Samples per rendered block (AUDIO_BLOCK_SIZE of this firmware's DACless driver). */
  const BLOCK_SIZE: int := 16
  const NOISE_SEED: int := 12345
  const GLYPH_COUNT: int := 3

  // ---------------------------------------------------------------- glyphs

  datatype GlyphEntry = GlyphEntry(mask: bv32, name: string, rootSemitone: int)

  /** The glyph playlist: D minor, B-flat major, G major. */
  const GLYPHS: seq<GlyphEntry> := [GlyphEntry(0x089, "Dm", 2), GlyphEntry(0x091, "Bb", 10), GlyphEntry(0x091, "G", 7)]

  /** `ae_current_glyph_name`: the label is empty exactly when the index is outside the playlist. */
  function GlyphName(g: int): (name: string)
    ensures name == "" <==> !(0 <= g < GLYPH_COUNT)
    ensures 0 <= g < GLYPH_COUNT ==> name == GLYPHS[g].name
  {
    if g < 0 || g >= GLYPH_COUNT then "" else GLYPHS[g].name
  }

  function NextGlyphIndex(g: int): (n: int)
  {
    (g + 1) % GLYPH_COUNT
  }

  /** `ae_next_glyph` cycles through the playlist: three steps return to the start and visit every glyph. */
  lemma GlyphCycle(g: int)
    requires 0 <= g < GLYPH_COUNT
    ensures 0 <= NextGlyphIndex(g) < GLYPH_COUNT
    ensures NextGlyphIndex(NextGlyphIndex(NextGlyphIndex(g))) == g
    ensures {g, NextGlyphIndex(g), NextGlyphIndex(NextGlyphIndex(g))} == {0, 1, 2}
  {
  }

  // ----------------------------------------------------------------- noise

  /** One step of the noise generator, modulo 2^32. */
  function LcgNext(s: int): (t: int)
    requires IsU32(s)
    ensures IsU32(t)
  {
    U32(s * 1103515245 + 12345)
  }

  /** `generate_noise_sample`'s output for the new state: the high half with bit 15 flipped, as int16. */
  function NoiseOf(s: int): (x: int)
    requires IsU32(s)
    ensures IsI16(x)
  {
    var hi := s / TWO16;
    var flipped := if hi >= 0x8000 then hi - 0x8000 else hi + 0x8000;
    I16(flipped)
  }

  /** The sample is the high half of the state moved to be centred on zero. */
  lemma NoiseIsCentredHighHalf(s: int)
    requires IsU32(s)
    ensures NoiseOf(s) == s / TWO16 - 0x8000
  {
    DivMonotone(s, TWO32 - 1, TWO16);
  }

  function LcgIter(s: int, n: nat): (t: int)
    requires IsU32(s)
    ensures IsU32(t)
  {
    if n == 0 then s else LcgNext(LcgIter(s, n - 1))
  }

  // ---------------------------------------------------------------- mixing

  predicate AllOk(fs: seq<BandpassState>)
  {
    forall j :: 0 <= j < |fs| ==> StateOk(fs[j])
  }

  predicate GainsOk(gs: seq<int>)
  {
    forall j :: 0 <= j < |gs| ==> IsU16(gs[j])
  }

  /** One voice's contribution: `(voice·gain + 16384) >> 15` through int64, narrowed to int32. */
  function Weighted(vs: int, gain: int): int
  {
    I32(I64(vs * gain + 16384) / TWO15)
  }

  /** No narrowing in `Weighted` fires: it is the rounded product, within ±65535. */
  lemma WeightedIsRounded(vs: int, gain: int)
    requires IsI16(vs) && IsU16(gain)
    ensures Weighted(vs, gain) == (vs * gain + 16384) / TWO15
    ensures -65535 <= Weighted(vs, gain) <= 65535
  {
    var p := vs * gain;
    MulMono(Abs(vs), gain, TWO15, TWO16 - 1);
    assert Abs(p) == Abs(vs) * gain;
    DivMonotone(p + 16384, TWO15 * (TWO16 - 1) + 16384, TWO15);
    DivMonotone(-(TWO15 * (TWO16 - 1)) + 16384, p + 16384, TWO15);
  }

  /** A filter after one sample: new integrator states, same coefficients. */
  function StepFilter(f: BandpassState, x: int): (r: BandpassState)
    requires StateOk(f) && IsI16(x)
    ensures StateOk(r)
  {
    var res := BandpassStep(f, x);
    f.(ic1 := res.ic1, ic2 := res.ic2)
  }

  /** The first n voices each stepped on the same noise sample; the rest untouched. */
  function StepVoices(fs: seq<BandpassState>, n: int, x: int): (r: seq<BandpassState>)
    requires AllOk(fs) && IsI16(x)
    ensures |r| == |fs| && AllOk(r)
  {
    seq(|fs|, j requires 0 <= j < |fs| => if j < n then StepFilter(fs[j], x) else fs[j])
  }

  /**
   * The accumulator after the first n voices. It is the plain sum, since it
   * stays within n·65535 and so within int32 for six voices.
   */
  function MixSum(fs: seq<BandpassState>, gains: seq<int>, n: nat, x: int): (acc: int)
    requires n <= |fs| && n <= |gains| && AllOk(fs) && GainsOk(gains) && IsI16(x)
    ensures Abs(acc) <= n * 65535
  {
    if n == 0 then 0
    else
      var w := Weighted(BandpassStep(fs[n - 1], x).out, gains[n - 1]);
      WeightedIsRounded(BandpassStep(fs[n - 1], x).out, gains[n - 1]);
      MixSum(fs, gains, n - 1, x) + w
  }

  /** The normalised mix: `(accum·norm + 16384) >> 15` through int64, narrowed to int32, saturated. */
  function Normalized(acc: int, norm: int): (y: int)
    ensures IsI16(y)
  {
    SatQ15(I32(I64(acc * norm + 16384) / TWO15))
  }

  /** One PWM output: the midpoint with no active voice, else the normalised mix. */
  function SampleOut(active: int, acc: int, norm: int): (pwm: int)
    ensures 0 <= pwm <= 4095
    ensures active == 0 ==> pwm == 2048
  {
    Q15ToPwmEndpoints();
    if active == 0 then Q15ToPwm(0) else Q15ToPwm(Normalized(acc, norm))
  }

  // ---------------------------------------------------------- engine state

  /** The engine's integer state; the float fields are left out. */
  datatype EngineState = EngineState(
    filters: seq<BandpassState>,
    gains: seq<int>,
    active: int,
    norm: int,
    noise: int,
    fuv: int,
    inited: bool,
    dirty: bool,
    glyph: int,
    octave: int)

  predicate EngineOk(e: EngineState)
  {
    |e.filters| == VOICES && |e.gains| == VOICES && AllOk(e.filters) && GainsOk(e.gains)
    && 0 <= e.active <= VOICES && IsI16(e.norm) && IsU32(e.noise) && 0 <= e.fuv < VOICES
    && 0 <= e.glyph < GLYPH_COUNT && -2 <= e.octave <= 2
  }

  const ZERO_FILTER: BandpassState := BandpassState(0, 0, 0, 0, 0, 0)

  /** The static initial values. */
  function InitialEngine(): (e: EngineState)
    ensures EngineOk(e)
  {
    EngineState(seq(VOICES, _ => ZERO_FILTER), seq(VOICES, _ => 0), 0, 32767, NOISE_SEED, 0, false, true, 0, 0)
  }

  /** Coefficients produced by the float design code (cutoff, Q, gain lookup). */
  datatype Tuning = Tuning(g: int, h: int, r: int, gain: int)

  predicate TuningOk(t: Tuning)
  {
    IsI32(t.g) && IsI32(t.h) && IsI32(t.r) && IsU16(t.gain)
  }

  /** `resonant_bandpass_init`: cleared integrators and freshly designed coefficients. */
  function InitFilter(t: Tuning): (f: BandpassState)
    requires TuningOk(t)
    ensures StateOk(f) && f.ic1 == 0 && f.ic2 == 0
  {
    BandpassState(0, 0, t.g, t.h, t.r, t.gain)
  }

  /** `resonant_bandpass_set_cutoff` then `_set_feedback_q15`: every coefficient replaced, state kept. */
  function Tune(f: BandpassState, t: Tuning): (r: BandpassState)
    requires StateOk(f) && TuningOk(t)
    ensures StateOk(r) && r.ic1 == f.ic1 && r.ic2 == f.ic2
  {
    f.(g := t.g, h := t.h, r := t.r, gain := t.gain)
  }

  function TuneIf(f: BandpassState, t: Tuning, active: bool): (r: BandpassState)
    requires StateOk(f) && TuningOk(t)
    ensures StateOk(r)
  {
    if active then Tune(f, t) else f
  }

  predicate TuningsOk(ts: seq<Tuning>)
  {
    |ts| == VOICES && forall v :: 0 <= v < VOICES ==> TuningOk(ts[v])
  }

  /** The refresh loop over the filters: the first `count` voices retuned, the rest untouched. */
  function TuneVoices(fs: seq<BandpassState>, ts: seq<Tuning>, count: int): (r: seq<BandpassState>)
    requires |fs| == VOICES && AllOk(fs) && TuningsOk(ts)
    ensures |r| == VOICES && AllOk(r)
  {
    seq(VOICES, v requires 0 <= v < VOICES => TuneIf(fs[v], ts[v], v < count))
  }

  /** The gain table of a refresh before the fallback: the designed gains of the first `count` voices, zero after. */
  function ActiveGains(gs: seq<int>, count: int): (r: seq<int>)
    requires |gs| == VOICES && GainsOk(gs)
    ensures |r| == VOICES && GainsOk(r)
  {
    seq(VOICES, v requires 0 <= v < VOICES => if v < count then gs[v] else 0)
  }

  /** `resonant_bandpass_set_feedback_q15`: new r (from the feedback table), h and gain compensation. */
  datatype Retune = Retune(h: int, r: int, gain: int)

  predicate RetuneOk(t: Retune)
  {
    IsI32(t.h) && IsI32(t.r) && IsU16(t.gain)
  }

  function RetuneFilter(f: BandpassState, t: Retune): (r: BandpassState)
    requires StateOk(f) && RetuneOk(t)
    ensures StateOk(r) && r.ic1 == f.ic1 && r.ic2 == f.ic2 && r.g == f.g
  {
    f.(h := t.h, r := t.r, gain := t.gain)
  }

  // ------------------------------------------------------------ operations

  /** `ae_reset_noise_filter`: the first call initialises and marks the parameters dirty; later calls clear state and mute. */
  function ResetSpec(e: EngineState, initial: Tuning, lookedUp: seq<int>): (r: EngineState)
    requires EngineOk(e) && TuningOk(initial) && |lookedUp| == VOICES && GainsOk(lookedUp)
    ensures EngineOk(r) && r.inited
  {
    if !e.inited then
      e.(filters := seq(VOICES, _ => InitFilter(initial)), inited := true, dirty := true)
    else
      e.(filters := seq(VOICES, v requires 0 <= v < VOICES => e.filters[v].(ic1 := 0, ic2 := 0, gain := lookedUp[v])),
         gains := seq(VOICES, _ => 0),
         active := 0)
  }

  /** The values the float half of `ae_update_noise_filter` produces for one parameter refresh. */
  datatype UpdatePlan = UpdatePlan(initial: Tuning, tunings: seq<Tuning>, gains: seq<int>, norm: int)

  predicate PlanOk(p: UpdatePlan)
  {
    TuningOk(p.initial) && TuningsOk(p.tunings) && |p.gains| == VOICES && GainsOk(p.gains) && IsI16(p.norm)
  }

  /** The voice count `ae_update_noise_filter` uses: the chord's voice count, 1 as a fallback for none, at most six. */
  function GlyphVoiceCount(glyph: int): (n: int)
    requires 0 <= glyph < GLYPH_COUNT
    ensures 1 <= n <= VOICES
  {
    var semis := Semitones(GLYPHS[glyph].mask, VOICES, 0, 1);
    if |semis| == 0 then 1 else VOICES
  }

  /** The weight-sum fallback: with all gains zero, voice 0 gets full gain. */
  function WeightFallback(gs: seq<int>, count: int): (r: seq<int>)
    requires |gs| == VOICES && GainsOk(gs)
    ensures |r| == VOICES && GainsOk(r)
  {
    if SeqSum(gs) == 0 && count > 0 then gs[0 := 32767] else gs
  }

  /** The first-use initialisation at the head of `ae_update_noise_filter`. */
  function InitSpec(e: EngineState, initial: Tuning): (r: EngineState)
    requires EngineOk(e) && TuningOk(initial)
    ensures EngineOk(r) && r.inited
  {
    if e.inited then e else e.(filters := seq(VOICES, _ => InitFilter(initial)), inited := true, dirty := true)
  }

  /**
   * `ae_update_noise_filter`, integer part: initialise on first use; on dirty
   * parameters retune the active voices, zero the unused gains, apply the
   * weight-sum fallback, take the normalisation gain and restart the feedback rotation.
   */
  function UpdateSpec(e: EngineState, p: UpdatePlan): (r: EngineState)
    requires EngineOk(e) && PlanOk(p)
    ensures EngineOk(r) && r.inited && !r.dirty
  {
    var e1 := InitSpec(e, p.initial);
    if !e1.dirty then e1
    else
      var count := GlyphVoiceCount(e1.glyph);
      e1.(filters := TuneVoices(e1.filters, p.tunings, count),
          gains := WeightFallback(ActiveGains(p.gains, count), count),
          active := count, norm := p.norm, fuv := 0, dirty := false)
  }

  /** The two voices retuned in a block whose rotation index is f. */
  function RetunedVoices(f: int): set<int>
  {
    {f % VOICES, (f + 1) % VOICES}
  }

  predicate RetunesOk(rs: seq<Retune>)
  {
    |rs| == 2 && RetuneOk(rs[0]) && RetuneOk(rs[1])
  }

  /** The first i iterations of the retune loop: voice (f + k) mod 6 gets retune k. */
  function RetuneN(fs: seq<BandpassState>, f: int, rs: seq<Retune>, i: nat): (r: seq<BandpassState>)
    requires |fs| == VOICES && AllOk(fs) && RetunesOk(rs) && i <= 2
    ensures |r| == VOICES && AllOk(r)
  {
    if i == 0 then fs
    else
      var prev := RetuneN(fs, f, rs, i - 1);
      var idx := (f + i - 1) % VOICES;
      prev[idx := RetuneFilter(prev[idx], rs[i - 1])]
  }

  /** The feedback retune at the start of `ae_render_block`: two voices, then the index advances by two. */
  function RetuneSpec(e: EngineState, rs: seq<Retune>): (r: EngineState)
    requires EngineOk(e) && RetunesOk(rs)
    ensures EngineOk(r)
  {
    e.(filters := RetuneN(e.filters, e.fuv, rs, 2), fuv := (e.fuv + 2) % VOICES)
  }

  /** One sample of the render loop: advance the noise, step the active voices, mix, normalise, convert. */
  function SampleSpec(e: EngineState): (r: (EngineState, int))
    requires EngineOk(e)
    ensures EngineOk(r.0) && 0 <= r.1 <= 4095
  {
    var noise := LcgNext(e.noise);
    var x := NoiseOf(noise);
    var acc := MixSum(e.filters, e.gains, e.active, x);
    (e.(filters := StepVoices(e.filters, e.active, x), noise := noise), SampleOut(e.active, acc, e.norm))
  }

  /** The first n samples of a block, and the state after them. */
  function RenderSpec(e: EngineState, n: nat): (r: (EngineState, seq<int>))
    requires EngineOk(e)
    ensures EngineOk(r.0) && |r.1| == n
    ensures r.0 == e.(filters := r.0.filters, noise := r.0.noise)
  {
    if n == 0 then (e, [])
    else
      var prev := RenderSpec(e, n - 1);
      var s := SampleSpec(prev.0);
      (s.0, prev.1 + [s.1])
  }

  // ---------------------------------------------------------------- lemmas

  /** Every mask yields at least the root, so the voice count is always six and the fallback to one voice is dead. */
  lemma GlyphsAlwaysSixVoices(glyph: int)
    requires 0 <= glyph < GLYPH_COUNT
    ensures GlyphVoiceCount(glyph) == VOICES
  {
    var m := MaskFrom(GLYPHS[glyph].mask, 0, 1);
    SetBitsBelowSpec(m, 12);
    assert 0 in SetBitsBelow(m, 12);
  }

  /** With clean parameters an update changes nothing; otherwise all six voices are active and the rotation restarts. */
  lemma UpdateEffect(e: EngineState, p: UpdatePlan)
    requires EngineOk(e) && PlanOk(p)
    ensures e.inited && !e.dirty ==> UpdateSpec(e, p) == e
    ensures !e.inited || e.dirty ==>
              var r := UpdateSpec(e, p);
              r.active == VOICES && r.fuv == 0 && r.norm == p.norm
              && r.gains == WeightFallback(p.gains, VOICES)
              && (forall v :: 0 <= v < VOICES ==> r.filters[v].g == p.tunings[v].g && r.filters[v].gain == p.tunings[v].gain)
  {
    if !e.inited || e.dirty {
      var e1 := InitSpec(e, p.initial);
      assert e1.dirty;
      GlyphsAlwaysSixVoices(e1.glyph);
      assert ActiveGains(p.gains, VOICES) == p.gains;
      var fs := TuneVoices(e1.filters, p.tunings, VOICES);
      var r := UpdateSpec(e, p);
      assert r.filters == fs && r.gains == WeightFallback(p.gains, VOICES);
      forall v | 0 <= v < VOICES
        ensures fs[v].g == p.tunings[v].g && fs[v].gain == p.tunings[v].gain
      {
        assert fs[v] == Tune(e1.filters[v], p.tunings[v]);
      }
    }
  }

  lemma {:induction false} SumNonNegativeZero(s: seq<int>)
    requires GainsOk(s)
    ensures SeqSum(s) >= 0
    ensures SeqSum(s) == 0 <==> forall j :: 0 <= j < |s| ==> s[j] == 0
    decreases |s|
  {
    if |s| > 0 {
      var t := s[..|s| - 1];
      assert GainsOk(t);
      SumNonNegativeZero(t);
      assert forall j :: 0 <= j < |t| ==> t[j] == s[j];
    }
  }

  /** The weight-sum fallback gives voice 0 full gain exactly when every gain rounded to zero. */
  lemma WeightFallbackEffect(gs: seq<int>)
    requires |gs| == VOICES && GainsOk(gs)
    ensures (forall v :: 0 <= v < VOICES ==> gs[v] == 0) ==> WeightFallback(gs, VOICES) == gs[0 := 32767]
    ensures (exists v :: 0 <= v < VOICES && gs[v] != 0) ==> WeightFallback(gs, VOICES) == gs
  {
    SumNonNegativeZero(gs);
  }

  /** A feedback retune touches two voices' r, h and gain only; no integrator state and no cutoff coefficient. */
  lemma RetuneTouchesTwoVoices(e: EngineState, rs: seq<Retune>)
    requires EngineOk(e) && RetunesOk(rs)
    ensures var r := RetuneSpec(e, rs);
            (forall v :: 0 <= v < VOICES && v !in RetunedVoices(e.fuv) ==> r.filters[v] == e.filters[v])
            && (forall v :: 0 <= v < VOICES ==>
                  r.filters[v].ic1 == e.filters[v].ic1 && r.filters[v].ic2 == e.filters[v].ic2 && r.filters[v].g == e.filters[v].g)
            && r.fuv == (e.fuv + 2) % VOICES
  {
    assert RetuneN(e.filters, e.fuv, rs, 0) == e.filters;
    var one := RetuneN(e.filters, e.fuv, rs, 1);
    assert (e.fuv + 1 - 1) % VOICES == e.fuv % VOICES;
    assert one == e.filters[e.fuv % VOICES := RetuneFilter(e.filters[e.fuv % VOICES], rs[0])];
    assert RetuneN(e.filters, e.fuv, rs, 2) == one[(e.fuv + 1) % VOICES := RetuneFilter(one[(e.fuv + 1) % VOICES], rs[1])];
  }

  /** Three consecutive blocks retune all six voices and bring the rotation back to where it was. */
  lemma FeedbackRotationCoversAllVoices(f: int)
    requires 0 <= f < VOICES
    ensures RetunedVoices(f) + RetunedVoices((f + 2) % VOICES) + RetunedVoices((f + 4) % VOICES) == {0, 1, 2, 3, 4, 5}
    ensures ((((f + 2) % VOICES) + 2) % VOICES + 2) % VOICES == f
  {
    if f < 2 {
      assert (f + 2) % VOICES == f + 2 && (f + 4) % VOICES == f + 4;
    } else if f < 4 {
      assert (f + 2) % VOICES == f + 2 && (f + 4) % VOICES == f - 2;
    } else {
      assert (f + 2) % VOICES == f - 4 && (f + 4) % VOICES == f - 2;
    }
  }

  /** With no active voice every sample of a block is the PWM midpoint, while the noise generator still advances. */
  lemma {:induction false} SilentWithoutVoices(e: EngineState, n: nat)
    requires EngineOk(e) && e.active == 0
    ensures forall i :: 0 <= i < n ==> RenderSpec(e, n).1[i] == 2048
    ensures RenderSpec(e, n).0.noise == LcgIter(e.noise, n)
    ensures RenderSpec(e, n).0.filters == e.filters
    decreases n
  {
    if n > 0 {
      SilentWithoutVoices(e, n - 1);
      var prev := RenderSpec(e, n - 1);
      assert StepVoices(prev.0.filters, 0, NoiseOf(LcgNext(prev.0.noise))) == prev.0.filters;
    }
  }

  /**
   * A reset after initialisation mutes the engine until a parameter change:
   * without a dirty flag the next block's update leaves the active count at
   * zero, so the whole block is the PWM midpoint.
   */
  lemma ResetMutesUntilParamsChange(e: EngineState, initial: Tuning, lookedUp: seq<int>, p: UpdatePlan, rs: seq<Retune>)
    requires EngineOk(e) && TuningOk(initial) && |lookedUp| == VOICES && GainsOk(lookedUp) && PlanOk(p)
    requires RetunesOk(rs)
    requires e.inited && !e.dirty
    ensures var r := ResetSpec(e, initial, lookedUp);
            r.active == 0 && (forall v :: 0 <= v < VOICES ==> r.gains[v] == 0 && r.filters[v].ic1 == 0 && r.filters[v].ic2 == 0)
    ensures forall i :: 0 <= i < BLOCK_SIZE ==>
              RenderSpec(RetuneSpec(UpdateSpec(ResetSpec(e, initial, lookedUp), p), rs), BLOCK_SIZE).1[i] == 2048
  {
    var r := ResetSpec(e, initial, lookedUp);
    UpdateEffect(r, p);
    SilentWithoutVoices(RetuneSpec(UpdateSpec(r, p), rs), BLOCK_SIZE);
  }

  /** An uninitialised engine's first reset only initialises and arms a parameter refresh. */
  lemma FirstResetInitialises(e: EngineState, initial: Tuning, lookedUp: seq<int>)
    requires EngineOk(e) && TuningOk(initial) && |lookedUp| == VOICES && GainsOk(lookedUp) && !e.inited
    ensures var r := ResetSpec(e, initial, lookedUp);
            r.dirty && r.gains == e.gains && r.active == e.active
            && forall v :: 0 <= v < VOICES ==> r.filters[v] == InitFilter(initial)
  {
  }

  // ----------------------------------------------------------------- class

  /** The engine's statics: the filter bank and gain table are arrays, the rest plain fields. */
  class HordeEngine {
    const filters: array<BandpassState>
    const voiceGain: array<int>
    var activeVoiceCount: int
    var voiceGainNorm: int
    var noiseState: int
    var feedbackUpdateVoice: int
    var noiseFilterInited: bool
    var paramsDirty: bool
    var currentGlyph: int
    var octaveShift: int

    function Snapshot(): EngineState
      reads this, filters, voiceGain
    {
      EngineState(filters[..], voiceGain[..], activeVoiceCount, voiceGainNorm, noiseState,
                  feedbackUpdateVoice, noiseFilterInited, paramsDirty, currentGlyph, octaveShift)
    }

    ghost predicate Valid()
      reads this, filters, voiceGain
    {
      EngineOk(Snapshot())
    }

    constructor()
      ensures Valid() && Snapshot() == InitialEngine()
      ensures fresh(filters) && fresh(voiceGain)
    {
      filters := new BandpassState[VOICES](_ => ZERO_FILTER);
      voiceGain := new int[VOICES](_ => 0);
      activeVoiceCount := 0;
      voiceGainNorm := 32767;
      noiseState := NOISE_SEED;
      feedbackUpdateVoice := 0;
      noiseFilterInited := false;
      paramsDirty := true;
      currentGlyph := 0;
      octaveShift := 0;
    }

    /** `ae_next_glyph`. */
    method NextGlyph()
      requires Valid()
      modifies this
      ensures Valid()
      ensures Snapshot() == old(Snapshot()).(glyph := NextGlyphIndex(old(currentGlyph)), dirty := true)
    {
      currentGlyph := (currentGlyph + 1) % GLYPH_COUNT;
      paramsDirty := true;
    }

    /** `ae_set_octave_shift`. */
    method SetOctaveShift(octaves: int)
      requires Valid()
      modifies this
      ensures Valid()
      ensures Snapshot() == old(Snapshot()).(octave := Clamp(octaves, -2, 2), dirty := true)
    {
      var o := octaves;
      if o < -2 { o := -2; }
      if o > 2 { o := 2; }
      octaveShift := o;
      paramsDirty := true;
    }

    /** `ae_set_noise_filter`: the clamped float cutoff and feedback are left out; the parameters become dirty. */
    method SetNoiseFilter()
      requires Valid()
      modifies this
      ensures Valid()
      ensures Snapshot() == old(Snapshot()).(dirty := true)
    {
      paramsDirty := true;
    }

    /** `generate_noise_sample`. */
    method GenerateNoiseSample() returns (x: int)
      requires Valid()
      modifies this
      ensures Valid()
      ensures Snapshot() == old(Snapshot()).(noise := LcgNext(old(noiseState)))
      ensures x == NoiseOf(noiseState)
    {
      noiseState := U32(noiseState * 1103515245 + 12345);
      x := NoiseOf(noiseState);
    }

    /** `ae_reset_noise_filter`; `initial` and `lookedUp` are the float design results. */
    method ResetNoiseFilter(initial: Tuning, lookedUp: seq<int>)
      requires Valid() && TuningOk(initial) && |lookedUp| == VOICES && GainsOk(lookedUp)
      modifies this, filters, voiceGain
      ensures Valid()
      ensures Snapshot() == ResetSpec(old(Snapshot()), initial, lookedUp)
    {
      if !noiseFilterInited {
        InitAll(initial);
        noiseFilterInited := true;
        paramsDirty := true;
        return;
      }
      for v := 0 to VOICES
        invariant forall j :: 0 <= j < v ==> filters[j] == old(filters[j]).(ic1 := 0, ic2 := 0, gain := lookedUp[j])
        invariant forall j :: v <= j < VOICES ==> filters[j] == old(filters[j])
        invariant forall j :: 0 <= j < v ==> voiceGain[j] == 0
        invariant unchanged(this)
      {
        filters[v] := filters[v].(ic1 := 0, ic2 := 0, gain := lookedUp[v]);
        voiceGain[v] := 0;
      }
      activeVoiceCount := 0;
      assert voiceGain[..] == seq(VOICES, _ => 0);
    }

    /** Every filter set to `resonant_bandpass_init`'s result. */
    method InitAll(initial: Tuning)
      requires Valid() && TuningOk(initial)
      modifies filters
      ensures Valid()
      ensures filters[..] == seq(VOICES, _ => InitFilter(initial))
    {
      for v := 0 to VOICES
        invariant forall j :: 0 <= j < v ==> filters[j] == InitFilter(initial)
        invariant forall j :: v <= j < VOICES ==> filters[j] == old(filters[j])
      {
        filters[v] := InitFilter(initial);
      }
    }

    /** `ae_update_noise_filter`, integer part, with `p` carrying the float results. */
    method UpdateNoiseFilter(p: UpdatePlan)
      requires Valid() && PlanOk(p)
      modifies this, filters, voiceGain
      ensures Valid()
      ensures Snapshot() == UpdateSpec(old(Snapshot()), p)
    {
      if !noiseFilterInited {
        InitAll(p.initial);
        noiseFilterInited := true;
        paramsDirty := true;
      }
      assert Snapshot() == InitSpec(old(Snapshot()), p.initial);
      if paramsDirty {
        var voiceCount := GlyphVoiceCountOf(currentGlyph);
        activeVoiceCount := voiceCount;
        TuneActive(p.tunings, voiceCount);
        SetGains(p.gains, voiceCount);
        voiceGainNorm := p.norm;
        feedbackUpdateVoice := 0;
        paramsDirty := false;
      }
    }

    /** The voice count of a refresh: `multipliers_from` on the glyph with spread octaves, 1 if it gave none, at most six. */
    static method GlyphVoiceCountOf(glyph: int) returns (voiceCount: int)
      requires 0 <= glyph < GLYPH_COUNT
      ensures voiceCount == GlyphVoiceCount(glyph)
    {
      var mul := new Voice[VOICES];
      voiceCount := MultipliersFrom(GLYPHS[glyph].mask, VOICES, 0, 1, 1, mul);
      if voiceCount == 0 {
        voiceCount := 1;
      }
      if voiceCount > VOICES {
        voiceCount := VOICES;
      }
    }

    /** The refresh loop's filter updates for the active voices. */
    method TuneActive(ts: seq<Tuning>, count: int)
      requires filters.Length == VOICES && AllOk(filters[..]) && TuningsOk(ts) && 0 <= count <= VOICES
      modifies filters
      ensures filters[..] == TuneVoices(old(filters[..]), ts, count)
    {
      for v := 0 to count
        invariant filters[..] == TuneVoices(old(filters[..]), ts, v)
      {
        ghost var before := filters[..];
        filters[v] := Tune(filters[v], ts[v]);
        assert filters[..] == before[v := Tune(before[v], ts[v])];
      }
      assert TuneVoices(old(filters[..]), ts, count) == TuneVoices(old(filters[..]), ts, count);
    }

    /** The refresh loop's gains, the zeroing of the unused voices and the weight-sum fallback. */
    method SetGains(gs: seq<int>, count: int)
      requires voiceGain.Length == VOICES && |gs| == VOICES && GainsOk(gs) && 1 <= count <= VOICES
      modifies voiceGain
      ensures voiceGain[..] == WeightFallback(ActiveGains(gs, count), count)
    {
      ghost var target := ActiveGains(gs, count);
      var weightSum := 0;
      for v := 0 to count
        invariant voiceGain[..v] == target[..v]
        invariant weightSum == SeqSum(target[..v])
      {
        voiceGain[v] := gs[v];
        assert target[..v + 1][..v] == target[..v];
        weightSum := weightSum + gs[v];
      }
      for v := count to VOICES
        invariant voiceGain[..v] == target[..v]
        invariant weightSum == SeqSum(target[..v])
      {
        voiceGain[v] := 0;
        assert target[..v + 1][..v] == target[..v];
      }
      assert voiceGain[..] == target && target[..VOICES] == target;
      if weightSum == 0 {
        weightSum := 1;
        if count > 0 {
          voiceGain[0] := 32767;
        }
      }
    }

    /** The feedback retune of `ae_render_block`; `rs` holds the float results for the two voices. */
    method RetuneFeedback(rs: seq<Retune>)
      requires Valid() && RetunesOk(rs)
      modifies this, filters
      ensures Valid()
      ensures Snapshot() == RetuneSpec(old(Snapshot()), rs)
    {
      for i := 0 to 2
        invariant unchanged(this)
        invariant filters[..] == RetuneN(old(filters[..]), feedbackUpdateVoice, rs, i)
      {
        var idx := (feedbackUpdateVoice + i) % VOICES;
        filters[idx] := RetuneFilter(filters[idx], rs[i]);
      }
      feedbackUpdateVoice := (feedbackUpdateVoice + 2) % VOICES;
    }

    /** The voice loop for one noise sample: each active voice stepped and its weighted output accumulated. */
    method MixVoices(x: int) returns (accum: int)
      requires Valid() && IsI16(x)
      modifies filters
      ensures filters[..] == StepVoices(old(filters[..]), activeVoiceCount, x)
      ensures accum == MixSum(old(filters[..]), voiceGain[..], activeVoiceCount, x)
    {
      accum := 0;
      for v := 0 to activeVoiceCount
        invariant filters[..] == StepVoices(old(filters[..]), v, x)
        invariant accum == MixSum(old(filters[..]), voiceGain[..], v, x)
      {
        ghost var before := filters[..];
        var res := BandpassStep(filters[v], x);
        var weighted := Weighted(res.out, voiceGain[v]);
        filters[v] := filters[v].(ic1 := res.ic1, ic2 := res.ic2);
        assert filters[..] == before[v := StepFilter(before[v], x)];
        accum := accum + weighted;
      }
    }

    /** One sample of `ae_render_block`'s loop. */
    method RenderSample() returns (pwm: int)
      requires Valid()
      modifies this, filters
      ensures Valid()
      ensures Snapshot() == SampleSpec(old(Snapshot())).0 && pwm == SampleSpec(old(Snapshot())).1
    {
      noiseState := LcgNext(noiseState);
      var x := NoiseOf(noiseState);
      var accum := MixVoices(x);
      if activeVoiceCount == 0 {
        pwm := Q15ToPwm(0);
        return;
      }
      var normalized := I32(I64(accum * voiceGainNorm + 16384) / TWO15);
      if normalized > 32767 {
        normalized := 32767;
      } else if normalized < -32768 {
        normalized := -32768;
      }
      pwm := Q15ToPwm(normalized);
    }

    /**
     * `ae_render_block`: with no output buffer nothing happens; otherwise the
     * parameter refresh, the feedback retune, then sixteen samples, each
     * written to the buffer.
     */
    method RenderBlock(target: array?<int>, p: UpdatePlan, rs: seq<Retune>)
      requires Valid() && PlanOk(p) && RetunesOk(rs)
      requires target != null ==> target.Length >= BLOCK_SIZE && target != voiceGain
      modifies this, filters, voiceGain, target
      ensures Valid()
      ensures target == null ==> Snapshot() == old(Snapshot())
      ensures target != null ==>
                var r := RenderSpec(RetuneSpec(UpdateSpec(old(Snapshot()), p), rs), BLOCK_SIZE);
                Snapshot() == r.0 && target[..BLOCK_SIZE] == r.1
    {
      if target == null {
        return;
      }
      UpdateNoiseFilter(p);
      RetuneFeedback(rs);
      ghost var start := Snapshot();
      for i := 0 to BLOCK_SIZE
        invariant Valid()
        invariant Snapshot() == RenderSpec(start, i).0
        invariant target[..i] == RenderSpec(start, i).1
      {
        ghost var prev := RenderSpec(start, i);
        assert RenderSpec(start, i + 1) == (SampleSpec(prev.0).0, prev.1 + [SampleSpec(prev.0).1]);
        var pwm := RenderSample();
        target[i] := pwm;
        assert target[..i + 1] == target[..i] + [pwm];
      }
    }
  }
}

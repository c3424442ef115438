/**
 * The loop-sampler block renderer: per audio block it proposes a loop region
 * from two knobs, starts and steps a crossfade from the old region into the
 * new one, repairs an invalid region and otherwise plays the active region
 * with a Q32.32 phase accumulator, writing one PWM value per sample to both
 * output channels.
 *
 * Phases are Q32.32 values held in a uint64: the sample index is
 * `phase / 2^32` and the fraction `phase % 2^32`.  Region bounds are uint32
 * sample indices, `[start, end)`.
 *
 * The hardware interpolator, the constant-power crossfade gains (floating
 * point) and the ladder filter stage are not defined in this model; they are
 * the three functions of a `Dsp` value the caller supplies.
 */
module LoopRender {
  import opened IntArith
  import opened FixedPoint

  /** Samples per rendered block (AUDIO_BLOCK_SIZE). */
  const BLOCK_SIZE: int := 16
  /** PWM_RESOLUTION / 2, the level written while silent. */
  const SILENCE_PWM: int := 2048
  /** Shortest loop the region proposal produces, in samples. */
  const MIN_LOOP_LEN: int := 2048
  /** Limits of the Q32.32 phase increment: 1/16 and 16 times normal speed. */
  const INC_MIN: int := 0x1000_0000
  const INC_MAX: int := 0x10_0000_0000
  /** One sample in Q32.32. */
  const ONE_Q: int := 0x1_0000_0000

  /** The transport state the renderer is told about (ae_state_t). */
  datatype AeState = Idle | Ready | Playing | Paused

  /** A half-open sample range `[start, end)`. */
  datatype Region = Region(start: int, end: int)

  /** The proposed region and its nominal length (the `pending_*` statics). */
  datatype Pending = Pending(start: int, len: int, end: int)

  /** The crossfade statics: remaining and total steps, both cursors and both windows. */
  datatype Crossfade = Crossfade(stepsRem: int, stepsTotal: int,
                                 tailQ: int, headQ: int,
                                 tailStart: int, tailEnd: int,
                                 headStart: int, headEnd: int)

  /** The knob readings of one block (12-bit ADC values) and the raw Q32.32 increment from the pitch maths. */
  datatype Controls = Controls(adcStart: int, adcLen: int, adcXfade: int, incRaw: int)

  /** The two interpolation taps and the 8-bit fraction between them. */
  datatype Taps = Taps(i: int, i2: int, mu: int)

  /**
   * The stages outside integer code: the hardware interpolator
   * `blend(u0, u1, mu8)`, the constant-power crossfade mix
   * `mix(a, b, k, n)` for progress k/n, and the filter stage.
   */
  datatype Dsp = Dsp(blend: (int, int, int) -> int,
                     mix: (int, int, int, int) -> int,
                     filter: int -> int)

  predicate RegionOk(r: Region) { IsU32(r.start) && IsU32(r.end) }

  predicate PendingOk(p: Pending) { IsU32(p.start) && IsU32(p.len) && IsU32(p.end) }

  predicate CrossfadeOk(c: Crossfade)
  {
    IsU32(c.stepsRem) && IsU32(c.stepsTotal) && IsU64(c.tailQ) && IsU64(c.headQ)
    && IsU32(c.tailStart) && IsU32(c.tailEnd) && IsU32(c.headStart) && IsU32(c.headEnd)
    && c.stepsRem <= c.stepsTotal
  }

  predicate ControlsOk(c: Controls)
  {
    IsU16(c.adcStart) && IsU16(c.adcLen) && IsU16(c.adcXfade) && IsU64(c.incRaw)
  }

  /** `q15_to_pwm_u`: offset binary times 4095, shifted down by 16 (truncating). */
  function PwmFromQ15(s: int): (r: int)
    requires IsI16(s)
    ensures 0 <= r <= 4094
  {
    OffsetBinary(s) * 4095 / TWO16
  }

  lemma PwmFromQ15Monotone(a: int, b: int)
    requires IsI16(a) && IsI16(b) && a <= b
    ensures PwmFromQ15(a) <= PwmFromQ15(b)
  {
  }

  /** The extremes map to 0 and 4094, and a zero sample sits one step below the silence level. */
  lemma PwmFromQ15Endpoints()
    ensures PwmFromQ15(-32768) == 0
    ensures PwmFromQ15(0) == 2047 == SILENCE_PWM - 1
    ensures PwmFromQ15(32767) == 4094
  {
  }

  /** The pitch increment limits. */
  function ClampInc(raw: int): (inc: int)
    requires IsU64(raw)
    ensures INC_MIN <= inc <= INC_MAX
    ensures INC_MIN <= raw <= INC_MAX ==> inc == raw
    ensures raw < INC_MIN ==> inc == INC_MIN
    ensures raw > INC_MAX ==> inc == INC_MAX
  {
    var lo := if raw < INC_MIN then INC_MIN else raw;
    if lo > INC_MAX then INC_MAX else lo
  }

  /** The region start can move over `total − MIN_LOOP_LEN` samples. */
  function SpanTotal(total: int): (s: nat)
    ensures total > MIN_LOOP_LEN ==> s + MIN_LOOP_LEN == total
    ensures total <= MIN_LOOP_LEN ==> s == 0
  {
    if total > MIN_LOOP_LEN then total - MIN_LOOP_LEN else 0
  }

  /** The knob-to-sample mapping `adc · span / 4095` in 64 bits, narrowed to 32. */
  function KnobToSamples(adc: int, span: nat): int
  {
    if span != 0 then U32((adc * span) / 4095) else 0
  }

  /**
   * `calculate_loop_boundaries`: the start knob picks a start in
   * `[0, span]`, the length knob a length in `[MIN_LOOP_LEN, total]`, and
   * the end is clipped to the buffer.
   */
  function PendingRegion(total: int, adcStart: int, adcLen: int): (p: Pending)
    requires IsU32(total) && IsU16(adcStart) && IsU16(adcLen)
    ensures PendingOk(p)
    ensures p.end <= total
  {
    var span := SpanTotal(total);
    var start := KnobToSamples(adcStart, span);
    var len := U32(MIN_LOOP_LEN + KnobToSamples(adcLen, span));
    var e := U32(start + len);
    Pending(start, len, if e > total then total else e)
  }

  /** A full-scale knob reading maps into `[0, span]`. */
  lemma KnobToSamplesBound(adc: int, span: nat)
    requires 0 <= adc <= 4095
    ensures 0 <= KnobToSamples(adc, span) <= span
  {
    if span != 0 {
      MulLe(adc, 4095, span);
      assert adc * span <= 4095 * span;
      DivBound(adc * span, 4095, span + 1);
    }
  }

  /**
   * For 12-bit knob readings and a buffer of at least 2 samples (below 2^31,
   * so that start + length fits in 32 bits), the proposed region is a
   * non-empty window of the buffer, at least MIN_LOOP_LEN long or the whole
   * buffer.
   */
  lemma PendingRegionWellFormed(total: int, adcStart: int, adcLen: int)
    requires 2 <= total < TWO31 && 0 <= adcStart <= 4095 && 0 <= adcLen <= 4095
    ensures var p := PendingRegion(total, adcStart, adcLen);
      p.start <= SpanTotal(total) && p.start < p.end <= total
      && p.len >= MIN_LOOP_LEN
      && p.end - p.start >= Min(MIN_LOOP_LEN, total)
  {
    var span := SpanTotal(total);
    KnobToSamplesBound(adcStart, span);
    KnobToSamplesBound(adcLen, span);
  }

  /** A short buffer always loops over all of itself. */
  lemma PendingRegionShortBuffer(total: int, adcStart: int, adcLen: int)
    requires 0 <= total <= MIN_LOOP_LEN && IsU16(adcStart) && IsU16(adcLen)
    ensures PendingRegion(total, adcStart, adcLen) == Pending(0, MIN_LOOP_LEN, total)
  {
  }

  /** A region length, or 1 when the region is empty or inverted. */
  function RegionLen(start: int, end: int): (n: int)
    ensures n >= 1
  {
    if end > start then end - start else 1
  }

  /** The crossfade may take at most half of each of the two loops. */
  function MaxXfade(active: Region, p: Pending): int
  {
    Min(RegionLen(active.start, active.end) / 2, RegionLen(p.start, p.end) / 2)
  }

  /** The shortest crossfade: 8 samples, or half the cap for tiny loops. */
  function MinXfade(maxBoth: int): (m: int)
    requires maxBoth >= 0
    ensures 0 <= m <= maxBoth
    ensures maxBoth >= 16 ==> m == 8
  {
    if maxBoth >= 16 then 8 else maxBoth / 2
  }

  /**
   * The crossfade length: the knob scales the cap (Q12), knob 0 selects the
   * minimum, and the result is constrained to `[MinXfade, MaxXfade]`.
   */
  function XfadeLength(active: Region, p: Pending, adcXfade: int): (xf: int)
    requires RegionOk(active) && IsU32(p.start) && IsU32(p.end) && IsU16(adcXfade)
    ensures MinXfade(MaxXfade(active, p)) <= xf <= MaxXfade(active, p)
    ensures xf <= RegionLen(active.start, active.end) / 2 && xf <= RegionLen(p.start, p.end) / 2
    ensures adcXfade == 0 ==> xf == MinXfade(MaxXfade(active, p))
    ensures 0 < adcXfade <= 4095 && MinXfade(MaxXfade(active, p)) <= MaxXfade(active, p) * adcXfade / 4096
            ==> xf == MaxXfade(active, p) * adcXfade / 4096
    ensures 0 < adcXfade && U32(MaxXfade(active, p) * adcXfade / 4096) < MinXfade(MaxXfade(active, p))
            ==> xf == MinXfade(MaxXfade(active, p))
    ensures 0 < adcXfade && U32(MaxXfade(active, p) * adcXfade / 4096) > MaxXfade(active, p)
            ==> xf == MaxXfade(active, p)
    ensures 0 < adcXfade && MinXfade(MaxXfade(active, p)) <= U32(MaxXfade(active, p) * adcXfade / 4096) <= MaxXfade(active, p)
            ==> xf == U32(MaxXfade(active, p) * adcXfade / 4096)
  {
    var maxBoth := MaxXfade(active, p);
    var minX := MinXfade(maxBoth);
    var req := U32(maxBoth * adcXfade / 4096);
    KnobScaleBound(maxBoth, adcXfade);
    if adcXfade == 0 then minX else Clamp(req, minX, maxBoth)
  }

  /** A Q12 knob reading below 4096 scales a value down. */
  lemma KnobScaleBound(m: int, adc: int)
    requires m >= 0 && adc >= 0
    ensures adc <= 4095 ==> 0 <= m * adc / 4096 <= m
  {
    if adc <= 4095 {
      MulLe(adc, 4096, m);
      DivBound(m * adc, 4096, m + 1);
    }
  }

  /** Where the crossfade starts: `xf` samples before the loop end, or at the loop start. */
  function CrossfadeStartSample(active: Region, xf: int): int
  {
    if active.end > xf then active.end - xf else active.start
  }

  /** For a valid active region the tail window `[cfs, cfs + xf)` is the last `xf` samples of the loop. */
  lemma TailWindowEndsTheLoop(active: Region, p: Pending, adcXfade: int)
    requires RegionOk(active) && IsU32(p.start) && IsU32(p.end) && IsU16(adcXfade)
    requires active.start < active.end
    ensures var xf := XfadeLength(active, p, adcXfade);
      var cfs := CrossfadeStartSample(active, xf);
      active.start <= cfs && cfs + xf == active.end
  {
  }

  /** Ceiling division `⌈n / d⌉` as `(n + d − 1) / d`. */
  lemma CeilDiv(n: int, d: int)
    requires n >= 0 && d > 0
    ensures ((n + d - 1) / d) * d >= n
    ensures n > 0 ==> ((n + d - 1) / d - 1) * d < n
  {
    var q := (n + d - 1) / d;
    assert n + d - 1 == q * d + (n + d - 1) % d;
  }

  /** The crossfade step count: `⌈xf · 2^32 / inc⌉` in 64-bit arithmetic, narrowed to 32 bits, at least 1. */
  function CrossfadeSteps(xf: int, inc: int): (steps: int)
    requires IsU32(xf) && INC_MIN <= inc <= INC_MAX
    ensures IsU32(steps) && steps >= 1
  {
    var num := xf * ONE_Q;
    var q := U32(U64(num + (inc - 1)) / inc);
    if q == 0 then 1 else q
  }

  /**
   * While the exact count fits in 32 bits (any crossfade of at most 2^27
   * samples), the steps cover the crossfade exactly once: `steps · inc` is
   * the first multiple of the increment reaching `xf · 2^32`.
   */
  lemma CrossfadeStepsIsCeiling(xf: int, inc: int)
    requires 0 <= xf <= 0x800_0000 && INC_MIN <= inc <= INC_MAX
    ensures xf == 0 ==> CrossfadeSteps(xf, inc) == 1
    ensures xf > 0 ==> CrossfadeSteps(xf, inc) * inc >= xf * ONE_Q
                       && (CrossfadeSteps(xf, inc) - 1) * inc < xf * ONE_Q
  {
    var num := xf * ONE_Q;
    MulLe(xf, 0x800_0000, ONE_Q);
    CeilQuotient(num, inc);
    assert num + (inc - 1) < TWO64;
    assert U64(num + (inc - 1)) == num + (inc - 1);
  }

  /** The ceiling quotient of a numerator up to 2^59 by an increment in range fits 32 bits, and is 0 only for 0. */
  lemma CeilQuotient(num: int, inc: int)
    requires 0 <= num <= 0x800_0000 * ONE_Q && INC_MIN <= inc <= INC_MAX
    ensures var q := (num + (inc - 1)) / inc;
      0 <= q < TWO32 && (q == 0 <==> num == 0)
      && (num > 0 ==> q * inc >= num && (q - 1) * inc < num)
  {
    var q := (num + (inc - 1)) / inc;
    CeilDiv(num, inc);
    assert q * inc <= num + inc - 1;
    MulLe(INC_MIN, inc, q);
    DivBound(num + INC_MAX, INC_MIN, TWO32);
    assert q < TWO32 by {
      if q >= TWO32 {
        MulLe(TWO32, q, INC_MIN);
      }
    }
    if num > 0 {
      assert q >= 1 by {
        if q <= 0 {
          MulLe(q, 0, inc);
        }
      }
    } else {
      DivModUnique(inc - 1, inc, 0, inc - 1);
    }
  }

  /**
   * One step of a session: one step fewer left, the windows kept, and
   * each cursor advanced by the increment and wrapped inside its own window.
   */
  predicate SessionAdvanced(next: Crossfade, c: Crossfade, inc: int)
  {
    next.stepsRem == c.stepsRem - 1 && next.stepsTotal == c.stepsTotal
    && next.tailStart == c.tailStart && next.tailEnd == c.tailEnd
    && next.headStart == c.headStart && next.headEnd == c.headEnd
    && IsWrapOf(next.tailQ, U64(c.tailQ + inc), next.tailStart, next.tailEnd)
    && IsWrapOf(next.headQ, U64(c.headQ + inc), next.headStart, next.headEnd)
  }

  /** One crossfade step of the session: both cursors advanced by the increment and wrapped, one step fewer left. */
  function StepSession(c: Crossfade, inc: int): (next: Crossfade)
    requires CrossfadeOk(c) && c.stepsRem > 0 && INC_MIN <= inc <= INC_MAX
    ensures CrossfadeOk(next)
  {
    c.(tailQ := WrapSpec(U64(c.tailQ + inc), c.tailStart, c.tailEnd),
       headQ := WrapSpec(U64(c.headQ + inc), c.headStart, c.headEnd),
       stepsRem := c.stepsRem - 1)
  }

  /** A session step moves both cursors on by the increment inside their own windows and counts one step down. */
  lemma StepSessionAdvances(c: Crossfade, inc: int)
    requires CrossfadeOk(c) && c.stepsRem > 0 && INC_MIN <= inc <= INC_MAX
    ensures SessionAdvanced(StepSession(c, inc), c, inc)
  {
    WrapSpecIsWrap(U64(c.tailQ + inc), c.tailStart, c.tailEnd);
    WrapSpecIsWrap(U64(c.headQ + inc), c.headStart, c.headEnd);
  }

  /** The session's share of one crossfade step, with the two wrap loops. */
  method AdvanceSession(c: Crossfade, inc: int) returns (next: Crossfade)
    requires CrossfadeOk(c) && c.stepsRem > 0 && INC_MIN <= inc <= INC_MAX
    ensures next == StepSession(c, inc)
  {
    var tq := WrapCursor(U64(c.tailQ + inc), c.tailStart, c.tailEnd);
    var hq := WrapCursor(U64(c.headQ + inc), c.headStart, c.headEnd);
    next := c.(tailQ := tq, headQ := hq, stepsRem := c.stepsRem - 1);
  }

  /**
   * The head alignment offset: how far (in whole samples) the phase has
   * passed the crossfade start, kept below `xf`.  The subtraction is 64-bit
   * and wraps when the phase lies before the crossfade start.
   */
  function HeadOffset(phaseNow: int, cfStartQ: int, xf: int): (k: int)
    requires IsU64(phaseNow) && IsU64(cfStartQ) && IsU32(xf)
    ensures IsU32(k)
    ensures xf >= 1 ==> k < xf
    ensures xf >= 1 && cfStartQ <= phaseNow < cfStartQ + xf * ONE_Q ==> k == (phaseNow - cfStartQ) / ONE_Q
    ensures xf == 0 ==> k == TWO32 - 1
  {
    var d := U64(phaseNow - cfStartQ);
    DivBound(d, ONE_Q, TWO32);
    var k := d / ONE_Q;
    if k >= xf then U32(xf - 1) else k
  }

  /** The head cursor `(pending_start + k) << 32` in 64 bits. */
  function HeadCursor(pStart: int, k: int): (q: int)
    requires IsU32(pStart) && IsU32(k)
    ensures IsU64(q)
    ensures pStart + k < TWO32 ==> q == (pStart + k) * ONE_Q
  {
    U64((pStart + k) * ONE_Q)
  }

  /** With a non-zero crossfade into a non-empty pending region, the head cursor starts inside it. */
  lemma HeadCursorInsideWindow(phaseNow: int, cfStartQ: int, active: Region, p: Pending, adcXfade: int)
    requires IsU64(phaseNow) && IsU64(cfStartQ) && RegionOk(active) && IsU32(p.start) && IsU32(p.end) && IsU16(adcXfade)
    requires p.start < p.end && XfadeLength(active, p, adcXfade) >= 1
    ensures var xf := XfadeLength(active, p, adcXfade);
      var q := HeadCursor(p.start, HeadOffset(phaseNow, cfStartQ, xf));
      p.start * ONE_Q <= q < p.end * ONE_Q && q % ONE_Q == 0
  {
    var xf := XfadeLength(active, p, adcXfade);
    var k := HeadOffset(phaseNow, cfStartQ, xf);
    assert p.start + k < p.end;
    DivModUnique((p.start + k) * ONE_Q, ONE_Q, p.start + k, 0);
  }

  /**
   * The taps of `sample_q15_from_phase` for a non-empty window: the phase is
   * clamped below the window end, the index clamped into the window, and
   * the second tap wraps back to the window start.
   */
  function TapsFor(phase: int, start: int, endExcl: int): (t: Taps)
    requires IsU64(phase) && IsU32(start) && IsU32(endExcl) && start < endExcl
    ensures start <= t.i < endExcl && start <= t.i2 < endExcl
    ensures t.i2 == (if t.i + 1 < endExcl then t.i + 1 else start)
    ensures 0 <= t.mu < 256
    ensures start * ONE_Q <= phase < endExcl * ONE_Q ==>
              t.i == phase / ONE_Q && t.mu == (phase % ONE_Q) / 0x100_0000
  {
    var endQ := endExcl * ONE_Q;
    var p := if phase >= endQ then endQ - 1 else phase;
    DivBound(p, ONE_Q, endExcl);
    var i0 := p / ONE_Q;
    var i1 := if i0 < start then start else i0;
    var i := if i1 >= endExcl then endExcl - 1 else i1;
    var i2 := if i + 1 >= endExcl then start else i + 1;
    WholeSamplesBelow(start, phase);
    Taps(i, i2, (p % ONE_Q) / 0x100_0000)
  }

  /** A phase at or past sample `start` has an index of at least `start`. */
  lemma WholeSamplesBelow(start: int, phase: int)
    ensures start * ONE_Q <= phase ==> start <= phase / ONE_Q
  {
    if start * ONE_Q <= phase {
      DivModUnique(start * ONE_Q, ONE_Q, start, 0);
      DivMonotone(start * ONE_Q, phase, ONE_Q);
    }
  }

  /** A sample read; indices beyond the buffer read as silence. */
  function SampleAt(samples: seq<int>, i: int): int
  {
    if 0 <= i < |samples| then samples[i] else 0
  }

  /**
   * `sample_q15_from_phase`: silence for an empty window, otherwise the
   * interpolator's blend of the two taps in offset binary, back to Q15.
   */
  function SampleQ15(samples: seq<int>, phase: int, start: int, endExcl: int,
                     blend: (int, int, int) -> int): (s: int)
    requires IsU64(phase) && IsU32(start) && IsU32(endExcl)
    ensures IsI16(s)
    ensures endExcl == 0 || start >= endExcl ==> s == 0
  {
    if endExcl == 0 || start >= endExcl then 0
    else
      var t := TapsFor(phase, start, endExcl);
      var u0 := U16(SampleAt(samples, t.i) + 32768);
      var u1 := U16(SampleAt(samples, t.i2) + 32768);
      U16(blend(u0, u1, t.mu)) - 32768
  }

  /** The interpolator reads nothing outside its window: buffers that agree on `[start, end)` give the same sample. */
  lemma SampleReadsOnlyWindow(a: seq<int>, b: seq<int>, phase: int, start: int, endExcl: int,
                              blend: (int, int, int) -> int)
    requires IsU64(phase) && IsU32(start) && IsU32(endExcl)
    requires forall j :: start <= j < endExcl ==> SampleAt(a, j) == SampleAt(b, j)
    ensures SampleQ15(a, phase, start, endExcl, blend) == SampleQ15(b, phase, start, endExcl, blend)
  {
    if endExcl != 0 && start < endExcl {
      var t := TapsFor(phase, start, endExcl);
      assert SampleAt(a, t.i) == SampleAt(b, t.i);
      assert SampleAt(a, t.i2) == SampleAt(b, t.i2);
    }
  }

  /** The mixed crossfade sample for state `c`: tail and head samples blended at progress (k+1)/N, narrowed to int16. */
  function CrossfadeMix(c: Crossfade, samples: seq<int>, dsp: Dsp): (s: int)
    requires CrossfadeOk(c)
    ensures IsI16(s)
  {
    var a := SampleQ15(samples, c.tailQ, c.tailStart, c.tailEnd, dsp.blend);
    var b := SampleQ15(samples, c.headQ, c.headStart, c.headEnd, dsp.blend);
    I16(dsp.mix(a, b, c.stepsTotal - c.stepsRem + 1, c.stepsTotal))
  }

  /** The PWM value written for a sample after the filter stage. */
  function OutputPwm(s: int, dsp: Dsp): (r: int)
    ensures 0 <= r <= 4094
  {
    PwmFromQ15(I16(dsp.filter(s)))
  }

  /**
   * What a cursor wrap leaves: inside a non-empty window the result lies
   * below the window end, is unchanged if it already did, and otherwise has
   * been lowered by whole window spans into `[start, end)`; an empty or
   * inverted window leaves the cursor alone.
   */
  predicate IsWrapOf(q: int, q0: int, start: int, end: int)
  {
    if start < end then
      q < end * ONE_Q && q <= q0
      && (q0 < end * ONE_Q ==> q == q0)
      && (q0 >= end * ONE_Q ==> q >= start * ONE_Q)
      && (q0 - q) % ((end - start) * ONE_Q) == 0
    else q == q0
  }

  lemma MulModZero(m: int, d: int)
    requires d > 0
    ensures (m * d) % d == 0
  {
    DivModUnique(m * d, d, m, 0);
  }

  /**
   * The crossfade cursor wrap as a function: subtract the window span while
   * the cursor is at or past the end of a non-empty window.
   */
  function WrapSpec(q: int, start: int, end: int): (r: int)
    requires IsU64(q) && IsU32(start) && IsU32(end)
    ensures IsU64(r) && r <= q
    decreases q
  {
    if start < end && q >= end * ONE_Q then WrapSpec(q - (end - start) * ONE_Q, start, end) else q
  }

  /** The wrapped cursor is the wrap of the one it started from, in the sense of `IsWrapOf`. */
  lemma {:induction false} WrapSpecIsWrap(q: int, start: int, end: int)
    requires IsU64(q) && IsU32(start) && IsU32(end)
    ensures IsWrapOf(WrapSpec(q, start, end), q, start, end)
    decreases q
  {
    if start < end && q >= end * ONE_Q {
      var span := (end - start) * ONE_Q;
      var q1 := q - span;
      WrapSpecIsWrap(q1, start, end);
      var r := WrapSpec(q1, start, end);
      var m := (q1 - r) / span;
      assert q1 - r == m * span + (q1 - r) % span;
      DivModUnique(q - r, span, m + 1, 0);
    }
  }

  /**
   * The crossfade cursor wrap loop.  It runs only for a non-empty window
   * (see `EmptyWindowWrapNeverExits` for what the unguarded loop does).
   */
  method WrapCursor(q0: int, start: int, end: int) returns (q: int)
    requires IsU64(q0) && IsU32(start) && IsU32(end)
    ensures q == WrapSpec(q0, start, end) && IsWrapOf(q, q0, start, end)
  {
    q := q0;
    if start < end {
      var e := end * ONE_Q;
      var span := (end - start) * ONE_Q;
      while q >= e
        invariant IsU64(q) && WrapSpec(q, start, end) == WrapSpec(q0, start, end)
        decreases q
      {
        q := q - span;
      }
    }
    WrapSpecIsWrap(q0, start, end);
  }

  /** The cursor wrap loop of the source as written: guard and body, in 64-bit arithmetic. */
  predicate WrapGuardAsWritten(q: int, end: int) { q >= end * ONE_Q }

  function WrapBodyAsWritten(q: int, start: int, end: int): (r: int)
    requires IsU64(q) && IsU32(start) && IsU32(end)
    ensures IsU64(r)
  {
    U64(q - U32(end - start) * ONE_Q)
  }

  /** With an empty window the unguarded loop body changes nothing while its guard holds: the loop never exits. */
  lemma EmptyWindowWrapNeverExits(q: int, w: int)
    requires IsU64(q) && IsU32(w) && WrapGuardAsWritten(q, w)
    ensures WrapBodyAsWritten(q, w, w) == q && WrapGuardAsWritten(WrapBodyAsWritten(q, w, w), w)
  {
  }

  /**
   * That state is reached: a 2-sample buffer playing from sample 1 at
   * normal speed gets a zero-length crossfade when the reset trigger fires,
   * so the tail window is `[2, 2)` and the tail cursor is past its end after
   * the first step.
   */
  lemma ResetOnTwoSampleLoopStalls(adcStart: int, adcLen: int, adcXfade: int)
    requires IsU16(adcStart) && IsU16(adcLen) && 0 <= adcXfade <= 4095
    ensures var active := Region(0, 2);
      var p := PendingRegion(2, adcStart, adcLen);
      var xf := XfadeLength(active, p, adcXfade);
      var cfs := CrossfadeStartSample(active, xf);
      xf == 0 && cfs == 2 && U32(cfs + xf) == 2 && CrossfadeSteps(xf, ONE_Q) == 1
      && WrapGuardAsWritten(U64(ONE_Q + ONE_Q), U32(cfs + xf))
  {
    PendingRegionShortBuffer(2, adcStart, adcLen);
    var p := PendingRegion(2, adcStart, adcLen);
    assert MaxXfade(Region(0, 2), p) == 1;
    assert MinXfade(1) == 0;
    KnobScaleBound(1, adcXfade);
    assert XfadeLength(Region(0, 2), p, adcXfade) == 0;
    assert CrossfadeSteps(0, ONE_Q) == 1 by {
      DivModUnique(ONE_Q - 1, ONE_Q, 0, ONE_Q - 1);
    }
  }

  /**
   * The plain-playback fallback: a phase at or past the loop end or the
   * buffer end jumps back to the loop start.
   */
  function LoopWrap(phase: int, active: Region, total: int): (q: int)
    requires IsU64(phase) && RegionOk(active)
    ensures IsU64(q)
    ensures active.start < active.end ==> q / ONE_Q < active.end
    ensures q / ONE_Q < total || q == active.start * ONE_Q
    ensures phase / ONE_Q < active.end && phase / ONE_Q < total ==> q == phase
  {
    var idx := phase / ONE_Q;
    if idx >= active.end || idx >= total then
      DivModUnique(active.start * ONE_Q, ONE_Q, active.start, 0);
      active.start * ONE_Q
    else phase
  }

  /** The renderer's statics together with the playback phase: what a sample or a block leaves behind. */
  datatype RState = RState(phase: int, active: Region, pending: Pending, cf: Crossfade, calculated: bool)

  predicate RStateOk(s: RState)
  {
    IsU64(s.phase) && RegionOk(s.active) && PendingOk(s.pending) && CrossfadeOk(s.cf)
  }

  /** What stays fixed over one block: the clamped increment, the crossfade length, the buffer and the block's inputs. */
  datatype Env = Env(inc: int, xfLen: int, total: int, samples: seq<int>, ctrl: Controls, dsp: Dsp)

  predicate EnvOk(e: Env)
  {
    INC_MIN <= e.inc <= INC_MAX && IsU32(e.xfLen) && IsU32(e.total) && ControlsOk(e.ctrl)
  }

  /** One rendered sample: the state after it, the PWM value written and whether it started a crossfade. */
  datatype Stepped = Stepped(st: RState, out: int, setUp: bool)

  /** A run of samples: the state after them, the PWM values written in order and whether any started a crossfade. */
  datatype Ran = Ran(st: RState, outs: seq<int>, setUp: bool)

  /** One block: the state after it, its 16 PWM values, whether the reset trigger was consumed and whether the LED blinked. */
  datatype BlockOut = BlockOut(st: RState, outs: seq<int>, resetCleared: bool, blink: bool)

  /**
   * `setup_crossfade`: size the crossfade from the two regions, count its
   * steps, put the tail window at the crossfade start with the tail cursor
   * at the phase, and the head cursor into the pending region at the same
   * offset.
   */
  function SetupSpec(active: Region, p: Pending, phaseNow: int, cfStartQ: int, adcXfade: int, inc: int): (c: Crossfade)
    requires RegionOk(active) && PendingOk(p) && IsU64(phaseNow) && IsU64(cfStartQ) && IsU16(adcXfade)
    requires INC_MIN <= inc <= INC_MAX
    ensures CrossfadeOk(c) && c.stepsRem == c.stepsTotal >= 1
  {
    var xf := XfadeLength(active, p, adcXfade);
    var steps := CrossfadeSteps(xf, inc);
    DivBound(cfStartQ, ONE_Q, TWO32);
    var tailStart := cfStartQ / ONE_Q;
    Crossfade(steps, steps, phaseNow, HeadCursor(p.start, HeadOffset(phaseNow, cfStartQ, xf)),
              tailStart, U32(tailStart + xf), p.start, p.end)
  }

  /**
   * A crossfade set up at the crossfade point of a valid loop fades out
   * the last `xf` samples of that loop from the current phase, and fades in
   * the pending region from a whole sample inside it.
   */
  lemma SetupSpecWindows(active: Region, p: Pending, phaseNow: int, adcXfade: int, inc: int)
    requires RegionOk(active) && PendingOk(p) && IsU64(phaseNow) && IsU16(adcXfade) && INC_MIN <= inc <= INC_MAX
    requires active.start < active.end && p.start < p.end && XfadeLength(active, p, adcXfade) >= 1
    ensures var xf := XfadeLength(active, p, adcXfade);
      var c := SetupSpec(active, p, phaseNow, CrossfadeStartSample(active, xf) * ONE_Q, adcXfade, inc);
      c.tailQ == phaseNow && active.start <= c.tailStart && c.tailStart + xf == c.tailEnd == active.end
      && c.headStart == p.start && c.headEnd == p.end
      && p.start * ONE_Q <= c.headQ < p.end * ONE_Q && c.headQ % ONE_Q == 0
  {
    var xf := XfadeLength(active, p, adcXfade);
    var cfs := CrossfadeStartSample(active, xf);
    TailWindowEndsTheLoop(active, p, adcXfade);
    DivModUnique(cfs * ONE_Q, ONE_Q, cfs, 0);
    HeadCursorInsideWindow(phaseNow, cfs * ONE_Q, active, p, adcXfade);
  }

  /**
   * `process_crossfade_step`: the mixed sample is written, the session
   * steps, and on its last step the phase jumps to the head cursor, the
   * pending region becomes active and the boundaries go stale.
   */
  function CrossfadeStepSpec(st: RState, inc: int, samples: seq<int>, dsp: Dsp): (x: Stepped)
    requires RStateOk(st) && st.cf.stepsRem > 0 && INC_MIN <= inc <= INC_MAX
    ensures RStateOk(x.st) && 0 <= x.out <= 4094 && !x.setUp
  {
    var c := StepSession(st.cf, inc);
    var out := OutputPwm(CrossfadeMix(st.cf, samples, dsp), dsp);
    if c.stepsRem == 0 then
      Stepped(RState(c.headQ, Region(st.pending.start, st.pending.end), st.pending, c, false), out, false)
    else Stepped(st.(cf := c), out, false)
  }

  /**
   * A crossfade step advances the session; the last one hands playback
   * over to the head cursor in the pending region, the others leave the
   * phase, the regions and the boundaries flag alone.
   */
  lemma CrossfadeStepEffect(st: RState, inc: int, samples: seq<int>, dsp: Dsp)
    requires RStateOk(st) && st.cf.stepsRem > 0 && INC_MIN <= inc <= INC_MAX
    ensures var x := CrossfadeStepSpec(st, inc, samples, dsp);
      SessionAdvanced(x.st.cf, st.cf, inc) && x.st.pending == st.pending
      && x.out == OutputPwm(CrossfadeMix(st.cf, samples, dsp), dsp)
      && (st.cf.stepsRem == 1 ==> x.st.phase == x.st.cf.headQ && x.st.active == Region(st.pending.start, st.pending.end)
                                  && !x.st.calculated)
      && (st.cf.stepsRem > 1 ==> x.st.phase == st.phase && x.st.active == st.active && x.st.calculated == st.calculated)
  {
    StepSessionAdvances(st.cf, inc);
  }

  /**
   * The sample whose advanced phase has crossed the crossfade point: fresh
   * boundaries, a crossfade set up at that phase, and its first step.
   */
  function StartCrossfadeSpec(st: RState, e: Env): (x: Stepped)
    requires RStateOk(st) && EnvOk(e)
    ensures RStateOk(x.st) && 0 <= x.out <= 4094 && x.setUp
  {
    var cfs := CrossfadeStartSample(st.active, e.xfLen);
    var pend := PendingRegion(e.total, e.ctrl.adcStart, e.ctrl.adcLen);
    var c := SetupSpec(st.active, pend, st.phase, cfs * ONE_Q, e.ctrl.adcXfade, e.inc);
    CrossfadeStepSpec(RState(st.phase, st.active, pend, c, true), e.inc, e.samples, e.dsp).(setUp := true)
  }

  /** Plain playback at the advanced phase: wrap it into the active loop and play the active loop there. */
  function PlaySpec(st: RState, e: Env): (x: Stepped)
    requires RStateOk(st) && EnvOk(e)
    ensures RStateOk(x.st) && 0 <= x.out <= 4094 && !x.setUp
  {
    var q := LoopWrap(st.phase, st.active, e.total);
    Stepped(st.(phase := q), OutputPwm(SampleQ15(e.samples, q, st.active.start, st.active.end, e.dsp.blend), e.dsp), false)
  }

  /**
   * A render-loop iteration outside a crossfade, at the advanced phase
   * `st.phase`: start a crossfade when the phase has crossed the crossfade
   * point, or else play the active loop.
   */
  function AdvanceSpec(st: RState, e: Env): (x: Stepped)
    requires RStateOk(st) && EnvOk(e)
    ensures RStateOk(x.st) && 0 <= x.out <= 4094
  {
    if e.xfLen > 0 && st.phase >= CrossfadeStartSample(st.active, e.xfLen) * ONE_Q then StartCrossfadeSpec(st, e)
    else PlaySpec(st, e)
  }

  /**
   * One iteration of the render loop: a crossfade step while crossfading;
   * otherwise advance the phase and go on as `AdvanceSpec` says.
   */
  function SampleStepSpec(st: RState, e: Env): (x: Stepped)
    requires RStateOk(st) && EnvOk(e)
    ensures RStateOk(x.st) && 0 <= x.out <= 4094
  {
    if st.cf.stepsRem != 0 then CrossfadeStepSpec(st, e.inc, e.samples, e.dsp)
    else AdvanceSpec(st.(phase := U64(st.phase + e.inc)), e)
  }

  /**
   * What one sample does: a running crossfade takes one step and starts
   * nothing; a sample that starts a crossfade has crossed the crossfade
   * point with a non-zero crossfade length; any other sample plays the
   * active loop at the advanced, wrapped phase and changes no static.
   */
  lemma SampleStepFacts(st: RState, e: Env)
    requires RStateOk(st) && EnvOk(e)
    ensures var x := SampleStepSpec(st, e);
      (st.cf.stepsRem != 0 ==> !x.setUp && x.st.cf.stepsRem == st.cf.stepsRem - 1)
      && (x.setUp ==> st.cf.stepsRem == 0 && e.xfLen > 0
                      && U64(st.phase + e.inc) >= CrossfadeStartSample(st.active, e.xfLen) * ONE_Q
                      && x.st.pending == PendingRegion(e.total, e.ctrl.adcStart, e.ctrl.adcLen))
      && (st.cf.stepsRem == 0 && !x.setUp ==>
            x.st == st.(phase := LoopWrap(U64(st.phase + e.inc), st.active, e.total))
            && x.out == OutputPwm(SampleQ15(e.samples, x.st.phase, st.active.start, st.active.end, e.dsp.blend), e.dsp))
  {
    if st.cf.stepsRem != 0 {
      CrossfadeStepEffect(st, e.inc, e.samples, e.dsp);
    }
  }

  /** `n` iterations of the render loop from state `st`. */
  function RunSpec(st: RState, e: Env, n: nat): (r: Ran)
    requires RStateOk(st) && EnvOk(e)
    ensures RStateOk(r.st) && |r.outs| == n
  {
    if n == 0 then Ran(st, [], false)
    else
      var prev := RunSpec(st, e, n - 1);
      var x := SampleStepSpec(prev.st, e);
      Ran(x.st, prev.outs + [x.out], prev.setUp || x.setUp)
  }

  /** Every value a run writes is a PWM duty in 0..4094. */
  lemma {:induction false} RunOutputsInRange(st: RState, e: Env, n: nat)
    requires RStateOk(st) && EnvOk(e)
    ensures forall j :: 0 <= j < n ==> 0 <= RunSpec(st, e, n).outs[j] <= 4094
  {
    if n > 0 {
      RunOutputsInRange(st, e, n - 1);
      var prev := RunSpec(st, e, n - 1);
      assert RunSpec(st, e, n).outs == prev.outs + [SampleStepSpec(prev.st, e).out];
    }
  }

  /**
   * Region validation: an empty, inverted or out-of-buffer active region
   * is replaced by the pending one, any crossfade is cancelled, and a phase
   * outside the new loop snaps to its start; a valid region keeps
   * everything.
   */
  function ValidateSpec(st: RState, total: int): (v: RState)
    requires RStateOk(st) && IsU32(total)
    ensures RStateOk(v) && v.pending == st.pending && v.calculated == st.calculated
    ensures var bad := st.active.end <= st.active.start || st.active.end > total;
      (bad ==> v.active == Region(st.pending.start, st.pending.end) && v.cf == st.cf.(stepsRem := 0)
               && (v.active.start < v.active.end ==> v.active.start <= v.phase / ONE_Q < v.active.end)
               && (v.active.start <= st.phase / ONE_Q < v.active.end ==> v.phase == st.phase))
      && (!bad ==> v == st)
  {
    if st.active.end <= st.active.start || st.active.end > total then
      var a := Region(st.pending.start, st.pending.end);
      var idx0 := st.phase / ONE_Q;
      DivModUnique(a.start * ONE_Q, ONE_Q, a.start, 0);
      var ph := if idx0 < a.start || idx0 >= a.end then a.start * ONE_Q else st.phase;
      RState(ph, a, st.pending, st.cf.(stepsRem := 0), st.calculated)
    else st
  }

  /** The pending region a block works with: freshly proposed after a reset trigger or when stale, else kept. */
  function BlockPending(st: RState, total: int, resetPending: bool, ctrl: Controls): (p: Pending)
    requires RStateOk(st) && IsU32(total) && ControlsOk(ctrl)
    ensures PendingOk(p)
  {
    if resetPending || !st.calculated then PendingRegion(total, ctrl.adcStart, ctrl.adcLen) else st.pending
  }

  /** The block's fixed inputs: the clamped increment and the crossfade length for the block's regions. */
  function BlockEnv(st: RState, total: int, samples: seq<int>, resetPending: bool, ctrl: Controls, dsp: Dsp): (e: Env)
    requires RStateOk(st) && IsU32(total) && ControlsOk(ctrl)
    ensures EnvOk(e)
  {
    Env(ClampInc(ctrl.incRaw), XfadeLength(st.active, BlockPending(st, total, resetPending, ctrl), ctrl.adcXfade),
        total, samples, ctrl, dsp)
  }

  /**
   * The block set-up before the sample loop: the boundaries are fresh
   * afterwards, a reset trigger sets up a crossfade from the current phase
   * at the crossfade point, and the active region is validated.
   */
  function PrepareSpec(st: RState, total: int, resetPending: bool, ctrl: Controls): (v: RState)
    requires RStateOk(st) && IsU32(total) && ControlsOk(ctrl)
    ensures RStateOk(v)
  {
    var pend := BlockPending(st, total, resetPending, ctrl);
    var xf := XfadeLength(st.active, pend, ctrl.adcXfade);
    var c := if resetPending
             then SetupSpec(st.active, pend, st.phase, CrossfadeStartSample(st.active, xf) * ONE_Q,
                            ctrl.adcXfade, ClampInc(ctrl.incRaw))
             else st.cf;
    ValidateSpec(RState(st.phase, st.active, pend, c, true), total)
  }

  /** The silent block: the PWM midpoint in every slot. */
  function SilentBlock(): (s: seq<int>)
    ensures |s| == BLOCK_SIZE && forall j :: 0 <= j < BLOCK_SIZE ==> s[j] == SILENCE_PWM
  {
    seq(BLOCK_SIZE, _ => SILENCE_PWM)
  }

  /**
   * `ae_render_block`: silence unless playing a bound buffer of at least
   * two samples; otherwise the block set-up followed by 16 iterations of
   * the render loop.  The reset trigger is consumed by the set-up or by a
   * crossfade the loop starts, and the LED blinks exactly for a reset.
   */
  function BlockSpec(st: RState, samples: seq<int>, hasSamples: bool, total: int, state: AeState,
                     resetPending: bool, ctrl: Controls, dsp: Dsp): (b: BlockOut)
    requires RStateOk(st) && IsU32(total) && ControlsOk(ctrl)
    ensures RStateOk(b.st) && |b.outs| == BLOCK_SIZE
  {
    if state != Playing || !hasSamples || total < 2 then BlockOut(st, SilentBlock(), false, false)
    else
      var r := RunSpec(PrepareSpec(st, total, resetPending, ctrl),
                       BlockEnv(st, total, samples, resetPending, ctrl, dsp), BLOCK_SIZE);
      BlockOut(r.st, r.outs, resetPending || r.setUp, resetPending)
  }

  /**
   * A block that does not play is silent and changes nothing; a block that
   * plays writes PWM duties in 0..4094, blinks exactly for a reset trigger
   * and then always consumes it.
   */
  lemma BlockSpecFacts(st: RState, samples: seq<int>, hasSamples: bool, total: int, state: AeState,
                       resetPending: bool, ctrl: Controls, dsp: Dsp)
    requires RStateOk(st) && IsU32(total) && ControlsOk(ctrl)
    ensures var b := BlockSpec(st, samples, hasSamples, total, state, resetPending, ctrl, dsp);
      (state != Playing || !hasSamples || total < 2 ==>
         b.st == st && !b.resetCleared && !b.blink
         && forall j :: 0 <= j < BLOCK_SIZE ==> b.outs[j] == SILENCE_PWM)
      && (state == Playing && hasSamples && total >= 2 ==>
         (forall j :: 0 <= j < BLOCK_SIZE ==> 0 <= b.outs[j] <= 4094)
         && (b.blink <==> resetPending) && (resetPending ==> b.resetCleared))
  {
    if state == Playing && hasSamples && total >= 2 {
      RunOutputsInRange(PrepareSpec(st, total, resetPending, ctrl),
                        BlockEnv(st, total, samples, resetPending, ctrl, dsp), BLOCK_SIZE);
    }
  }

  /** The renderer's module statics and the two output buffers it fills. */
  class LoopRenderer {
    var active: Region
    var pending: Pending
    var cf: Crossfade
    var boundariesCalculated: bool
    const outL: array<int>
    const outR: array<int>

    ghost predicate Valid()
      reads this
    {
      outL.Length == BLOCK_SIZE && outR.Length == BLOCK_SIZE
      && RegionOk(active) && PendingOk(pending) && CrossfadeOk(cf)
    }

    /** The statics with a phase, as the specification functions see them. */
    ghost function Statics(phase: int): RState
      reads this
    {
      RState(phase, active, pending, cf, boundariesCalculated)
    }

    constructor ()
      ensures Valid() && fresh(outL) && fresh(outR)
      ensures active == Region(0, 0) && pending == Pending(0, 0, 0)
      ensures cf == Crossfade(0, 0, 0, 0, 0, 0, 0, 0) && !boundariesCalculated
    {
      active := Region(0, 0);
      pending := Pending(0, 0, 0);
      cf := Crossfade(0, 0, 0, 0, 0, 0, 0, 0);
      boundariesCalculated := false;
      outL := new int[BLOCK_SIZE](_ => 0);
      outR := new int[BLOCK_SIZE](_ => 0);
    }

    /** `ae_reset_loop_boundaries_flag`: force a fresh region proposal. */
    method ResetBoundariesFlag()
      requires Valid()
      modifies this
      ensures Valid() && !boundariesCalculated
      ensures active == old(active) && pending == old(pending) && cf == old(cf)
    {
      boundariesCalculated := false;
    }

    /** `calculate_loop_boundaries`. */
    method CalculateBoundaries(total: int, ctrl: Controls)
      requires Valid() && IsU32(total) && ControlsOk(ctrl)
      modifies this
      ensures Valid() && pending == PendingRegion(total, ctrl.adcStart, ctrl.adcLen)
      ensures active == old(active) && cf == old(cf) && boundariesCalculated == old(boundariesCalculated)
    {
      pending := PendingRegion(total, ctrl.adcStart, ctrl.adcLen);
    }

    /** `setup_crossfade` on the statics: the crossfade becomes the set-up session for the current regions. */
    method SetupCrossfade(phaseNow: int, cfStartQ: int, adcXfade: int, inc: int)
      requires Valid() && IsU64(phaseNow) && IsU64(cfStartQ) && IsU16(adcXfade) && INC_MIN <= inc <= INC_MAX
      modifies this
      ensures Valid()
      ensures cf == SetupSpec(old(active), old(pending), phaseNow, cfStartQ, adcXfade, inc)
      ensures active == old(active) && pending == old(pending) && boundariesCalculated == old(boundariesCalculated)
    {
      var xf := XfadeLength(active, pending, adcXfade);
      var steps := CrossfadeSteps(xf, inc);
      DivBound(cfStartQ, ONE_Q, TWO32);
      var tailStart := cfStartQ / ONE_Q;
      var k := HeadOffset(phaseNow, cfStartQ, xf);
      cf := Crossfade(steps, steps, phaseNow, HeadCursor(pending.start, k),
                      tailStart, U32(tailStart + xf), pending.start, pending.end);
    }

    /** The silent block: every slot of both channels at the PWM midpoint. */
    method FillSilence()
      requires Valid()
      modifies outL, outR
      ensures outL[..] == SilentBlock() && outR[..] == SilentBlock()
      ensures forall j :: 0 <= j < BLOCK_SIZE ==> outL[j] == SILENCE_PWM && outR[j] == SILENCE_PWM
    {
      for i := 0 to BLOCK_SIZE
        invariant forall j :: 0 <= j < i ==> outL[j] == SILENCE_PWM && outR[j] == SILENCE_PWM
      {
        outL[i] := SILENCE_PWM;
        outR[i] := SILENCE_PWM;
      }
      assert outL[..] == SilentBlock();
      assert outR[..] == SilentBlock();
    }

    /** `process_sample`: filter, convert to PWM and write slot `n` of both channels. */
    method Emit(n: int, s: int, dsp: Dsp)
      requires Valid() && 0 <= n < BLOCK_SIZE
      modifies outL, outR
      ensures outL[n] == OutputPwm(s, dsp) && outR[n] == OutputPwm(s, dsp)
      ensures forall j :: 0 <= j < BLOCK_SIZE && j != n ==> outL[j] == old(outL[j]) && outR[j] == old(outR[j])
    {
      var v := OutputPwm(s, dsp);
      outL[n] := v;
      outR[n] := v;
    }

    /** `process_crossfade_step` on the statics, writing slot `n`. */
    method CrossfadeStep(n: int, phaseQ: int, inc: int, samples: seq<int>, dsp: Dsp)
      returns (phaseNext: int, done: bool)
      requires Valid() && 0 <= n < BLOCK_SIZE && cf.stepsRem > 0
      requires IsU64(phaseQ) && INC_MIN <= inc <= INC_MAX
      modifies this, outL, outR
      ensures Valid()
      ensures var x := CrossfadeStepSpec(old(Statics(phaseQ)), inc, samples, dsp);
        Statics(phaseNext) == x.st && outL[n] == x.out && outR[n] == x.out
      ensures forall j :: 0 <= j < BLOCK_SIZE && j != n ==> outL[j] == old(outL[j]) && outR[j] == old(outR[j])
      ensures done <==> cf.stepsRem == 0
    {
      var mixed := CrossfadeMix(cf, samples, dsp);
      Emit(n, mixed, dsp);
      cf := AdvanceSession(cf, inc);
      if cf.stepsRem == 0 {
        phaseNext := cf.headQ;
        active := Region(pending.start, pending.end);
        boundariesCalculated := false;
        done := true;
      } else {
        phaseNext := phaseQ;
        done := false;
      }
    }

    /** Region validation on the statics and the phase. */
    method ValidateActive(total: int, phase: int) returns (phaseNext: int)
      requires Valid() && IsU32(total) && IsU64(phase)
      modifies this
      ensures Valid()
      ensures Statics(phaseNext) == ValidateSpec(old(Statics(phase)), total)
    {
      phaseNext := phase;
      if active.end <= active.start || active.end > total {
        active := Region(pending.start, pending.end);
        var idx0 := phase / ONE_Q;
        if idx0 < active.start || idx0 >= active.end {
          phaseNext := active.start * ONE_Q;
        }
        cf := cf.(stepsRem := 0);
      }
    }

    /** The crossfade start of the render loop at the advanced phase `p1`, writing slot `n`. */
    method StartCrossfade(n: int, p1: int, e: Env) returns (phaseNext: int)
      requires Valid() && 0 <= n < BLOCK_SIZE && IsU64(p1) && EnvOk(e)
      modifies this, outL, outR
      ensures Valid()
      ensures var x := StartCrossfadeSpec(old(Statics(p1)), e);
        Statics(phaseNext) == x.st && outL[n] == x.out && outR[n] == x.out
      ensures forall j :: 0 <= j < BLOCK_SIZE && j != n ==> outL[j] == old(outL[j]) && outR[j] == old(outR[j])
    {
      var cfs := CrossfadeStartSample(active, e.xfLen);
      CalculateBoundaries(e.total, e.ctrl);
      boundariesCalculated := true;
      SetupCrossfade(p1, cfs * ONE_Q, e.ctrl.adcXfade, e.inc);
      var done;
      phaseNext, done := CrossfadeStep(n, p1, e.inc, e.samples, e.dsp);
    }

    /** Plain playback in the render loop at the advanced phase `p1`, writing slot `n`. */
    method Play(n: int, p1: int, e: Env) returns (phaseNext: int)
      requires Valid() && 0 <= n < BLOCK_SIZE && IsU64(p1) && EnvOk(e)
      modifies outL, outR
      ensures var x := PlaySpec(Statics(p1), e);
        Statics(phaseNext) == x.st && outL[n] == x.out && outR[n] == x.out
      ensures forall j :: 0 <= j < BLOCK_SIZE && j != n ==> outL[j] == old(outL[j]) && outR[j] == old(outR[j])
    {
      phaseNext := LoopWrap(p1, active, e.total);
      var s := SampleQ15(e.samples, phaseNext, active.start, active.end, e.dsp.blend);
      Emit(n, s, e.dsp);
    }

    /** A render-loop iteration outside a crossfade at the advanced phase `p1`, writing slot `n`. */
    method Advance(n: int, p1: int, e: Env) returns (phaseNext: int, setUp: bool)
      requires Valid() && 0 <= n < BLOCK_SIZE && IsU64(p1) && EnvOk(e)
      modifies this, outL, outR
      ensures Valid()
      ensures var x := AdvanceSpec(old(Statics(p1)), e);
        Statics(phaseNext) == x.st && outL[n] == x.out && outR[n] == x.out && setUp == x.setUp
      ensures forall j :: 0 <= j < BLOCK_SIZE && j != n ==> outL[j] == old(outL[j]) && outR[j] == old(outR[j])
    {
      if e.xfLen > 0 && p1 >= CrossfadeStartSample(active, e.xfLen) * ONE_Q {
        phaseNext := StartCrossfade(n, p1, e);
        setUp := true;
      } else {
        phaseNext := Play(n, p1, e);
        setUp := false;
      }
    }

    /** One iteration of the render loop, writing slot `n`. */
    method RenderSample(n: int, phaseQ: int, e: Env) returns (phaseNext: int, setUp: bool)
      requires Valid() && 0 <= n < BLOCK_SIZE && IsU64(phaseQ) && EnvOk(e)
      modifies this, outL, outR
      ensures Valid()
      ensures var x := SampleStepSpec(old(Statics(phaseQ)), e);
        Statics(phaseNext) == x.st && outL[n] == x.out && outR[n] == x.out && setUp == x.setUp
      ensures forall j :: 0 <= j < BLOCK_SIZE && j != n ==> outL[j] == old(outL[j]) && outR[j] == old(outR[j])
    {
      ghost var st := Statics(phaseQ);
      if cf.stepsRem != 0 {
        assert SampleStepSpec(st, e) == CrossfadeStepSpec(st, e.inc, e.samples, e.dsp);
        var done;
        phaseNext, done := CrossfadeStep(n, phaseQ, e.inc, e.samples, e.dsp);
        setUp := false;
      } else {
        var p1 := U64(phaseQ + e.inc);
        assert Statics(p1) == st.(phase := p1);
        assert SampleStepSpec(st, e) == AdvanceSpec(Statics(p1), e);
        phaseNext, setUp := Advance(n, p1, e);
      }
    }

    /**
     * The block set-up of `ae_render_block`: fresh boundaries when a reset
     * trigger is pending or none were calculated, the crossfade length for
     * the block, the reset crossfade, and region validation.  `blink` says
     * whether the loop LED is to blink.
     */
    method PrepareBlock(phaseIn: int, total: int, resetPending: bool, ctrl: Controls)
      returns (phaseQ: int, inc: int, xfLen: int, blink: bool)
      requires Valid() && IsU32(total) && IsU64(phaseIn) && ControlsOk(ctrl)
      modifies this
      ensures Valid()
      ensures Statics(phaseQ) == PrepareSpec(old(Statics(phaseIn)), total, resetPending, ctrl)
      ensures var e := BlockEnv(old(Statics(phaseIn)), total, [], resetPending, ctrl, Dsp((_, _, _) => 0, (_, _, _, _) => 0, _ => 0));
        inc == e.inc && xfLen == e.xfLen
      ensures blink == resetPending
    {
      inc := ClampInc(ctrl.incRaw);
      blink := false;
      var needFresh, initiate := false, false;
      if resetPending {
        blink, needFresh, initiate := true, true, true;
      }
      // The block-level approach check runs with a crossfade length of 0 and so never fires.
      if !initiate && cf.stepsRem == 0 {
        var xfLen0 := 0;
        var cfs0 := CrossfadeStartSample(active, xfLen0);
        if xfLen0 > 0 && phaseIn < cfs0 * ONE_Q && U64(phaseIn + inc) >= cfs0 * ONE_Q {
          blink, needFresh, initiate := true, true, true;
        }
      }
      if !boundariesCalculated {
        needFresh := true;
      }
      if needFresh {
        CalculateBoundaries(total, ctrl);
        boundariesCalculated := true;
      }
      xfLen := XfadeLength(active, pending, ctrl.adcXfade);
      if initiate {
        var cfs := CrossfadeStartSample(active, xfLen);
        SetupCrossfade(phaseIn, cfs * ONE_Q, ctrl.adcXfade, inc);
      }
      phaseQ := ValidateActive(total, phaseIn);
    }

    /** Iteration `n` of the render loop of a run from state `v`. */
    method RenderNext(n: int, phaseQ: int, e: Env, ghost v: RState) returns (phaseNext: int, setUp: bool)
      requires Valid() && 0 <= n < BLOCK_SIZE && IsU64(phaseQ) && EnvOk(e) && RStateOk(v)
      requires Statics(phaseQ) == RunSpec(v, e, n).st
      requires outL[..n] == RunSpec(v, e, n).outs && outR[..n] == RunSpec(v, e, n).outs
      modifies this, outL, outR
      ensures Valid() && IsU64(phaseNext)
      ensures var r := RunSpec(v, e, n + 1);
        Statics(phaseNext) == r.st && outL[..n + 1] == r.outs && outR[..n + 1] == r.outs
        && r.setUp == (RunSpec(v, e, n).setUp || setUp)
    {
      ghost var prev := RunSpec(v, e, n);
      ghost var x := SampleStepSpec(prev.st, e);
      assert RunSpec(v, e, n + 1) == Ran(x.st, prev.outs + [x.out], prev.setUp || x.setUp);
      phaseNext, setUp := RenderSample(n, phaseQ, e);
      assert outL[..n + 1] == outL[..n] + [outL[n]] && outR[..n + 1] == outR[..n] + [outR[n]];
    }

    /** The render loop of `ae_render_block`: `BLOCK_SIZE` iterations from phase `phaseIn`. */
    method RunBlock(phaseIn: int, e: Env) returns (phaseOut: int, setUp: bool)
      requires Valid() && IsU64(phaseIn) && EnvOk(e)
      modifies this, outL, outR
      ensures Valid()
      ensures var r := RunSpec(old(Statics(phaseIn)), e, BLOCK_SIZE);
        Statics(phaseOut) == r.st && outL[..] == r.outs && outR[..] == r.outs && setUp == r.setUp
    {
      ghost var v := Statics(phaseIn);
      phaseOut, setUp := phaseIn, false;
      for n := 0 to BLOCK_SIZE
        invariant Valid() && IsU64(phaseOut)
        invariant Statics(phaseOut) == RunSpec(v, e, n).st && setUp == RunSpec(v, e, n).setUp
        invariant outL[..n] == RunSpec(v, e, n).outs && outR[..n] == RunSpec(v, e, n).outs
      {
        var stepped;
        phaseOut, stepped := RenderNext(n, phaseOut, e, v);
        setUp := setUp || stepped;
      }
      assert outL[..] == outL[..BLOCK_SIZE] && outR[..] == outR[..BLOCK_SIZE];
    }

    /**
     * `ae_render_block`: one block of output into both channels.  Returns
     * the new phase, whether the reset trigger flag was consumed and whether
     * the loop LED was blinked.
     */
    method RenderBlock(samples: seq<int>, hasSamples: bool, total: int, state: AeState,
                       phaseIn: int, resetPending: bool, ctrl: Controls, dsp: Dsp)
      returns (phaseOut: int, resetCleared: bool, blink: bool)
      requires Valid() && IsU32(total) && IsU64(phaseIn) && ControlsOk(ctrl)
      modifies this, outL, outR
      ensures Valid()
      ensures var b := BlockSpec(old(Statics(phaseIn)), samples, hasSamples, total, state, resetPending, ctrl, dsp);
        Statics(phaseOut) == b.st && outL[..] == b.outs && outR[..] == b.outs
        && resetCleared == b.resetCleared && blink == b.blink
    {
      if state != Playing || !hasSamples || total < 2 {
        FillSilence();
        phaseOut, resetCleared, blink := phaseIn, false, false;
      } else {
        ghost var st0 := Statics(phaseIn);
        var phaseQ, inc, xfLen, setUp;
        phaseQ, inc, xfLen, blink := PrepareBlock(phaseIn, total, resetPending, ctrl);
        var e := Env(inc, xfLen, total, samples, ctrl, dsp);
        assert e == BlockEnv(st0, total, samples, resetPending, ctrl, dsp);
        phaseOut, setUp := RunBlock(phaseQ, e);
        resetCleared := resetPending || setUp;
      }
    }
  }
}

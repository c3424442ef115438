/**
 * The loop-sampler transport: the IDLE/READY/PLAYING/PAUSED state machine,
 * the bound sample buffer with its base increment and loop spans, the
 * reset-trigger rising-edge detector, the loop LED blink timer, and the
 * audio tick that renders a block when a DMA channel asks for one.
 *
 * Pin levels and `millis()` are parameters; the GPIO, PWM and DMA set-up
 * calls are not part of this model.
 */
module LoopTransport {
  import opened IntArith
  import opened LoopRender

  /** The stored playback direction (ae_mode_t); the renderer never reads it. */
  datatype AeMode = Forward | Reverse | Alternate

  const MIN_LOOP_LEN_CONST: int := 64
  const LOOP_LED_BLINK_MS: int := 10

  /** One call into the transport API. */
  datatype TransportOp = SetMode(mode: AeMode) | Arm(armed: bool) | Play(play: bool)

  /** The transport state after one call. */
  function NextState(s: AeState, op: TransportOp): (t: AeState)
    ensures op.SetMode? ==> t == s
    ensures op.Arm? ==> t == (if op.armed then Ready else Idle)
    ensures op.Play? && s == Idle ==> t == Idle
    ensures op.Play? && s != Idle ==> t == (if op.play then Playing else Paused)
  {
    match op
    case SetMode(_) => s
    case Arm(armed) => if armed then Ready else Idle
    case Play(play) => if s == Idle then s else if play then Playing else Paused
  }

  /** The transport state after a sequence of calls. */
  function Run(s: AeState, ops: seq<TransportOp>): AeState
    decreases |ops|
  {
    if |ops| == 0 then s else Run(NextState(s, ops[0]), ops[1..])
  }

  /** Without an `Arm(true)` call an idle transport stays idle, so it never plays. */
  lemma {:induction false} IdleStaysIdleWithoutArm(ops: seq<TransportOp>)
    requires forall i :: 0 <= i < |ops| ==> ops[i] != Arm(true)
    ensures Run(Idle, ops) == Idle
    decreases |ops|
  {
    if |ops| > 0 {
      assert NextState(Idle, ops[0]) == Idle;
      assert forall i :: 0 <= i < |ops[1..]| ==> ops[1..][i] == ops[i + 1];
      IdleStaysIdleWithoutArm(ops[1..]);
    }
  }

  /** PLAYING is only ever the result of a `Play(true)` call: a run ending in PLAYING that did not start there contains one. */
  lemma {:induction false} PlayingNeedsPlay(s: AeState, ops: seq<TransportOp>)
    requires s != Playing && Run(s, ops) == Playing
    ensures exists i :: 0 <= i < |ops| && ops[i] == Play(true)
    decreases |ops|
  {
    assert |ops| > 0;
    var t := NextState(s, ops[0]);
    if t == Playing {
      assert ops[0] == Play(true);
    } else {
      PlayingNeedsPlay(t, ops[1..]);
      var i :| 0 <= i < |ops[1..]| && ops[1..][i] == Play(true);
      assert ops[i + 1] == Play(true);
    }
  }

  /** `loop_mapper_recalc_spans`: both spans are the buffer length less 64, or 0 for a short buffer. */
  function SpanFor(total: int): (span: int)
    requires IsU32(total)
    ensures span == (if total > MIN_LOOP_LEN_CONST then total - MIN_LOOP_LEN_CONST else 0)
  {
    var minlen := if MIN_LOOP_LEN_CONST < total then MIN_LOOP_LEN_CONST else if total != 0 then total else 1;
    if total > minlen then total - minlen else 0
  }

  /** The Q32.32 base increment `(src << 32) / out`, kept by the 64-bit quotient. */
  function BaseIncrement(src: int, out: int): (inc: int)
    requires IsU32(src) && IsU32(out) && out > 0
    ensures IsU64(inc)
  {
    DivBound(src * ONE_Q, out, TWO64);
    (src * ONE_Q) / out
  }

  /** The base increment is the exact rate ratio rounded down, and 1.0 when the rates agree. */
  lemma BaseIncrementIsFloorRatio(src: int, out: int)
    requires IsU32(src) && IsU32(out) && out > 0
    ensures BaseIncrement(src, out) * out <= src * ONE_Q < (BaseIncrement(src, out) + 1) * out
    ensures src == out ==> BaseIncrement(src, out) == ONE_Q
  {
    var n := src * ONE_Q;
    assert n == (n / out) * out + n % out;
    if src == out {
      DivModUnique(n, out, ONE_Q, 0);
    }
  }

  /** The reset poll: the pending flag is raised by a low-to-high edge and otherwise kept. */
  function PollPending(pending: bool, last: bool, level: bool): bool
  {
    pending || (!last && level)
  }

  /** Whether the level sequence, starting after `last`, contains a low-to-high edge. */
  predicate HasRisingEdge(last: bool, levels: seq<bool>)
    decreases |levels|
  {
    |levels| > 0 && ((!last && levels[0]) || HasRisingEdge(levels[0], levels[1..]))
  }

  /** The poll state after a sequence of pin readings: (pending, last level). */
  function PollRun(pending: bool, last: bool, levels: seq<bool>): (r: (bool, bool))
    decreases |levels|
  {
    if |levels| == 0 then (pending, last)
    else PollRun(PollPending(pending, last, levels[0]), levels[0], levels[1..])
  }

  /**
   * Over any sequence of polls the flag ends raised exactly when it started
   * raised or the pin rose at some point, and the last level is the last
   * reading.
   */
  lemma {:induction false} PollRunRaisesOnRisingEdge(pending: bool, last: bool, levels: seq<bool>)
    ensures PollRun(pending, last, levels).0 == (pending || HasRisingEdge(last, levels))
    ensures |levels| > 0 ==> PollRun(pending, last, levels).1 == levels[|levels| - 1]
    ensures |levels| == 0 ==> PollRun(pending, last, levels).1 == last
    decreases |levels|
  {
    if |levels| > 0 {
      PollRunRaisesOnRisingEdge(PollPending(pending, last, levels[0]), levels[0], levels[1..]);
      if |levels| > 1 {
        assert levels[1..][|levels[1..]| - 1] == levels[|levels| - 1];
      }
    }
  }

  /** The loop LED: on, and the `millis()` time at which it goes off. */
  predicate LedExpired(on: bool, offTime: int, now: int) { on && now >= offTime }

  /** A blink at `now` (when `now + 10` does not wrap) stays lit strictly before `now + 10` and goes off from then on. */
  lemma LedBlinkDuration(now: int, later: int)
    requires IsU32(now) && IsU32(later) && now + LOOP_LED_BLINK_MS < TWO32
    ensures LedExpired(true, U32(now + LOOP_LED_BLINK_MS), later) <==> later >= now + LOOP_LED_BLINK_MS
  {
  }

  /** A snapshot of every transport static, for stating what a call changes. */
  datatype Fields = Fields(state: AeState, mode: AeMode, phase: int, incBase: int, samples: seq<int>,
                           hasSamples: bool, total: int, spanStart: int, spanLen: int,
                           resetPending: bool, resetLastLevel: bool, ledOn: bool, ledOffTime: int,
                           callbackFlagL: int, callbackFlagR: int)

  /** The transport's module statics. */
  class Transport {
    var state: AeState
    var mode: AeMode
    var phase: int
    var incBase: int
    var samples: seq<int>
    var hasSamples: bool
    var total: int
    var spanStart: int
    var spanLen: int
    var resetPending: bool
    var resetLastLevel: bool
    var ledOn: bool
    var ledOffTime: int
    var callbackFlagL: int
    var callbackFlagR: int
    const renderer: LoopRenderer

    ghost predicate Valid()
      reads this, renderer
    {
      renderer.Valid() && IsU64(phase) && IsU64(incBase) && IsU32(total)
      && IsU32(spanStart) && IsU32(spanLen) && IsU32(ledOffTime)
    }

    ghost function Snapshot(): Fields
      reads this
    {
      Fields(state, mode, phase, incBase, samples, hasSamples, total, spanStart, spanLen,
             resetPending, resetLastLevel, ledOn, ledOffTime, callbackFlagL, callbackFlagR)
    }

    constructor ()
      ensures Valid() && fresh(renderer)
      ensures state == Idle && mode == Forward && phase == 0 && incBase == ONE_Q
      ensures !hasSamples && total == 0 && spanStart == 0 && spanLen == 0
      ensures !resetPending && !resetLastLevel && !ledOn && ledOffTime == 0
      ensures callbackFlagL == 0 && callbackFlagR == 0
    {
      state := Idle;
      mode := Forward;
      phase := 0;
      incBase := ONE_Q;
      samples := [];
      hasSamples := false;
      total := 0;
      spanStart := 0;
      spanLen := 0;
      resetPending := false;
      resetLastLevel := false;
      ledOn := false;
      ledOffTime := 0;
      callbackFlagL := 0;
      callbackFlagR := 0;
      renderer := new LoopRenderer();
    }

    /** `audio_engine_set_mode`: only the mode changes. */
    method SetModeOp(m: AeMode)
      requires Valid()
      modifies this
      ensures Valid() && mode == m && state == NextState(old(state), SetMode(m))
      ensures Snapshot() == old(Snapshot()).(mode := m)
    {
      mode := m;
    }

    /** `audio_engine_arm`. */
    method ArmOp(armed: bool)
      requires Valid()
      modifies this
      ensures Valid() && state == NextState(old(state), Arm(armed))
      ensures Snapshot() == old(Snapshot()).(state := NextState(old(state), Arm(armed)))
    {
      state := if armed then Ready else Idle;
    }

    /** `audio_engine_play`: ignored while idle. */
    method PlayOp(play: bool)
      requires Valid()
      modifies this
      ensures Valid() && state == NextState(old(state), Play(play))
      ensures Snapshot() == old(Snapshot()).(state := NextState(old(state), Play(play)))
    {
      if state != Idle {
        state := if play then Playing else Paused;
      }
    }

    /** `loop_mapper_recalc_spans`. */
    method RecalcSpans()
      requires Valid()
      modifies this
      ensures Valid() && spanStart == SpanFor(total) && spanLen == SpanFor(total)
      ensures Snapshot() == old(Snapshot()).(spanStart := SpanFor(old(total)), spanLen := SpanFor(old(total)))
    {
      var minlen := if MIN_LOOP_LEN_CONST < total then MIN_LOOP_LEN_CONST else if total != 0 then total else 1;
      spanStart := if total > minlen then total - minlen else 0;
      spanLen := if total > minlen then total - minlen else 0;
    }

    /** `playback_bind_loaded_buffer`: bind the loaded samples and derive the base increment and spans. */
    method BindLoadedBuffer(srcRate: int, outRate: int, count: int, data: seq<int>)
      requires Valid() && IsU32(srcRate) && IsU32(outRate) && outRate > 0 && IsU32(count)
      modifies this
      ensures Valid() && samples == data && hasSamples && total == count
      ensures incBase == BaseIncrement(srcRate, outRate)
      ensures spanStart == SpanFor(count) && spanLen == SpanFor(count)
      ensures Snapshot() == old(Snapshot()).(samples := data, hasSamples := true, total := count,
                                             incBase := BaseIncrement(srcRate, outRate),
                                             spanStart := SpanFor(count), spanLen := SpanFor(count))
    {
      var inc := BaseIncrement(srcRate, outRate);
      samples := data;
      hasSamples := true;
      total := count;
      incBase := inc;
      RecalcSpans();
    }

    /** `audio_init`: both output buffers start at the PWM midpoint. */
    method AudioInit()
      requires Valid()
      modifies renderer.outL, renderer.outR
      ensures Valid()
      ensures forall j :: 0 <= j < BLOCK_SIZE ==> renderer.outL[j] == SILENCE_PWM && renderer.outR[j] == SILENCE_PWM
    {
      renderer.FillSilence();
    }

    /**
     * `audio_tick`: when either DMA channel has flagged a free buffer, render
     * one block with the transport's state and phase, take the new phase,
     * drop a consumed reset trigger, blink the LED when asked, and clear both
     * flags; otherwise nothing changes.
     */
    method AudioTick(ctrl: Controls, dsp: Dsp, now: int)
      requires Valid() && ControlsOk(ctrl) && IsU32(now)
      modifies this, renderer, renderer.outL, renderer.outR
      ensures Valid()
      ensures !(old(callbackFlagL) > 0 || old(callbackFlagR) > 0) ==>
                Snapshot() == old(Snapshot()) && renderer.Statics(phase) == old(renderer.Statics(phase))
                && renderer.outL[..] == old(renderer.outL[..]) && renderer.outR[..] == old(renderer.outR[..])
      ensures old(callbackFlagL) > 0 || old(callbackFlagR) > 0 ==>
                var b := BlockSpec(old(renderer.Statics(phase)), old(samples), old(hasSamples), old(total),
                                   old(state), old(resetPending), ctrl, dsp);
                renderer.Statics(phase) == b.st && renderer.outL[..] == b.outs && renderer.outR[..] == b.outs
                && Snapshot() == AfterTick(old(Snapshot()), b.st.phase, b.resetCleared, b.blink, now)
    {
      if callbackFlagL > 0 || callbackFlagR > 0 {
        ServiceBlock(ctrl, dsp, now);
      }
    }

    /** The flagged branch of `audio_tick`. */
    method ServiceBlock(ctrl: Controls, dsp: Dsp, now: int)
      requires Valid() && ControlsOk(ctrl) && IsU32(now)
      modifies this, renderer, renderer.outL, renderer.outR
      ensures Valid()
      ensures var b := BlockSpec(old(renderer.Statics(phase)), old(samples), old(hasSamples), old(total),
                                 old(state), old(resetPending), ctrl, dsp);
        renderer.Statics(phase) == b.st && renderer.outL[..] == b.outs && renderer.outR[..] == b.outs
        && Snapshot() == AfterTick(old(Snapshot()), b.st.phase, b.resetCleared, b.blink, now)
    {
      ghost var f0 := Snapshot();
      var phaseOut, cleared, blink := renderer.RenderBlock(samples, hasSamples, total, state, phase, resetPending, ctrl, dsp);
      assert Snapshot() == f0;
      ApplyBlock(phaseOut, cleared, blink, now);
    }

    /** The transport side of a flagged `audio_tick` once the block is rendered. */
    method ApplyBlock(phaseOut: int, cleared: bool, blink: bool, now: int)
      requires Valid() && IsU64(phaseOut) && IsU32(now)
      modifies this
      ensures Valid()
      ensures Snapshot() == AfterTick(old(Snapshot()), phaseOut, cleared, blink, now)
    {
      phase := phaseOut;
      if cleared {
        resetPending := false;
      }
      if blink {
        LedBlink(now);
      }
      callbackFlagL := 0;
      callbackFlagR := 0;
    }
    /** `audio_engine_reset_trigger_init`: remember the current level and clear the flag. */
    method ResetTriggerInit(level: bool)
      requires Valid()
      modifies this
      ensures Valid() && resetLastLevel == level && !resetPending
      ensures Snapshot() == old(Snapshot()).(resetLastLevel := level, resetPending := false)
    {
      resetLastLevel := level;
      resetPending := false;
    }

    /** `audio_engine_reset_trigger_poll`. */
    method ResetTriggerPoll(level: bool)
      requires Valid()
      modifies this
      ensures Valid() && resetPending == PollPending(old(resetPending), old(resetLastLevel), level)
      ensures resetLastLevel == level
      ensures old(resetPending) ==> resetPending
      ensures Snapshot() == old(Snapshot()).(resetPending := PollPending(old(resetPending), old(resetLastLevel), level),
                                             resetLastLevel := level)
    {
      if !resetLastLevel && level {
        resetPending := true;
      }
      resetLastLevel := level;
    }

    /** `audio_engine_loop_led_init`. */
    method LedInit()
      requires Valid()
      modifies this
      ensures Valid() && !ledOn && ledOffTime == 0
      ensures Snapshot() == old(Snapshot()).(ledOn := false, ledOffTime := 0)
    {
      ledOn := false;
      ledOffTime := 0;
    }

    /** `audio_engine_loop_led_update`: switch the LED off once its time has come. */
    method LedUpdate(now: int)
      requires Valid() && IsU32(now)
      modifies this
      ensures Valid() && ledOn == (old(ledOn) && !LedExpired(old(ledOn), ledOffTime, now))
      ensures Snapshot() == old(Snapshot()).(ledOn := old(ledOn) && !LedExpired(old(ledOn), old(ledOffTime), now))
    {
      if ledOn && now >= ledOffTime {
        ledOn := false;
      }
    }

    /** `audio_engine_loop_led_blink`: light the LED for 10 ms of `millis()`, which wraps at 2^32. */
    method LedBlink(now: int)
      requires Valid() && IsU32(now)
      modifies this
      ensures Valid() && ledOn && ledOffTime == U32(now + LOOP_LED_BLINK_MS)
      ensures Snapshot() == old(Snapshot()).(ledOn := true, ledOffTime := U32(now + LOOP_LED_BLINK_MS))
    {
      ledOn := true;
      ledOffTime := U32(now + LOOP_LED_BLINK_MS);
    }
  }


  /**
   * The statics after a flagged audio tick whose block ended at `phaseOut`,
   * consumed the reset trigger when `cleared` and asked for a blink when
   * `blink`: only the phase, the reset flag, the LED and the DMA flags change.
   */
  function AfterTick(f: Fields, phaseOut: int, cleared: bool, blink: bool, now: int): (g: Fields)
    ensures g.phase == phaseOut && g.callbackFlagL == 0 && g.callbackFlagR == 0
    ensures g.resetPending <==> f.resetPending && !cleared
    ensures blink ==> g.ledOn && g.ledOffTime == U32(now + LOOP_LED_BLINK_MS)
    ensures !blink ==> g.ledOn == f.ledOn && g.ledOffTime == f.ledOffTime
    ensures g.(phase := f.phase, resetPending := f.resetPending, ledOn := f.ledOn, ledOffTime := f.ledOffTime,
               callbackFlagL := f.callbackFlagL, callbackFlagR := f.callbackFlagR) == f
  {
    f.(phase := phaseOut, resetPending := f.resetPending && !cleared,
       ledOn := blink || f.ledOn,
       ledOffTime := if blink then U32(now + LOOP_LED_BLINK_MS) else f.ledOffTime,
       callbackFlagL := 0, callbackFlagR := 0)
  }

  /**
   * What one audio tick promises: a flagged tick of a transport that is
   * not playing a buffer of at least 2 samples keeps the phase and a
   * pending reset; a flagged tick that plays with a reset pending clears
   * it and lights the LED for 10 ms; every flagged tick clears both flags.
   */
  lemma TickFacts(st: RState, f: Fields, ctrl: Controls, dsp: Dsp, now: int)
    requires RStateOk(st) && IsU32(f.total) && ControlsOk(ctrl) && IsU32(now)
    ensures var b := BlockSpec(st, f.samples, f.hasSamples, f.total, f.state, f.resetPending, ctrl, dsp);
      (f.state != Playing || !f.hasSamples || f.total < 2 ==> b.st == st && !b.resetCleared && !b.blink)
      && (f.state == Playing && f.hasSamples && f.total >= 2 && f.resetPending ==> b.resetCleared && b.blink)
  {
    BlockSpecFacts(st, f.samples, f.hasSamples, f.total, f.state, f.resetPending, ctrl, dsp);
  }
}

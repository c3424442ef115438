# synth-foundry firmware core in Dafny

This project models the integer core of the synth-foundry firmware: a set
of RP2040 instruments written in C and C++. Each component is one Dafny
module named after the instrument part it models. Contracts and lemmas
state what that part promises.

- **Loop sampler.**
  - The audio render loop (`LoopRender`): loop-region proposal, crossfade setup and stepping, the two-tap interpolator, Q32.32 playback and region repair.
  - The transport (`LoopTransport`): the Idle/Ready/Playing/Paused machine, the span recalculation and the reset-trigger handshake.
  - The 8-pole ladder band-pass (`LadderFilter`) and the ADC smoother (`AdcFilter`).
  - The 4-bit grayscale frame buffer (`Gray4`).
  - The two text log front ends (`LineLog`, `DisplayViews`, `Display`).
  - The waveform view (`UiWaveform`).
  - The two alternative file browsers (`BrowserList`, `UiDisplay`, `UiBrowser`).
  - The loader's WAV and name helpers (`StorageLoader`) and the card helpers (`SdCard`).
- **Horde.**
  - The Q15 utility library (`FixedPoint`). It also stands for the byte-identical copy in `template-rp2040-zero/fixed_point_utils.h`.
  - The TPT band-pass step (`ResonantBandpass`).
  - The 12-bit chord-mask harmony (`HexGlyph`).
  - The engine's noise, glyph and mix logic (`HordeEngine`).
- **Template.** The 2-pole resonant low-pass (`ResonantLowpass`).
- **Oscillator tests.**
  - The moving average (`MovingAverage`).
  - The two phase-increment calculators (`FastFrequency`, `FrequencyCalculator`). `FastFrequency` also stands for the byte-identical copy in `basic-oscillator-test/FastFrequencyCalculator.h`.
  - The quadrature encoder (`Encoder`).
- **Voltage sequencer.** The momentary switch (`MomentarySwitch`).
- **Xylem.**
  - The local metronome (`Metronome`).
  - The sync packet (`SyncPacket`).
  - The context parameter table (`ContextParams`) and the serial command parser (`CommandParser`).
  - Sine-table interpolation (`SineTable`).
  - The PWM render engine (`XylemEngine`).

`IntArith` holds the C integer semantics the modules share:
- the unsigned and signed wrap-around of each width;
- C's truncating division and remainder;
- clamps;
- the uint32 elapsed-time difference used by every timer.

`Wrappers` holds `Option`, and `CStrings` holds NUL-terminated strings, `strncpy`, `snprintf` and `%d`.

The firmware's modelling rules:
- State that the firmware updates in place is a class, with the source's fields and arrays. Each method's `ensures` gives its new state: every field it may change, stated directly, through a snapshot of all the fields, or through the abstract contents that the class's `Valid()` ties its representation to. (A ring buffer's head and tail, for example, are left to `Valid()`.) Lemmas state the properties of the specification functions.
- Time, pin levels, ADC readings and the results of calls into code that is not shown are method parameters.
- Floating-point results are parameters too.
- Display drawing is a returned trace of calls rather than pixels on a panel. The exception is the gray frame buffer, which is modelled byte by byte.

## Model

| member | source | states |
|---|---|---|
| FixedPoint.SatQ15 | horde/fixed_point_utils.h:78-82 | the result is an int16; an int16 input is kept, anything above 32767 becomes 32767 and anything below −32768 becomes −32768 |
| FixedPoint.SatQ15Idempotent | horde/fixed_point_utils.h:78-82 | saturating twice is saturating once |
| FixedPoint.AddQ15 | horde/fixed_point_utils.h:65-70 | the sum of two int16 values stays an int16 |
| FixedPoint.AddQ15IsSaturatedSum | horde/fixed_point_utils.h:65-70 | the Q15 sum is the saturated mathematical sum, and it is commutative |
| FixedPoint.MulQ15 | horde/fixed_point_utils.h:50-56 | the rounded Q15 product of two int16 values stays an int16 |
| FixedPoint.MulQ15Commutative | horde/fixed_point_utils.h:50-56 | Q15 multiplication is commutative |
| FixedPoint.ProductBound | horde/fixed_point_utils.h:50-56 | the int32 product of two int16 values is bounded by 2^30, and only (−32768)·(−32768) exceeds 2^15·(2^15−1) |
| FixedPoint.MulQ15SaturatesOnlyAtMinSquared | horde/fixed_point_utils.h:50-56 | the rounded product leaves the Q15 range exactly for (−32768, −32768), which gives 32767; every other product is exact |
| FixedPoint.RShiftRound | horde/fixed_point_utils.h:91-93 | the rounded shift is the nearest integer to x / 2^s, ties rounding up |
| FixedPoint.FractionOfDifference | horde/fixed_point_utils.h:225-229 | scaling a difference by a Q15 fraction with a floor shift keeps it between 0 and the difference, and a zero fraction or difference gives 0 |
| FixedPoint.IncPhaseQ32 | horde/fixed_point_utils.h:118-120 | the phase advances by the increment modulo 2^32: the plain sum below 2^32, the sum less 2^32 above |
| FixedPoint.Q15ToMix | horde/fixed_point_utils.h:158-160 | a Q15 sample becomes an int32 multiple of 4096 on the Q5.27 mix bus |
| FixedPoint.MixToQ15 | horde/fixed_point_utils.h:168-170 | any mix-bus value comes back as an int16 |
| FixedPoint.MixRoundTrip | horde/fixed_point_utils.h:158-170 | a Q15 sample sent to the mix bus and back is unchanged |
| FixedPoint.OffsetBinary | horde/fixed_point_utils.h:183-189 | flipping bit 15 of an int16 is adding 32768 (offset binary) |
| FixedPoint.Q15ToPwm | horde/fixed_point_utils.h:183-189 | the PWM duty lies in 0..4095 |
| FixedPoint.Q15ToPwmMonotone | horde/fixed_point_utils.h:183-189 | a larger sample never gives a smaller duty |
| FixedPoint.Q15ToPwmEndpoints | horde/fixed_point_utils.h:183-189 | −32768, 0 and 32767 map to 0, 2048 and 4095 |
| FixedPoint.AdcToQ15 | horde/fixed_point_utils.h:199-203 | any uint16 reading gives an int16 |
| FixedPoint.AdcToQ15InRange | horde/fixed_point_utils.h:199-203 | a 12-bit reading is centred at 2048 and scaled by 8 without saturating |
| FixedPoint.LerpQ15 | horde/fixed_point_utils.h:225-229 | the interpolated value is an int16 |
| FixedPoint.LerpQ15Between | horde/fixed_point_utils.h:225-229 | the interpolation lies between its end points and t = 0 gives the first one |
| FixedPoint.PhaseToIndex | horde/fixed_point_utils.h:238-240 | the index is below 2^bits |
| FixedPoint.PhaseToMu | horde/fixed_point_utils.h:249-251 | the fraction is a byte |
| FixedPoint.PhaseSplit | horde/fixed_point_utils.h:238-251 | a phase is its index, its 8-bit fraction and the bits below, so index and fraction read back the phase's top bits |
| LoopRender.PwmFromQ15 | loop-sampler/loop-sampler/audio_engine_render.cpp:63-66 | the PWM value of any int16 sample lies in 0..4094 |
| LoopRender.PwmFromQ15Monotone | loop-sampler/loop-sampler/audio_engine_render.cpp:63-66 | a larger sample never gives a smaller PWM value |
| LoopRender.PwmFromQ15Endpoints | loop-sampler/loop-sampler/audio_engine_render.cpp:63-66 | −32768 maps to 0, 0 to 2047 (one below the 2048 silence level) and 32767 to 4094 |
| LoopRender.ClampInc | loop-sampler/loop-sampler/audio_engine_render.cpp:180-181 | the increment is kept in [2^28, 2^36]: unchanged inside, raised to the minimum below, lowered to the maximum above |
| LoopRender.SpanTotal | loop-sampler/loop-sampler/audio_engine_render.cpp:193 | the start span is the buffer length less 2048, or 0 for a buffer of at most 2048 samples |
| LoopRender.PendingRegion | loop-sampler/loop-sampler/audio_engine_render.cpp:191-204 | the proposed start, length and end are uint32 values and the end never passes the buffer end |
| LoopRender.KnobToSamplesBound | loop-sampler/loop-sampler/audio_engine_render.cpp:196-199 | a 12-bit knob reading maps into [0, span] |
| LoopRender.PendingRegionWellFormed | loop-sampler/loop-sampler/audio_engine_render.cpp:191-204 | for a buffer of 2 to 2^31 samples the region starts within the span, is a non-empty window of the buffer, has a nominal length of at least 2048 and covers at least min(2048, total) samples |
| LoopRender.PendingRegionShortBuffer | loop-sampler/loop-sampler/audio_engine_render.cpp:191-204 | a buffer of at most 2048 samples always loops over all of itself |
| LoopRender.RegionLen | loop-sampler/loop-sampler/audio_engine_render.cpp:211-212 | a region length is at least 1 (an empty or inverted region counts as 1) |
| LoopRender.MinXfade | loop-sampler/loop-sampler/audio_engine_render.cpp:217 | the minimum crossfade is 8 samples when the cap is at least 16, and never exceeds the cap |
| LoopRender.XfadeLength | loop-sampler/loop-sampler/audio_engine_render.cpp:211-229 | the crossfade length lies between the minimum and the cap and is at most half of each loop; knob 0 gives the minimum; any other reading gives its uint32 scaled cap when that lies between the minimum and the cap, the minimum when it falls below and the cap when it rises above |
| LoopRender.KnobScaleBound | loop-sampler/loop-sampler/audio_engine_render.cpp:220 | a Q12 knob reading below 4096 scales a length down |
| LoopRender.TailWindowEndsTheLoop | loop-sampler/loop-sampler/audio_engine_render.cpp:325-330 | for a valid active loop the tail window is the last xf samples of the loop |
| LoopRender.CeilDiv | loop-sampler/loop-sampler/audio_engine_render.cpp:235 | (n + d − 1) / d is the ceiling of n / d |
| LoopRender.CrossfadeSteps | loop-sampler/loop-sampler/audio_engine_render.cpp:234-238 | the step count is a uint32 of at least 1 |
| LoopRender.CrossfadeStepsIsCeiling | loop-sampler/loop-sampler/audio_engine_render.cpp:234-238 | for crossfades up to 2^27 samples the step count is the least count whose total advance covers the crossfade |
| LoopRender.HeadOffset | loop-sampler/loop-sampler/audio_engine_render.cpp:253-254 | the head offset is below the crossfade length, is the whole samples the phase has passed the crossfade start while inside it, and is 2^32 − 1 for an empty crossfade (the guard underflows) |
| LoopRender.HeadCursor | loop-sampler/loop-sampler/audio_engine_render.cpp:255 | the head cursor is the pending start plus the offset, in Q32.32, as a uint64 |
| LoopRender.HeadCursorInsideWindow | loop-sampler/loop-sampler/audio_engine_render.cpp:250-255 | for a non-empty crossfade into a non-empty pending region the head cursor starts on a whole sample inside that region |
| LoopRender.TapsFor | loop-sampler/loop-sampler/audio_engine_render.cpp:349-368 | both taps lie in the window, the second is the next sample or wraps to the window start, the fraction is 8 bits, and a phase inside the window gives its own index and top fraction bits |
| LoopRender.SampleQ15 | loop-sampler/loop-sampler/audio_engine_render.cpp:349-378 | the interpolated sample is an int16, and an empty or inverted window gives silence |
| LoopRender.SampleReadsOnlyWindow | loop-sampler/loop-sampler/audio_engine_render.cpp:349-378 | two buffers that agree on the window give the same interpolated sample |
| LoopRender.CrossfadeMix | loop-sampler/loop-sampler/audio_engine_render.cpp:404-419 | the narrowed crossfade mix is an int16 |
| LoopRender.OutputPwm | loop-sampler/loop-sampler/audio_engine_render.cpp:386-397 | the written PWM value lies in 0..4094 |
| LoopRender.WrapSpec | loop-sampler/loop-sampler/audio_engine_render.cpp:434-439 | the wrapped cursor is a uint64 no larger than the one it started from |
| LoopRender.WrapSpecIsWrap | loop-sampler/loop-sampler/audio_engine_render.cpp:434-439 | the wrapped cursor is the cursor lowered by a whole number of window spans to below the window end, not below its start, and is unchanged when already inside; an empty window keeps it |
| LoopRender.StepSession | loop-sampler/loop-sampler/audio_engine_render.cpp:426-441 | one session step keeps the session well-formed |
| LoopRender.StepSessionAdvances | loop-sampler/loop-sampler/audio_engine_render.cpp:426-441 | one session step counts one step down, keeps both windows, and moves each cursor on by the increment and wraps it inside its own window |
| LoopRender.WrapCursor | loop-sampler/loop-sampler/audio_engine_render.cpp:434-439 | the loop computes the wrap function of its cursor, which for a non-empty window ends below the window end, lowered by whole window spans and not below the start, and is unchanged if it was already inside; an empty window leaves it alone |
| LoopRender.WrapBodyAsWritten | loop-sampler/loop-sampler/audio_engine_render.cpp:430-436 | the loop body as written keeps the cursor a uint64 |
| LoopRender.EmptyWindowWrapNeverExits | loop-sampler/loop-sampler/audio_engine_render.cpp:430-439 | with an empty window the loop body as written leaves the cursor unchanged while the guard still holds, so the loop never ends |
| LoopRender.ResetOnTwoSampleLoopStalls | loop-sampler/loop-sampler/audio_engine_render.cpp:208-255 | a 2-sample buffer reset at normal speed gets a zero-length tail window [2, 2) with one step, and the cursor after one step satisfies the wrap guard |
| LoopRender.SetupSpec | loop-sampler/loop-sampler/audio_engine_render.cpp:208-259 | a set-up crossfade is well-formed and has all its steps left, at least one |
| LoopRender.SetupSpecWindows | loop-sampler/loop-sampler/audio_engine_render.cpp:208-259 | set up at the crossfade point of a valid loop, the tail window is the last xf samples of the loop with its cursor at the phase, and the head cursor starts on a whole sample inside the pending region |
| LoopRender.CrossfadeStepSpec | loop-sampler/loop-sampler/audio_engine_render.cpp:402-450 | a crossfade step keeps the state well-formed, writes a PWM duty in 0..4094 and starts no new crossfade |
| LoopRender.CrossfadeStepEffect | loop-sampler/loop-sampler/audio_engine_render.cpp:402-450 | a crossfade step advances the session and writes the mixed sample; the last step hands playback to the head cursor in the pending region and marks the boundaries stale, the others keep the phase, the regions and the boundaries flag |
| LoopRender.StartCrossfadeSpec | loop-sampler/loop-sampler/audio_engine_render.cpp:472-490 | a sample that starts a crossfade keeps the state well-formed, writes a duty in 0..4094 and reports the set-up |
| LoopRender.PlaySpec | loop-sampler/loop-sampler/audio_engine_render.cpp:492-505 | a played sample keeps the state well-formed, writes a duty in 0..4094 and sets up no crossfade |
| LoopRender.AdvanceSpec | loop-sampler/loop-sampler/audio_engine_render.cpp:468-505 | a sample after the phase advance keeps the state well-formed and writes a duty in 0..4094 |
| LoopRender.SampleStepSpec | loop-sampler/loop-sampler/audio_engine_render.cpp:456-504 | one iteration of the render loop keeps the state well-formed and writes a duty in 0..4094 |
| LoopRender.SampleStepFacts | loop-sampler/loop-sampler/audio_engine_render.cpp:456-504 | a running crossfade takes one step and starts nothing; a sample that starts a crossfade had none running, a non-zero crossfade length and an advanced phase at or past the crossfade point, and takes freshly proposed boundaries; any other sample plays the active loop at the advanced, wrapped phase and changes nothing else |
| LoopRender.RunSpec | loop-sampler/loop-sampler/audio_engine_render.cpp:456-506 | n iterations of the render loop keep the state well-formed and write n values |
| LoopRender.RunOutputsInRange | loop-sampler/loop-sampler/audio_engine_render.cpp:456-506 | every value the render loop writes is a PWM duty in 0..4094 |
| LoopRender.ValidateSpec | loop-sampler/loop-sampler/audio_engine_render.cpp:334-344 | an empty, inverted or out-of-buffer active loop is replaced by the pending one, the crossfade is cancelled, and the phase snaps to the new start unless it already lies inside; a valid loop keeps everything; the pending region and the boundaries flag are always kept |
| LoopRender.BlockPending | loop-sampler/loop-sampler/audio_engine_render.cpp:269-306 | the block works with a well-formed pending region |
| LoopRender.BlockEnv | loop-sampler/loop-sampler/audio_engine_render.cpp:172-322 | the block's clamped increment and crossfade length form a well-formed environment |
| LoopRender.PrepareSpec | loop-sampler/loop-sampler/audio_engine_render.cpp:269-343 | the block set-up keeps the state well-formed |
| LoopRender.SilentBlock | loop-sampler/loop-sampler/audio_engine_render.cpp:111-118 | the silent block is 16 slots of the PWM midpoint 2048 |
| LoopRender.BlockSpec | loop-sampler/loop-sampler/audio_engine_render.cpp:105-510 | a block keeps the state well-formed and writes 16 values |
| LoopRender.BlockSpecFacts | loop-sampler/loop-sampler/audio_engine_render.cpp:105-510 | a block that does not play is silent and changes nothing; a block that plays writes duties in 0..4094, blinks exactly for a pending reset and then always consumes it |
| LoopRender.LoopWrap | loop-sampler/loop-sampler/audio_engine_render.cpp:494-500 | after the fallback the phase lies inside the loop and the buffer, or is the loop start; a phase already inside is kept |
| LoopRender.LoopRenderer.constructor | loop-sampler/loop-sampler/audio_engine_render.cpp:72-83 | the statics start at zero with boundaries not yet calculated |
| LoopRender.LoopRenderer.ResetBoundariesFlag | loop-sampler/loop-sampler/audio_engine_render.cpp:59-61 | only the boundaries flag is cleared |
| LoopRender.LoopRenderer.CalculateBoundaries | loop-sampler/loop-sampler/audio_engine_render.cpp:191-204 | the pending region becomes the proposal for the knobs; nothing else changes |
| LoopRender.LoopRenderer.SetupCrossfade | loop-sampler/loop-sampler/audio_engine_render.cpp:208-259 | the crossfade session becomes the set-up specification for the old regions, the phase and the knob; the regions and the boundaries flag are kept |
| LoopRender.LoopRenderer.FillSilence | loop-sampler/loop-sampler/audio_engine_render.cpp:111-118 | both channels become the silent block: every slot holds the silence level 2048 |
| LoopRender.LoopRenderer.Emit | loop-sampler/loop-sampler/audio_engine_render.cpp:386-397 | slot n of both channels gets the output of the sample, and no other slot changes |
| LoopRender.AdvanceSession | loop-sampler/loop-sampler/audio_engine_render.cpp:426-441 | the two wrap loops compute one session step: both cursors advance by the increment and wrap inside their own windows, the windows are kept, and one step fewer is left |
| LoopRender.LoopRenderer.CrossfadeStep | loop-sampler/loop-sampler/audio_engine_render.cpp:402-450 | the statics become the crossfade step specification of the old ones and slot n of both channels gets its output, no other slot changing; the result says whether the session ended |
| LoopRender.LoopRenderer.ValidateActive | loop-sampler/loop-sampler/audio_engine_render.cpp:334-344 | the statics and the phase become the validation specification of the old ones |
| LoopRender.LoopRenderer.StartCrossfade | loop-sampler/loop-sampler/audio_engine_render.cpp:472-490 | the statics and the phase become those of the crossfade-start specification, and only slot n of the channels is written |
| LoopRender.LoopRenderer.Play | loop-sampler/loop-sampler/audio_engine_render.cpp:492-505 | the phase becomes the played one of the playback specification and only slot n of the channels is written |
| LoopRender.LoopRenderer.Advance | loop-sampler/loop-sampler/audio_engine_render.cpp:468-505 | the statics and the phase become those of the advance specification, and only slot n of the channels is written |
| LoopRender.LoopRenderer.RenderSample | loop-sampler/loop-sampler/audio_engine_render.cpp:456-504 | the statics and the returned phase become one iteration of the render-loop specification from the old ones, slot n of both channels gets its output and no other slot changes, and the result says whether a crossfade was set up |
| LoopRender.LoopRenderer.PrepareBlock | loop-sampler/loop-sampler/audio_engine_render.cpp:269-343 | the statics and the phase become the block set-up specification of the old ones; the increment and crossfade length are the block environment's; the LED blinks exactly for a pending reset |
| LoopRender.LoopRenderer.RenderNext | loop-sampler/loop-sampler/audio_engine_render.cpp:456-506 | one more iteration extends the run specification: the statics and the phase, the channels' first n + 1 slots and the set-up flag are those of n + 1 iterations |
| LoopRender.LoopRenderer.RunBlock | loop-sampler/loop-sampler/audio_engine_render.cpp:456-506 | the statics, the phase, both channels and the set-up flag become those of 16 iterations of the run specification |
| LoopRender.LoopRenderer.RenderBlock | loop-sampler/loop-sampler/audio_engine_render.cpp:105-510 | the returned phase, the active and pending regions, the crossfade session and the boundaries flag, both channels, the consumed reset and the blink all become those of the block specification of the old statics |
| LoopTransport.NextState | loop-sampler/loop-sampler/audio_engine.cpp:45-56 | setting the mode keeps the state; arming gives READY or IDLE; play is ignored while idle and otherwise gives PLAYING or PAUSED |
| LoopTransport.IdleStaysIdleWithoutArm | loop-sampler/loop-sampler/audio_engine.cpp:49-56 | without an arm(true) call an idle transport stays idle through any sequence of calls |
| LoopTransport.PlayingNeedsPlay | loop-sampler/loop-sampler/audio_engine.cpp:53-56 | a run that ends in PLAYING without starting there contains a play(true) call |
| LoopTransport.SpanFor | loop-sampler/loop-sampler/audio_engine.cpp:61-66 | both spans are the buffer length less 64, or 0 for a buffer of at most 64 samples |
| LoopTransport.BaseIncrement | loop-sampler/loop-sampler/audio_engine.cpp:74 | the base increment fits in 64 bits |
| LoopTransport.BaseIncrementIsFloorRatio | loop-sampler/loop-sampler/audio_engine.cpp:74 | the base increment is the source-to-output rate ratio in Q32.32 rounded down, and exactly 1.0 when the rates agree |
| LoopTransport.PollRunRaisesOnRisingEdge | loop-sampler/loop-sampler/audio_engine.cpp:115-121 | over any sequence of polls the flag ends raised exactly when it started raised or the pin went from low to high, and the remembered level is the last reading |
| LoopTransport.LedBlinkDuration | loop-sampler/loop-sampler/audio_engine.cpp:132-141 | a blink at now stays lit before now + 10 ms and is switched off from then on (when now + 10 does not wrap) |
| LoopTransport.Transport.constructor | loop-sampler/loop-sampler/audio_engine.cpp:21-43 | the statics' initial values: idle, forward, phase 0, increment 1.0, no buffer, spans 0, flags and LED off |
| LoopTransport.Transport.SetModeOp | loop-sampler/loop-sampler/audio_engine.cpp:45-47 | the mode becomes the argument and every other field is unchanged |
| LoopTransport.Transport.ArmOp | loop-sampler/loop-sampler/audio_engine.cpp:49-51 | the state becomes READY when armed and IDLE otherwise; every other field is unchanged |
| LoopTransport.Transport.PlayOp | loop-sampler/loop-sampler/audio_engine.cpp:53-56 | the state follows the play rule; every other field is unchanged |
| LoopTransport.Transport.RecalcSpans | loop-sampler/loop-sampler/audio_engine.cpp:61-66 | both spans are recomputed from the buffer length; every other field is unchanged |
| LoopTransport.Transport.BindLoadedBuffer | loop-sampler/loop-sampler/audio_engine.cpp:68-76 | the samples and count are bound, the base increment is the rate ratio and the spans are recomputed; every other field is unchanged |
| LoopTransport.Transport.AudioInit | loop-sampler/loop-sampler/audio_engine.cpp:78-91 | both output buffers hold the silence level |
| LoopTransport.Transport.AudioTick | loop-sampler/loop-sampler/audio_engine.cpp:93-100 | without a pending DMA flag nothing changes; with one, both channels and the renderer become the block specification of the old statics, the phase is the block's, both flags are cleared, the reset flag is cleared when the block consumed it, the LED is lit for 10 ms when it blinked, and every other field is unchanged |
| LoopTransport.Transport.ServiceBlock | loop-sampler/loop-sampler/audio_engine.cpp:94-99 | a serviced block leaves the channels and the renderer as the block specification says and the fields as the tick update says |
| LoopTransport.Transport.ApplyBlock | loop-sampler/loop-sampler/audio_engine.cpp:94-99 | the fields become the tick update of the old ones for the block's phase, consumed reset and blink |
| LoopTransport.Transport.ResetTriggerInit | loop-sampler/loop-sampler/audio_engine.cpp:107-113 | the current level is remembered and the flag cleared; every other field is unchanged |
| LoopTransport.Transport.ResetTriggerPoll | loop-sampler/loop-sampler/audio_engine.cpp:115-121 | the flag is raised on a rising edge and never lowered, and the level is remembered; every other field is unchanged |
| LoopTransport.Transport.LedInit | loop-sampler/loop-sampler/audio_engine.cpp:124-130 | the LED is off with off time 0; every other field is unchanged |
| LoopTransport.Transport.LedUpdate | loop-sampler/loop-sampler/audio_engine.cpp:132-137 | a lit LED goes off once millis() reaches its off time; every other field, the off time included, is unchanged |
| LoopTransport.Transport.LedBlink | loop-sampler/loop-sampler/audio_engine.cpp:139-142 | the LED is lit until millis() + 10, wrapping at 2^32; every other field is unchanged |
| LoopTransport.AfterTick | loop-sampler/loop-sampler/audio_engine.cpp:93-100 | after a block the phase is the block's, both flags are 0, the reset flag stays only when the block did not consume it, a blink lights the LED until now + 10 (uint32), and every other field is kept |
| LoopTransport.TickFacts | loop-sampler/loop-sampler/audio_engine.cpp:93-100 | a block that is not played keeps the renderer's state and a pending reset and does not blink; a played block with a reset pending consumes it and blinks |
| LadderFilter.PoleStep | loop-sampler/loop-sampler/ladder_filter.h:129-135 | one pole update is an int16 |
| LadderFilter.PoleStepBetween | loop-sampler/loop-sampler/ladder_filter.h:129-135 | a pole moves toward its input by (x − pole)·c >> 15 and never past it, so the clamp never fires; a zero coefficient or a settled pole stays put |
| LadderFilter.Cascade | loop-sampler/loop-sampler/ladder_filter.h:127-201 | a cascade keeps one int16 value per pole |
| LadderFilter.CascadeZeroCoefficient | loop-sampler/loop-sampler/ladder_filter.h:127-201 | a zero coefficient leaves every pole where it was |
| LadderFilter.CascadeSettled | loop-sampler/loop-sampler/ladder_filter.h:127-201 | a cascade whose poles all hold the input is at rest |
| LadderFilter.CascadeBetween | loop-sampler/loop-sampler/ladder_filter.h:127-201 | every pole ends between its old value and the value that drove it |
| LadderFilter.Cascade4 | loop-sampler/loop-sampler/ladder_filter.h:127-160 | the four spelled-out pole updates of the source are the cascade of four poles |
| LadderFilter.LowpassCoefficient | loop-sampler/loop-sampler/ladder_filter.h:92-97 | the low-pass coefficient lies in [1024, 32767] |
| LadderFilter.HighpassBelowLowpass | loop-sampler/loop-sampler/ladder_filter.h:100-124 | the high-pass coefficient lies in [512, lp − lp/16], strictly below the low-pass one |
| LadderFilter.BandOutput | loop-sampler/loop-sampler/ladder_filter.h:203-212 | the band output is an int16 |
| LadderFilter.SeededCallIsSilent | loop-sampler/loop-sampler/ladder_filter.h:84-212 | seeding every pole with the input makes the first active call output 0 and leaves the poles unchanged |
| LadderFilter.AdcToBandpassCutoff | loop-sampler/loop-sampler/ladder_filter.h:246-259 | the cutoff lies in [1024, 32767] |
| LadderFilter.AdcToBandpassQ | loop-sampler/loop-sampler/ladder_filter.h:271-282 | the Q lies in [512, 24576] |
| LadderFilter.AdcToLadderCoefficientLinear | loop-sampler/loop-sampler/ladder_filter.h:292-295 | the coefficient is a uint16 |
| LadderFilter.AdcToBandpassCutoffMonotone | loop-sampler/loop-sampler/ladder_filter.h:246-259 | the cutoff mapper is monotone |
| LadderFilter.AdcToBandpassQMonotone | loop-sampler/loop-sampler/ladder_filter.h:271-282 | the Q mapper is monotone |
| LadderFilter.AdcToLadderCoefficientLinearMonotone | loop-sampler/loop-sampler/ladder_filter.h:292-295 | on 12-bit readings the linear mapper is monotone and at most 32767 |
| LadderFilter.AdcMapperEndpoints | loop-sampler/loop-sampler/ladder_filter.h:246-295 | 0 and 4095 map to the ends of each mapper's documented range |
| LadderFilter.LadderBandpass.constructor | loop-sampler/loop-sampler/ladder_filter.h:55-62 | every pole 0, not seeded, remembered coefficients 0 |
| LadderFilter.LadderBandpass.Reset | loop-sampler/loop-sampler/ladder_filter.h:218-224 | every pole, the seeding flag and the remembered coefficients go back to zero |
| LadderFilter.LadderBandpass.Process | loop-sampler/loop-sampler/ladder_filter.h:69-213 | a zero cutoff passes the input through, clearing the filter after an active call; otherwise the poles are seeded on the first active call, both cascades step with the clamped coefficients and the output is the band difference |
| LadderFilter.LadderBandpass.StepCascades | loop-sampler/loop-sampler/ladder_filter.h:127-212 | both cascades step once, the second driven by the last pole of the first, and the output is the band difference |
| ResonantBandpass.Guard | horde/resonant_bandpass.h:44-45 | the guard keeps a value within ±2^33 and leaves a value already inside alone |
| ResonantBandpass.BandpassOutput | horde/resonant_bandpass.h:78-84 | the output is an int16 |
| ResonantBandpass.BandpassStep | horde/resonant_bandpass.h:34-85 | both new integrator states and the band-pass value are within the ±2^33 guard and the output is an int16 |
| ResonantBandpass.ZeroStateZeroInputIsFixed | horde/resonant_bandpass.h:34-85 | a filter at rest with silent input stays at rest and outputs 0 |
| ResonantBandpass.ZeroCutoffBlocksInput | horde/resonant_bandpass.h:34-85 | with g = 0 and a cleared state nothing reaches the integrators or the output, whatever the input |
| ResonantBandpass.RoundQ30Bound | horde/resonant_bandpass.h:78 | a guarded band-pass value rounds into ±2^19, so the int32 narrowing is exact |
| ResonantBandpass.BandpassOutputIsRoundedGain | horde/resonant_bandpass.h:78-84 | for a guarded band-pass value the output is the rounded Q1.15 value times the gain, rounded and saturated, with no narrowing losing bits |
| ResonantBandpass.ResonantBandpass2P.Process | horde/resonant_bandpass.h:34-85 | the integrator states become those of the TPT step, both guarded, the output is the step's, and the coefficients are untouched |
| ResonantLowpass.ClampState | template-rp2040-zero/resonant_lowpass.h:63-64 | the clamp keeps a value in [−32768·256, 32767·256] and an inside value unchanged |
| ResonantLowpass.Drive | template-rp2040-zero/resonant_lowpass.h:58-64 | the drive lies in the state range |
| ResonantLowpass.Integrate | template-rp2040-zero/resonant_lowpass.h:66-78 | an integrator step lies in the state range |
| ResonantLowpass.LowpassOutput | template-rp2040-zero/resonant_lowpass.h:83-86 | the output is an int16 |
| ResonantLowpass.LowpassOutputIsShift | template-rp2040-zero/resonant_lowpass.h:83-86 | for a state in range the output is stage 2 shifted down by 8 and the saturation never fires |
| ResonantLowpass.IntegrateTowardTarget | template-rp2040-zero/resonant_lowpass.h:66-78 | with a coefficient in [0, 1) an integrator moves toward its target and never past it |
| ResonantLowpass.ResonantLowpass2P.Process | template-rp2040-zero/resonant_lowpass.h:49-87 | stage 1 integrates toward the feedback-corrected drive, stage 2 toward the new stage 1, the output is stage 2 shifted down, and the coefficients are untouched |
| ResonantLowpass.StageStep | template-rp2040-zero/resonant_lowpass.h:50-81 | the clamped local steps give stage 1 integrated toward the drive and stage 2 toward the new stage 1 |
| ResonantLowpass.IntegrateStep | template-rp2040-zero/resonant_lowpass.h:67-78 | one integrator update with its clamps is the spec integrator |
| ResonantLowpass.ClampStep | template-rp2040-zero/resonant_lowpass.h:63-64 | the two clamping tests are the state clamp |
| ResonantLowpass.ZeroCutoffFreezesState | template-rp2040-zero/resonant_lowpass.h:66-78 | with g = 0 both stages stay where they were, for any input |
| HexGlyph.SetBitsBelowSpec | horde/HexGlyphHarmony.h:57-63 | the reference listing of set bits is strictly increasing, holds set bits only and misses none |
| HexGlyph.SetBitsPrefix | horde/HexGlyphHarmony.h:57-63 | listing fewer bit positions gives a prefix of the longer listing |
| HexGlyph.PopCountBv | horde/HexGlyphHarmony.h:34-40 | the SWAR popcount equals the bitwise sum of the low 12 bits |
| HexGlyph.CountBvIsLength | horde/HexGlyphHarmony.h:34-40 | the bitwise sum of the bits below n is the length of the listing of set bits below n |
| HexGlyph.Pop12IsBitCount | horde/HexGlyphHarmony.h:34-40 | the popcount is exactly the number of set bits among the low 12, so at most 12 |
| HexGlyph.NormRotation | horde/HexGlyphHarmony.h:30 | the rotation amount is r mod 12, in [0, 12), for negative r too |
| HexGlyph.Rol12 | horde/HexGlyphHarmony.h:29-32 | a rotated mask stays within 12 bits |
| HexGlyph.RolBvInverse | horde/HexGlyphHarmony.h:29-32 | rotating by k and then by 12 − k restores a 12-bit mask |
| HexGlyph.RolBv | horde/HexGlyphHarmony.h:29-32 | the rotation of a 12-bit mask is again a 12-bit mask |
| HexGlyph.Rol12Inverse | horde/HexGlyphHarmony.h:29-32 | rotating by r and then by 12 − r restores a 12-bit mask |
| HexGlyph.RotKeepsPopcount | horde/HexGlyphHarmony.h:29-40 | a rotation by any amount in [0, 12) keeps the popcount of a 12-bit mask |
| HexGlyph.Rol12KeepsPopcount | horde/HexGlyphHarmony.h:29-40 | a rotation by any r keeps the popcount of a 12-bit mask |
| HexGlyph.MaskFrom | horde/HexGlyphHarmony.h:158-167 | the derived mask has 12 bits, and holds the root whenever the root is requested |
| HexGlyph.PopAddRoot | horde/HexGlyphHarmony.h:163-165 | adding an absent root adds one note |
| HexGlyph.MaskFromPopcount | horde/HexGlyphHarmony.h:158-167 | the derived mask has the chord's notes, plus one when the root had to be added |
| HexGlyph.OctaveFromRing | horde/HexGlyphHarmony.h:92-104 | the octave offset lies in [−4, 4] |
| HexGlyph.OctaveFromRingSequence | horde/HexGlyphHarmony.h:92-104 | rings 0, 1, 2, 3, 4, … give offsets 0, +1, −1, +2, −2, …, clamped to ±4 |
| HexGlyph.PickBitsLowToHigh | horde/HexGlyphHarmony.h:57-63 | the count is min(set bits, maxOut), the front of the output holds the lowest set bits in increasing order, and the rest of the output is untouched |
| HexGlyph.Semitones | horde/HexGlyphHarmony.h:169-175 | a chord yields at most 12 semitone indices |
| HexGlyph.IndicesFrom | horde/HexGlyphHarmony.h:169-175 | nothing is written for a missing array or no voices; otherwise the output holds the derived mask's set bits, low to high, at most six |
| HexGlyph.DefaultGlyphChord | horde/HexGlyphHarmony.h:6-22 | the default glyph 0x891 already holds its root, has four notes and yields semitones 0, 4, 7, 11 |
| HexGlyph.MultipliersFrom | horde/HexGlyphHarmony.h:177-206 | no voices for a missing output, no voice count or an empty chord; otherwise min(voiceCount, 6) voices, voice j taking semitone j mod n at octave ring j div n |
| HexGlyph.VoiceAt | horde/HexGlyphHarmony.h:197-203 | a voice is always a note of the chord within four octaves, and the first round of voices sits at the chord's own octave |
| HexGlyph.SpreadVoices | horde/HexGlyphHarmony.h:186-196 | the spread branch fills every requested voice, ring by ring, with the chord's semitones in order |
| HexGlyph.TileVoices | horde/HexGlyphHarmony.h:197-205 | the plain branch gives voice v the semitone v mod n at octave ring v div n |
| HordeEngine.GlyphName | horde/audio_engine.cpp:74-77 | the label is empty exactly when the index is outside the playlist, and is the entry's name otherwise |
| HordeEngine.GlyphCycle | horde/audio_engine.cpp:79-82 | stepping the glyph stays in the playlist, returns after three steps and visits all three glyphs |
| HordeEngine.LcgNext | horde/audio_engine.cpp:106 | the noise state stays a uint32 |
| HordeEngine.NoiseOf | horde/audio_engine.cpp:107 | the noise sample is an int16 |
| HordeEngine.NoiseIsCentredHighHalf | horde/audio_engine.cpp:107 | the sample is the state's high half less 32768 |
| HordeEngine.LcgIter | horde/audio_engine.cpp:106 | any number of generator steps keeps a uint32 state |
| HordeEngine.WeightedIsRounded | horde/audio_engine.cpp:383 | a voice's weighted output is the rounded product of sample and gain, within ±65535, so no narrowing fires |
| HordeEngine.StepFilter | horde/audio_engine.cpp:382 | a filter stepped on a sample keeps a valid state |
| HordeEngine.StepVoices | horde/audio_engine.cpp:381-385 | stepping the active voices keeps every filter valid and the bank size |
| HordeEngine.MixSum | horde/audio_engine.cpp:380-385 | the accumulator stays within n·65535, hence within int32 for six voices |
| HordeEngine.Normalized | horde/audio_engine.cpp:392-394 | the normalised mix is an int16 |
| HordeEngine.SampleOut | horde/audio_engine.cpp:387-396 | the PWM output lies in 0..4095 and is the midpoint 2048 with no active voice |
| HordeEngine.InitialEngine | horde/audio_engine.cpp:43-72 | the static initial values form a valid engine state |
| HordeEngine.InitFilter | horde/audio_engine.cpp:112-114 | an initialised filter has cleared integrators |
| HordeEngine.Tune | horde/audio_engine.cpp:235-236 | retuning keeps the integrator states |
| HordeEngine.TuneIf | horde/audio_engine.cpp:235-236 | a conditional retune keeps a valid filter |
| HordeEngine.TuneVoices | horde/audio_engine.cpp:214-250 | the refresh loop keeps the bank of six valid filters |
| HordeEngine.ActiveGains | horde/audio_engine.cpp:247-275 | the gain table of a refresh has six valid gains |
| HordeEngine.RetuneFilter | horde/audio_engine.cpp:370 | a feedback retune keeps the integrators and the cutoff coefficient |
| HordeEngine.ResetSpec | horde/audio_engine.cpp:325-340 | after a reset the engine is initialised and valid |
| HordeEngine.GlyphVoiceCount | horde/audio_engine.cpp:134-149 | the refresh's voice count lies in 1..6 |
| HordeEngine.WeightFallback | horde/audio_engine.cpp:277-282 | the fallback keeps six valid gains |
| HordeEngine.InitSpec | horde/audio_engine.cpp:111-117 | first use leaves the engine initialised and valid |
| HordeEngine.UpdateSpec | horde/audio_engine.cpp:110-296 | after an update the engine is initialised, valid and clean |
| HordeEngine.RetuneN | horde/audio_engine.cpp:368-371 | the retune loop keeps six valid filters |
| HordeEngine.RetuneSpec | horde/audio_engine.cpp:368-372 | the feedback retune keeps a valid engine |
| HordeEngine.SampleSpec | horde/audio_engine.cpp:376-397 | one sample keeps a valid engine and outputs a PWM value in 0..4095 |
| HordeEngine.RenderSpec | horde/audio_engine.cpp:376-397 | n samples give n outputs and change only the filters and the noise state |
| HordeEngine.GlyphsAlwaysSixVoices | horde/audio_engine.cpp:134-149 | every glyph yields six voices, so the one-voice fallback is never taken |
| HordeEngine.UpdateEffect | horde/audio_engine.cpp:110-296 | with clean parameters an update changes nothing; otherwise all six voices are active with their designed cutoffs and gains, the fallback-adjusted gain table and the new norm, and the rotation restarts |
| HordeEngine.SumNonNegativeZero | horde/audio_engine.cpp:248-277 | a sum of gains is non-negative and zero exactly when every gain is zero |
| HordeEngine.WeightFallbackEffect | horde/audio_engine.cpp:277-282 | voice 0 gets full gain exactly when every gain is zero; otherwise the gains are kept |
| HordeEngine.RetuneTouchesTwoVoices | horde/audio_engine.cpp:368-372 | a feedback retune changes only the two rotated voices, never an integrator or a cutoff, and moves the rotation on by two |
| HordeEngine.FeedbackRotationCoversAllVoices | horde/audio_engine.cpp:368-372 | three consecutive blocks retune all six voices and bring the rotation back |
| HordeEngine.SilentWithoutVoices | horde/audio_engine.cpp:387-390 | with no active voice every sample is the midpoint, the filters are untouched and the noise generator still advances |
| HordeEngine.ResetMutesUntilParamsChange | horde/audio_engine.cpp:325-398 | a reset after initialisation mutes the engine, and the next block without a parameter change is silent |
| HordeEngine.FirstResetInitialises | horde/audio_engine.cpp:325-333 | an uninitialised engine's first reset only initialises the filters and marks the parameters dirty |
| HordeEngine.HordeEngine.constructor | horde/audio_engine.cpp:43-72 | the fields hold the static initial values |
| HordeEngine.HordeEngine.NextGlyph | horde/audio_engine.cpp:79-82 | the glyph steps cyclically and the parameters become dirty; nothing else changes |
| HordeEngine.HordeEngine.SetOctaveShift | horde/audio_engine.cpp:88-93 | the shift is clamped to [−2, 2] and the parameters become dirty; nothing else changes |
| HordeEngine.HordeEngine.SetNoiseFilter | horde/audio_engine.cpp:309-323 | the parameters become dirty; nothing else integer changes |
| HordeEngine.HordeEngine.GenerateNoiseSample | horde/audio_engine.cpp:105-108 | the state takes one LCG step and the sample is the new state's centred high half |
| HordeEngine.HordeEngine.ResetNoiseFilter | horde/audio_engine.cpp:325-340 | the new state is the reset specification of the old |
| HordeEngine.HordeEngine.InitAll | horde/audio_engine.cpp:112-114 | every filter holds the initialised filter |
| HordeEngine.HordeEngine.UpdateNoiseFilter | horde/audio_engine.cpp:110-296 | the new state is the update specification of the old |
| HordeEngine.HordeEngine.GlyphVoiceCountOf | horde/audio_engine.cpp:134-149 | the computed voice count is the specification's |
| HordeEngine.HordeEngine.TuneActive | horde/audio_engine.cpp:214-250 | the filter bank becomes the refresh loop's tuning of the old bank |
| HordeEngine.HordeEngine.SetGains | horde/audio_engine.cpp:247-282 | the gain table becomes the active gains with the unused voices zeroed and the fallback applied |
| HordeEngine.HordeEngine.RetuneFeedback | horde/audio_engine.cpp:368-372 | the new state is the feedback retune specification of the old |
| HordeEngine.HordeEngine.MixVoices | horde/audio_engine.cpp:380-385 | the active filters step on the noise sample and the accumulator is the specification's mix sum |
| HordeEngine.HordeEngine.RenderSample | horde/audio_engine.cpp:376-397 | state and output are the specification's sample step |
| HordeEngine.HordeEngine.RenderBlock | horde/audio_engine.cpp:352-398 | no buffer changes nothing; otherwise the update, the retune and sixteen samples, with the buffer holding the specification's outputs |
| AdcFilter.Median3 | loop-sampler/loop-sampler/adc_filter.h:31-35 | the swap network's result is one of the three readings, no smaller than two of them and no larger than two of them |
| AdcFilter.EmaStepBetween | loop-sampler/loop-sampler/adc_filter.h:46-48 | an EMA step lands between the state and the input, jumps to the input with shift 0, and keeps a state equal to the input |
| AdcFilter.EmaStaysTwelveBit | loop-sampler/loop-sampler/adc_filter.h:46-49 | 12-bit readings keep the EMA state 12-bit |
| AdcFilter.AdcEmaFilter.constructor | loop-sampler/loop-sampler/adc_filter.h:18-24 | the shift is capped at 15 and the state starts uninitialised at zero |
| AdcFilter.AdcEmaFilter.Process | loop-sampler/loop-sampler/adc_filter.h:27-50 | the median history shifts only with the prefilter on; the first reading is taken as is, later ones move the state by the EMA step, and the output is the new state |
| AdcFilter.AdcEmaFilter.SetSmoothingShift | loop-sampler/loop-sampler/adc_filter.h:52-54 | the shift becomes the argument capped at 15, nothing else changes |
| AdcFilter.AdcEmaFilter.EnableMedian3 | loop-sampler/loop-sampler/adc_filter.h:73 | only the prefilter switch changes |
| AdcFilter.AdcEmaFilter.Value | loop-sampler/loop-sampler/adc_filter.h:75 | the reading is the state itself: narrowing it to uint16 loses nothing |
| MovingAverage.SlotsStep | hardware-tests/waveshare-RP2040-zero/basic-oscillator-test/DACless.h:54-57 | one more reading changes only the slot at the write position |
| MovingAverage.SlotsU16 | hardware-tests/waveshare-RP2040-zero/basic-oscillator-test/DACless.h:40-55 | the ring holds uint16 values |
| MovingAverage.SlotSkip | hardware-tests/waveshare-RP2040-zero/basic-oscillator-test/DACless.h:55-57 | readings written to other slots leave a slot unchanged |
| MovingAverage.OverwrittenSlotFull | hardware-tests/waveshare-RP2040-zero/basic-oscillator-test/DACless.h:54-55 | once the ring is full, the slot overwritten holds the reading leaving the window |
| MovingAverage.OverwrittenSlotFilling | hardware-tests/waveshare-RP2040-zero/basic-oscillator-test/DACless.h:48-54 | while the ring fills, the slot overwritten still holds 0 |
| MovingAverage.OverwrittenSlot | hardware-tests/waveshare-RP2040-zero/basic-oscillator-test/DACless.h:54-55 | the subtracted slot is the reading leaving the window, or 0 while the ring fills |
| MovingAverage.RingSumIsWindowSum | hardware-tests/waveshare-RP2040-zero/basic-oscillator-test/DACless.h:53-59 | the ring sums to the last n readings, zeros first |
| MovingAverage.WindowStep | hardware-tests/waveshare-RP2040-zero/basic-oscillator-test/DACless.h:53-57 | one more input adds itself to the window sum and removes the input leaving the window, or a padding zero while the ring fills |
| MovingAverage.ConstantInputSettles | hardware-tests/waveshare-RP2040-zero/basic-oscillator-test/DACless.h:59 | after n equal readings the output is exactly that reading |
| MovingAverage.RingStep | hardware-tests/waveshare-RP2040-zero/basic-oscillator-test/DACless.h:54-59 | one step's new ring and sum, with the bounds that keep the uint32 subtraction, the addition and the uint16 narrowing exact |
| MovingAverage.InitialRing | hardware-tests/waveshare-RP2040-zero/basic-oscillator-test/DACless.h:46-51 | the zeroed ring satisfies the invariant |
| MovingAverage.ProcessKeepsRing | hardware-tests/waveshare-RP2040-zero/basic-oscillator-test/DACless.h:53-59 | process keeps the invariant, its uint32 sum is the window sum and the mean fits uint16 |
| MovingAverage.MovingAverageFilter.constructor | hardware-tests/waveshare-RP2040-zero/basic-oscillator-test/DACless.h:46-51 | the ring is all zero, at index 0 with sum 0 |
| MovingAverage.MovingAverageFilter.Process | hardware-tests/waveshare-RP2040-zero/basic-oscillator-test/DACless.h:53-60 | the oldest reading is replaced by the input, the index advances modulo the size, and the output is the mean of the last filterSize readings |
| FastFrequency.SizeTestIsPowerOfTwo | hardware-tests/waveshare-RP2040-zero/basic-oscillator-test/FastFrequencyCalculator.h:78-79 | the power-of-two test accepts 0 and exactly the sixteen powers of two below 2^16 |
| FastFrequency.RangeOf | hardware-tests/waveshare-RP2040-zero/basic-oscillator-test/FastFrequencyCalculator.h:49-50 | the range is the uint16 difference of the bounds with 0 replaced by 1, so the division is safe |
| FastFrequency.LutScale | hardware-tests/waveshare-RP2040-zero/basic-oscillator-test/FastFrequencyCalculator.h:56 | the scale is the floor of 600·2^16 divided by the range, a uint32 |
| FastFrequency.ScaledAdcInTable | hardware-tests/waveshare-RP2040-zero/basic-oscillator-test/FastFrequencyCalculator.h:96-103 | the uint32 product of the clamped reading never wraps and its integer part is at most 600, the table size, reached at the top of the range |
| FastFrequency.AdcClamped | hardware-tests/waveshare-RP2040-zero/basic-oscillator-test/FastFrequencyCalculator.h:96-98 | readings below the offset or above offset + range act as the nearest end |
| FastFrequency.ShiftLeftU32 | hardware-tests/waveshare-RP2040-zero/basic-oscillator-test/FastFrequencyCalculator.h:115-128 | a uint32 left shift, exact when the product fits |
| FastFrequency.InterpolateBetween | hardware-tests/waveshare-RP2040-zero/basic-oscillator-test/FastFrequencyCalculator.h:118-123 | within the int32 headroom the interpolation lies between the two entries and a zero fraction gives the first |
| FastFrequency.ExtrapolationIsLastEntry | hardware-tests/waveshare-RP2040-zero/basic-oscillator-test/FastFrequencyCalculator.h:107-115 | the extrapolation branch is only reached on entry 599 and returns it unshifted |
| FastFrequency.WholeEntryIsExact | hardware-tests/waveshare-RP2040-zero/basic-oscillator-test/FastFrequencyCalculator.h:102-124 | a position on a whole entry reads that entry |
| FastFrequency.ShiftOctaves | hardware-tests/waveshare-RP2040-zero/basic-oscillator-test/FastFrequencyCalculator.h:126-131 | the shifted increment is a uint32, unchanged for shift 0 and never larger for a downward shift |
| FastFrequency.ShiftUpThenDown | hardware-tests/waveshare-RP2040-zero/basic-oscillator-test/FastFrequencyCalculator.h:127-131 | an upward shift that does not overflow is undone by the same downward shift |
| FastFrequency.CappedShift | hardware-tests/waveshare-RP2040-zero/basic-oscillator-test/FastFrequencyCalculator.h:128-130 | the applied shift is the argument capped at ±15, with its sign kept |
| FastFrequency.SatU32 | hardware-tests/waveshare-RP2040-zero/basic-oscillator-test/FastFrequencyCalculator.h:146-154 | the saturated sum is the sum when it fits, 0 below and 0xFFFFFFFF above |
| FastFrequency.FmIndex | hardware-tests/waveshare-RP2040-zero/basic-oscillator-test/FastFrequencyCalculator.h:136-140 | the FM index never passes the mask and always lies in the table |
| FastFrequency.ApplyFm | hardware-tests/waveshare-RP2040-zero/basic-oscillator-test/FastFrequencyCalculator.h:134-155 | the modulated increment is a uint32 |
| FastFrequency.PhaseIncrementNoFm | hardware-tests/waveshare-RP2040-zero/basic-oscillator-test/FastFrequencyCalculator.h:161-193 | the increment without FM is a uint32 |
| FastFrequency.PhaseIncrement | hardware-tests/waveshare-RP2040-zero/basic-oscillator-test/FastFrequencyCalculator.h:93-158 | the increment is the no-FM increment, then the FM stage exactly when a table of nonzero size is installed |
| FastFrequency.FmAtCentre | hardware-tests/waveshare-RP2040-zero/basic-oscillator-test/FastFrequencyCalculator.h:136-146 | at the centre the first table entry is added, saturated |
| FastFrequency.FmFollowsOffsetSign | hardware-tests/waveshare-RP2040-zero/basic-oscillator-test/FastFrequencyCalculator.h:136-154 | with non-negative entries, FM at or above the centre never lowers the increment, below it never raises it |
| FastFrequency.NoTableNoModulation | hardware-tests/waveshare-RP2040-zero/basic-oscillator-test/FastFrequencyCalculator.h:134 | without a table both getters agree |
| FastFrequency.FastFrequencyCalculator.constructor | hardware-tests/waveshare-RP2040-zero/basic-oscillator-test/FastFrequencyCalculator.h:35-39 | no FM table, size and mask 0, centre 2048; the getters' precondition does not yet hold |
| FastFrequency.FastFrequencyCalculator.Init | hardware-tests/waveshare-RP2040-zero/basic-oscillator-test/FastFrequencyCalculator.h:42-75 | the table holds the given increments, range, offset, scale and centre are set as computed, the FM fields are kept, and a nonzero centre makes the getters usable |
| FastFrequency.FastFrequencyCalculator.SetFmLut | hardware-tests/waveshare-RP2040-zero/basic-oscillator-test/FastFrequencyCalculator.h:78-84 | a table is installed with its size and mask exactly when it is non-null and its size passes the test; nothing else changes |
| FrequencyCalculator.Constrain | hardware-tests/waveshare-RP2040-zero/basic-oscillator-test/FrequencyCalculator.h:150 | the constrained reading lies in the bounds and equals a reading already inside them |
| FrequencyCalculator.ShiftedBase | hardware-tests/waveshare-RP2040-zero/basic-oscillator-test/FrequencyCalculator.h:149-183 | the increment before FM is a uint32 |
| FrequencyCalculator.FmSlot | hardware-tests/waveshare-RP2040-zero/basic-oscillator-test/FrequencyCalculator.h:188-197 | the FM slot lies in the table's upper half |
| FrequencyCalculator.CalculatePhaseIncrement | hardware-tests/waveshare-RP2040-zero/basic-oscillator-test/FrequencyCalculator.h:146-216 | the increment is a uint32 and a reading at the FM centre skips the FM stage |
| FrequencyCalculator.FmSlotOfTwelveBit | hardware-tests/waveshare-RP2040-zero/basic-oscillator-test/FrequencyCalculator.h:186-197 | a 12-bit FM reading reads slot 2048 + its distance from the centre, capped at 4095 |
| FrequencyCalculator.NegativeOffsetReadsLowerHalf | hardware-tests/waveshare-RP2040-zero/basic-oscillator-test/FrequencyCalculator.h:197-200 | below the centre the negated entry equals the mirrored lower-half entry of the antisymmetric table |
| FrequencyCalculator.FmFollowsCentredSign | hardware-tests/waveshare-RP2040-zero/basic-oscillator-test/FrequencyCalculator.h:186-212 | with a non-negative upper half, FM above the centre never lowers the increment and FM below it never raises it |
| FrequencyCalculator.VOctClamped | hardware-tests/waveshare-RP2040-zero/basic-oscillator-test/FrequencyCalculator.h:150 | V/oct readings outside the range act as the nearest end |
| FrequencyCalculator.FrequencyCalc.constructor | hardware-tests/waveshare-RP2040-zero/basic-oscillator-test/FrequencyCalculator.h:123-135 | the range is stored, the V/oct table holds the given increments with offset and scale, and the FM table is antisymmetric with the given depths in its upper half |
| FrequencyCalculator.FrequencyCalc.InitVOctLut | hardware-tests/waveshare-RP2040-zero/basic-oscillator-test/FrequencyCalculator.h:52-75 | the table holds the given increments, the offset is adcMin and the scale is stored; the range is kept |
| FrequencyCalculator.FrequencyCalc.InitFmModLut | hardware-tests/waveshare-RP2040-zero/basic-oscillator-test/FrequencyCalculator.h:81-102 | the FM table is antisymmetric about 2048 and its upper half holds the given depths |
| FrequencyCalculator.FrequencyCalc.SetAdcRange | hardware-tests/waveshare-RP2040-zero/basic-oscillator-test/FrequencyCalculator.h:246-250 | the new bounds are stored and the V/oct table and scale rebuilt; the FM table is kept |
| Encoder.DefaultRotary | hardware-tests/waveshare-RP2040-zero/basic-oscillator-test-dacless/EEncoder.cpp:16-31 | the constructor defaults: the given counts per detent, acceleration off at rate 5 |
| Encoder.DefaultButton | hardware-tests/waveshare-RP2040-zero/basic-oscillator-test-dacless/EEncoder.cpp:22-28 | the constructor defaults: 10 ms debounce and 500 ms long press |
| Encoder.PinState | hardware-tests/waveshare-RP2040-zero/basic-oscillator-test-dacless/EEncoder.cpp:95-97 | the state holds pin A in bit 1 and pin B in bit 0 |
| Encoder.DirectionReverses | hardware-tests/waveshare-RP2040-zero/basic-oscillator-test-dacless/EEncoder.cpp:108-122 | a transition reversed has the opposite direction, and invalid ones stay invalid |
| Encoder.DirectionIsGrayStep | hardware-tests/waveshare-RP2040-zero/basic-oscillator-test-dacless/EEncoder.cpp:108-122 | a change of state counts exactly when one pin changed |
| Encoder.DetentIncrement | hardware-tests/waveshare-RP2040-zero/basic-oscillator-test-dacless/EEncoder.cpp:132-144 | the increment fits int8 and is the sign of the position without acceleration |
| Encoder.ReadEncoderSpec | hardware-tests/waveshare-RP2040-zero/basic-oscillator-test-dacless/EEncoder.cpp:100-168 | the new decoder state is well-formed and records the pins just read |
| Encoder.ReadButtonSpec | hardware-tests/waveshare-RP2040-zero/basic-oscillator-test-dacless/EEncoder.cpp:171-212 | the new button state is well-formed and records the reading just taken |
| Encoder.DetentEmitsSign | hardware-tests/waveshare-RP2040-zero/basic-oscillator-test-dacless/EEncoder.cpp:130-152 | reaching the count gives the sign as increment, restarts the position, and fires the handler if any |
| Encoder.FastDetentAccelerates | hardware-tests/waveshare-RP2040-zero/basic-oscillator-test-dacless/EEncoder.cpp:138-144 | a fast detent at the default rate gives ±5 |
| Encoder.IncrementOnlyAtDetent | hardware-tests/waveshare-RP2040-zero/basic-oscillator-test-dacless/EEncoder.cpp:125-153 | only a detent changes the increment or fires the rotation handler |
| Encoder.InvalidTransitionIgnored | hardware-tests/waveshare-RP2040-zero/basic-oscillator-test-dacless/EEncoder.cpp:111-156 | a transition with both pins changed only records the new state |
| Encoder.IdleResynchronises | hardware-tests/waveshare-RP2040-zero/basic-oscillator-test-dacless/EEncoder.cpp:159-167 | with the pins unchanged a partial count is dropped after more than 100 ms idle and kept otherwise; nothing else changes |
| Encoder.QuadratureCycleIsOneDetent | hardware-tests/waveshare-RP2040-zero/basic-oscillator-test-dacless/EEncoder.cpp:108-153 | one full Gray-code cycle from rest with four counts per detent gives exactly one detent, +1 clockwise and −1 counter-clockwise, on the last step |
| Encoder.JustChangedReadingWaits | hardware-tests/waveshare-RP2040-zero/basic-oscillator-test-dacless/EEncoder.cpp:175-182 | a reading that just changed does not change the button state or fire the press |
| Encoder.StableReadingIsTaken | hardware-tests/waveshare-RP2040-zero/basic-oscillator-test-dacless/EEncoder.cpp:180-183 | a reading stable for the debounce interval becomes the button state |
| Encoder.PressOnlyOnFallingEdge | hardware-tests/waveshare-RP2040-zero/basic-oscillator-test-dacless/EEncoder.cpp:182-194 | the press fires exactly on a debounced high-to-low edge with a handler installed |
| Encoder.LongPressOncePerPress | hardware-tests/waveshare-RP2040-zero/basic-oscillator-test-dacless/EEncoder.cpp:203-209 | the long press fires at most once for each press |
| Encoder.DecodeStep | hardware-tests/waveshare-RP2040-zero/basic-oscillator-test-dacless/EEncoder.cpp:100-168 | the imperative steps compute the decoder specification |
| Encoder.ButtonStep | hardware-tests/waveshare-RP2040-zero/basic-oscillator-test-dacless/EEncoder.cpp:171-212 | the imperative steps compute the button specification |
| Encoder.EEncoder.constructor | hardware-tests/waveshare-RP2040-zero/basic-oscillator-test-dacless/EEncoder.cpp:11-81 | the pins' state and the time are recorded, counters zero, button idle high, enabled |
| Encoder.EEncoder.StoreRotary | hardware-tests/waveshare-RP2040-zero/basic-oscillator-test-dacless/EEncoder.cpp:100-168 | only the decoder fields take the new state |
| Encoder.EEncoder.StoreButton | hardware-tests/waveshare-RP2040-zero/basic-oscillator-test-dacless/EEncoder.cpp:171-212 | only the button fields take the new state |
| Encoder.EEncoder.ReadEncoder | hardware-tests/waveshare-RP2040-zero/basic-oscillator-test-dacless/EEncoder.cpp:100-168 | the decoder fields and the callback follow the decoder specification; the button is untouched |
| Encoder.EEncoder.ReadButton | hardware-tests/waveshare-RP2040-zero/basic-oscillator-test-dacless/EEncoder.cpp:171-212 | the button fields and the callbacks follow the button specification; the decoder is untouched |
| Encoder.EEncoder.Update | hardware-tests/waveshare-RP2040-zero/basic-oscillator-test-dacless/EEncoder.cpp:84-92 | disabled, nothing changes and nothing fires; enabled, the decoder step, then the button step only with a button |
| Encoder.EEncoder.Enable | hardware-tests/waveshare-RP2040-zero/basic-oscillator-test-dacless/EEncoder.cpp:250-257 | disabling zeroes increment and position; enabling changes nothing else |
| Encoder.EEncoder.GetIncrement | hardware-tests/waveshare-RP2040-zero/basic-oscillator-test-dacless/EEncoder.h:66 | the increment read is the last detent's, an int8 |
| MomentarySwitch.DefaultConfig | voltage-sequencer/MomentarySwitch.h:55-57 | the member defaults: 10 ms debounce, 500 ms long press, 300 ms click window, no handlers |
| MomentarySwitch.IsPressedReading | voltage-sequencer/MomentarySwitch.cpp:25 | a reading is a press exactly when it differs from the idle level: low for an active-low switch |
| MomentarySwitch.HandlePress | voltage-sequencer/MomentarySwitch.cpp:57-65 | a press marks the switch pressed at the current time with the long press re-armed, and leaves the clicks alone |
| MomentarySwitch.HandleRelease | voltage-sequencer/MomentarySwitch.cpp:67-88 | a release unpresses; the end of a long press is no click; a second click is a double click |
| MomentarySwitch.EdgeStep | voltage-sequencer/MomentarySwitch.cpp:25-34 | after an edge the pressed state is the reading's |
| MomentarySwitch.LongPressCheck | voltage-sequencer/MomentarySwitch.cpp:37-42 | the long-press check changes neither the pressed state nor the clicks |
| MomentarySwitch.StableStep | voltage-sequencer/MomentarySwitch.cpp:24-43 | the stable-reading stage keeps a well-formed state |
| MomentarySwitch.DebounceStep | voltage-sequencer/MomentarySwitch.cpp:19-43 | the debounce stage keeps a well-formed state |
| MomentarySwitch.ClickTimeout | voltage-sequencer/MomentarySwitch.cpp:46-52 | the click-window stage keeps a well-formed state |
| MomentarySwitch.UpdateSpec | voltage-sequencer/MomentarySwitch.cpp:12-55 | an update keeps a well-formed state and records the reading |
| MomentarySwitch.EdgeNeedsStableReading | voltage-sequencer/MomentarySwitch.cpp:19-34 | the pressed state changes only for a reading stable longer than the debounce time, and then to the reading's level |
| MomentarySwitch.ChangedReadingWaits | voltage-sequencer/MomentarySwitch.cpp:19-24 | a changed reading restarts the debounce timer and fires no press or release |
| MomentarySwitch.PressEventIsPressEdge | voltage-sequencer/MomentarySwitch.cpp:28-64 | the press handler fires exactly on a recognised press with a handler installed |
| MomentarySwitch.LongPressOncePerPress | voltage-sequencer/MomentarySwitch.cpp:37-60 | the long press fires at most once for each press |
| MomentarySwitch.LongPressReleaseIsNoClick | voltage-sequencer/MomentarySwitch.cpp:75-87 | a release that ends a long press is not a click |
| MomentarySwitch.SecondClickIsDoubleClick | voltage-sequencer/MomentarySwitch.cpp:76-86 | a click released while one waits is a double click, and the count restarts |
| MomentarySwitch.SingleClickAfterWindow | voltage-sequencer/MomentarySwitch.cpp:46-52 | the single click fires only with a handler after the window, and the count restarts |
| MomentarySwitch.WaitingClickFires | voltage-sequencer/MomentarySwitch.cpp:46-51 | one click waiting past the window fires |
| MomentarySwitch.Edge | voltage-sequencer/MomentarySwitch.cpp:25-88 | the imperative press and release compute the edge specification |
| MomentarySwitch.Debounce | voltage-sequencer/MomentarySwitch.cpp:19-43 | the imperative debounce computes the debounce specification |
| MomentarySwitch.UpdateStep | voltage-sequencer/MomentarySwitch.cpp:12-55 | the imperative update computes the update specification |
| MomentarySwitch.Switch.constructor | voltage-sequencer/MomentarySwitch.cpp:4-10 | the initial reading is recorded with the switch idle and enabled |
| MomentarySwitch.Switch.Store | voltage-sequencer/MomentarySwitch.cpp:12-55 | only the switch state changes |
| MomentarySwitch.Switch.Update | voltage-sequencer/MomentarySwitch.cpp:12-55 | disabled, nothing changes and nothing fires; enabled, the state and the handlers follow the update specification |
| MomentarySwitch.Switch.GetPressedDuration | voltage-sequencer/MomentarySwitch.cpp:90-93 | zero when released, otherwise the uint32 time since the press |
| MomentarySwitch.Switch.SetEnabled | voltage-sequencer/MomentarySwitch.h:39 | only the enabled flag changes |
| Metronome.WrapReturns | xylem/LocalMetronome.cpp:23-37 | an index advanced by k steps around n slots, 0 < k <= n, is back where it started exactly when k == n |
| Metronome.ModAddReduce | xylem/LocalMetronome.cpp:23-37 | reducing an index before advancing it changes nothing |
| Metronome.RingDrop | xylem/LocalMetronome.cpp:35-37 | after taking the oldest event, the rest are held from the next slot on |
| Metronome.Fitting | xylem/LocalMetronome.cpp:22-30 | the events a queue still takes are a prefix of those pushed, all of them when there is room |
| Metronome.EventQueue.constructor | xylem/LocalMetronome.h:117-126 | the queue starts with no slots and no events |
| Metronome.EventQueue.Reset | xylem/LocalMetronome.cpp:64-66 | the queue has the given number of slots and is empty |
| Metronome.EventQueue.Empty | xylem/LocalMetronome.cpp:41-43 | empty exactly when no events are queued |
| Metronome.EventQueue.EmptyWhenIndicesMeet | xylem/LocalMetronome.cpp:41-43 | head and tail meet exactly when no events are queued |
| Metronome.EventQueue.Push | xylem/LocalMetronome.cpp:22-30 | the push succeeds exactly when fewer than size − 1 events are queued, and then appends the event; a failed push changes nothing |
| Metronome.EventQueue.Pop | xylem/LocalMetronome.cpp:32-39 | the pop succeeds exactly when events are queued, and then returns and removes the oldest; FIFO order |
| Metronome.EventQueue.PushAll | xylem/LocalMetronome.cpp:386-400 | the events that fit are appended in order, the rest are dropped |
| Metronome.EventQueue.Drain | xylem/LocalMetronome.cpp:300-323 | the queue ends empty and each queued event whose handler is installed is delivered, in queue order |
| Metronome.TicksPerBeat | xylem/LocalMetronome.cpp:333 | ticks per beat is ppqn·4 / beatUnit and equals ppqn for a quarter-note beat |
| Metronome.TicksPerBar | xylem/LocalMetronome.cpp:337 | ticks per bar is ticks per beat times beats per bar, without a uint32 wrap |
| Metronome.BarIsBeat | xylem/LocalMetronome.cpp:362-363 | every bar boundary is a beat boundary |
| Metronome.Bbt | xylem/LocalMetronome.cpp:215-224 | bar, beat and tick-within-beat fit their uint32 and uint16 fields |
| Metronome.BbtDecomposes | xylem/LocalMetronome.cpp:215-224 | bar·tpBar + beat·tpBeat + tick == ticks, beat < beats per bar and tick < ticks per beat |
| Metronome.Nudge | xylem/LocalMetronome.cpp:204-213 | a negative delta larger than the position gives 0, otherwise the position moves by the delta |
| Metronome.NudgeNeverUnderflows | xylem/LocalMetronome.cpp:204-213 | a nudge never goes below zero, and a nudge back by the whole position rewinds to zero |
| Metronome.QueuedEvents | xylem/LocalMetronome.cpp:382-400 | the deferred pushes of a tick are bar before beat before tick, all at that tick |
| Metronome.DirectEvents | xylem/LocalMetronome.cpp:366-380 | the direct calls of a tick all carry that tick |
| Metronome.QueuedBarHasBeat | xylem/LocalMetronome.cpp:386-396 | on a consistent meter a queued bar event comes with a beat event |
| Metronome.Handled | xylem/LocalMetronome.cpp:300-323 | update delivers at most the queued events |
| Metronome.AllHandledIsQueue | xylem/LocalMetronome.cpp:300-323 | with every handler installed, update delivers exactly the queue |
| Metronome.HandledAppend | xylem/LocalMetronome.cpp:300-323 | handling a queue in two parts handles it in one |
| Metronome.SlewAsWritten | xylem/LocalMetronome.cpp:423-452 | the slew as written keeps a uint64 interval |
| Metronome.SlewAsWrittenSnapsFasterTempo | xylem/LocalMetronome.cpp:438-444 | as written, an interval of 10000 µs slewing toward 5000 µs at −1000 ppm jumps straight to 5000; corrected, it moves to 9990 |
| Metronome.SlewStep | xylem/LocalMetronome.cpp:423-452 | a zero rate or an interval at the target leaves the interval and zeroes the rate; the rate never grows |
| Metronome.AdjustmentBounds | xylem/LocalMetronome.cpp:438 | the corrected adjustment has the sign of the rate and is at most the interval |
| Metronome.SlewNeverCrossesTarget | xylem/LocalMetronome.cpp:440-444 | the corrected slew never crosses the target, and a rate toward the target keeps the interval between the two |
| Metronome.SlewRateFor | xylem/LocalMetronome.cpp:163-168 | the setBPM rate lies within ±maxPpm, is non-positive for a faster tempo, non-negative for a slower one and 0 for the same |
| Metronome.RawRate | xylem/LocalMetronome.cpp:163-164 | the unclamped rate lies in [−10^6, 0] for a faster tempo and in [0, 2^31) for a slower one up to 2148 times the interval |
| Metronome.RawRateBounds | xylem/LocalMetronome.cpp:163-164 | the bounds of the truncated rate |
| Metronome.FasterTempoSlewsNegative | xylem/LocalMetronome.cpp:163-168 | a slewed tempo increase from 10000 µs to 5000 µs gives the rate −2000 ppm, the input of the wrap |
| Metronome.DefaultConfig | xylem/LocalMetronome.h:8-19 | the defaults are a valid configuration |
| Metronome.MeterFor | xylem/LocalMetronome.cpp:325-338 | ticks per bar is ticks per beat times beats per bar, and a quarter-note beat has ppqn ticks |
| Metronome.MeterPositive | xylem/LocalMetronome.cpp:333-337 | a positive resolution and meter give positive ticks per beat and per bar |
| Metronome.TickClock | xylem/LocalMetronome.cpp:356-452 | corrected: one tick adds one to the uint64 position, takes the slew step and moves the deadline on by the new interval; nothing else changes |
| Metronome.TargetReachedStopsSlewing | xylem/LocalMetronome.cpp:432-435 | at the target the interval stays and the rate becomes zero |
| Metronome.SlewedTempoApproachesTarget | xylem/LocalMetronome.cpp:423-452 | after a slewed tempo change each tick keeps the interval between the old interval and the new target |
| Metronome.Reverse | xylem/LocalMetronome.cpp:366-400 | a sequence reversed |
| Metronome.DeferredIsDirectReversed | xylem/LocalMetronome.cpp:366-400 | on a consistent meter deferred dispatch delivers the direct calls in reverse order: bar, beat, tick |
| Metronome.ReverseThree | xylem/LocalMetronome.cpp:366-400 | three parts of at most one event reverse in order |
| Metronome.HandledOne | xylem/LocalMetronome.cpp:300-323 | a single event is delivered exactly when its handler is installed |
| Metronome.LocalMetronome.constructor | xylem/LocalMetronome.h:82-126 | stopped, uninitialised, 120 BPM at 96 PPQN in 4/4, no handlers, an unsized queue |
| Metronome.LocalMetronome.Begin | xylem/LocalMetronome.cpp:56-93 | refused once initialised, changing nothing; otherwise the configuration, the meter, an empty queue of min(maxEventQueue, 256) slots, and the clock initialised and started if asked |
| Metronome.LocalMetronome.End | xylem/LocalMetronome.cpp:95-114 | stops and clears the initialised flag |
| Metronome.LocalMetronome.Start | xylem/LocalMetronome.cpp:116-126 | only initialised and stopped: running with the first deadline one interval from now |
| Metronome.LocalMetronome.Stop | xylem/LocalMetronome.cpp:128-140 | only the running flag clears |
| Metronome.LocalMetronome.Zero | xylem/LocalMetronome.cpp:142-146 | only the position becomes zero |
| Metronome.LocalMetronome.SetSongTicks | xylem/LocalMetronome.cpp:198-202 | only the position changes |
| Metronome.LocalMetronome.NudgeSongTicks | xylem/LocalMetronome.cpp:204-213 | the position becomes its saturating nudge |
| Metronome.LocalMetronome.GetBbt | xylem/LocalMetronome.cpp:215-224 | the decomposition of the position, with the beat below the beats per bar |
| Metronome.LocalMetronome.SetTimeSignature | xylem/LocalMetronome.cpp:178-182 | the meter is rederived for the new signature |
| Metronome.LocalMetronome.SetPpqn | xylem/LocalMetronome.cpp:184-192 | the meter is rederived and interval and target reset to the given interval |
| Metronome.LocalMetronome.SetBpm | xylem/LocalMetronome.cpp:148-172 | ignored outside 20–999 BPM; otherwise a new target and tempo, with the interval set at once or a clamped slew rate |
| Metronome.LocalMetronome.OnTick | xylem/LocalMetronome.cpp:288-290 | only the tick handler changes |
| Metronome.LocalMetronome.OnBeat | xylem/LocalMetronome.cpp:292-294 | only the beat handler changes |
| Metronome.LocalMetronome.OnBar | xylem/LocalMetronome.cpp:296-298 | only the bar handler changes |
| Metronome.LocalMetronome.Tick | xylem/LocalMetronome.cpp:350-409 | corrected: stopped, nothing; otherwise the clock takes one tick, and the handlers are called at once or the events queued as many as fit |
| Metronome.LocalMetronome.Update | xylem/LocalMetronome.cpp:300-323 | the queue empties and the installed handlers receive the queued events in order |
| SyncPacket.CreateTimingPacket | xylem/SyncPacket.h:46-61 | a valid timing packet whose flags bit 0 is exactly isRunning, reserved 0, carrying the given tempo, resolution, meter and position |
| SyncPacket.CreateTransportPacket | xylem/SyncPacket.h:63-70 | a valid transport packet with flags 1 exactly when starting and every other field 0 |
| SyncPacket.LittleEndian | xylem/SyncPacket.h:18-34 | a field of n bytes is n bytes long |
| SyncPacket.FromLittleEndian | xylem/SyncPacket.h:18-34 | n bytes read back a value below 2^(8n) |
| SyncPacket.LittleEndianRoundTrip | xylem/SyncPacket.h:18-34 | a field written little-endian reads back as itself |
| SyncPacket.Bytes | xylem/SyncPacket.h:17-34 | the packed struct is 16 bytes |
| SyncPacket.HeadBytes | xylem/SyncPacket.h:19-25 | the header half is 8 bytes |
| SyncPacket.TailBytes | xylem/SyncPacket.h:27-31 | the meter-and-position half is 8 bytes |
| SyncPacket.FromBytes | xylem/SyncPacket.h:17-34 | 16 bytes read back as a packet with every field in its width |
| SyncPacket.HeadRoundTrip | xylem/SyncPacket.h:19-25 | the header half reads back field by field |
| SyncPacket.TailRoundTrip | xylem/SyncPacket.h:27-31 | the second half reads back field by field |
| SyncPacket.BytesRoundTrip | xylem/SyncPacket.h:17-34 | the 16-byte layout loses nothing: a packet's bytes read back as that packet |
| SyncPacket.CreatedPacketsSurviveTransfer | xylem/SyncPacket.h:46-75 | both constructors' packets are still valid after being sent as bytes and read back |
| SyncPacket.CalculateChecksum | xylem/SyncPacket.h:83-89 | the loop computes the XOR fold of the data |
| SyncPacket.XorFoldAppend | xylem/SyncPacket.h:83-89 | the checksum of a concatenation is the XOR of the parts' checksums |
| SyncPacket.ChecksumDetects | xylem/SyncPacket.h:83-89 | the empty buffer sums to 0, a buffer followed by its checksum folds to 0, and a single flipped bit always changes the checksum |
| SyncPacket.LatencyStepAsWritten | xylem/SyncPacket.h:99-118 | the update as written keeps uint32 statistics |
| SyncPacket.LatencyAverageWraps | xylem/SyncPacket.h:110 | after 1000 samples of 5 s the uint32 weighted sum wraps and the average falls below both the minimum and the maximum |
| SyncPacket.LatencyStep | xylem/SyncPacket.h:99-118 | the first sample sets min = avg = max = rtt/2 and one sample; later ones keep min ≤ avg ≤ max, take the new extremes, and keep the count in 1..1000, restarting at 100 past 1000 |
| SyncPacket.MeanBetween | xylem/SyncPacket.h:110 | a running mean lies between any bounds on its inputs |
| SyncPacket.LatencyStepAgreesWithoutWrap | xylem/SyncPacket.h:99-118 | while the weighted sum fits uint32 the update as written is the corrected one |
| SyncPacket.LatencyEstimate.constructor | xylem/SyncPacket.h:92-97 | a zeroed estimate has no samples |
| SyncPacket.LatencyEstimate.Update | xylem/SyncPacket.h:99-118 | the estimate becomes the corrected update of the old |
| ContextParams.GetParam | xylem/context_params.cpp:78-98 | a byte field read by name fits uint8 |
| ContextParams.SetParam | xylem/context_params.cpp:39-64 | setting succeeds exactly for the five byte names and never touches the tempo |
| ContextParams.SetThenGet | xylem/context_params.cpp:39-98 | setting succeeds exactly for the five byte names, keeps the root note below 12, reads back as the value (the root note modulo 12), and leaves every other name's value alone; a failed set changes nothing |
| ContextParams.UnknownNameReadsZero | xylem/context_params.cpp:78-98 | a null name and any name that is not a byte parameter, the tempo included, read 0 |
| ContextParams.ApplyTempo | xylem/context_params.cpp:66-72 | the tempo is accepted exactly in 30–300 BPM and then replaces the old one; otherwise nothing changes |
| ContextParams.GetParamName | xylem/context_params.cpp:100-103 | a name exactly for the indices below 5, each a byte parameter |
| ContextParams.GetParamValue | xylem/context_params.cpp:105-114 | each index reads a byte, and every index from 5 on reads 0 |
| ContextParams.GetParamCount | xylem/context_params.cpp:116-118 | the count is the length of the name table, the tempo included |
| ContextParams.IndexAndNameAgree | xylem/context_params.cpp:100-118 | each named index reads the same value as its name; the count says 6 but index 5 has no name and reads 0 |
| ContextParams.GetNoteName | xylem/context_params.cpp:120-123 | "?" exactly from 12 on, otherwise a one- or two-letter note name |
| ContextParams.PacketOf | xylem/context_params.h:39-45 | the packet is five bytes |
| ContextParams.FromPacket | xylem/context_params.h:30-36 | loading a packet keeps the root note below 12 and the tempo |
| ContextParams.PacketRoundTrip | xylem/context_params.h:30-45 | a struct's packet loads back as the struct, and a loaded packet reads back as itself up to the root note's reduction modulo 12 |
| ContextParams.ContextParamsStore.constructor | xylem/context_params.h:27 | the defaults: consonance 128, precision 3, pace 69, density 255, root C, 120 BPM |
| ContextParams.ContextParamsStore.Init | xylem/context_params.cpp:34-37 | the store returns to the defaults |
| ContextParams.ContextParamsStore.SetContextParam | xylem/context_params.cpp:39-64 | the store and the result follow the set specification |
| ContextParams.ContextParamsStore.SetTempo | xylem/context_params.cpp:66-72 | the store and the result follow the tempo specification |
| ContextParams.ContextParamsStore.UpdateFromPacket | xylem/context_params.h:30-36 | the store becomes the struct loaded from the buffer |
| ContextParams.ContextParamsStore.GetPacketData | xylem/context_params.h:39-45 | the first five bytes of the buffer become the packet; the rest is untouched |
| CommandParser.SkipBlanks | xylem/command_parser.cpp:76-78 | what remains is a suffix of the line that starts with neither a space nor a tab |
| CommandParser.SkipSpace | xylem/command_parser.cpp:84 | what remains is a suffix of the line |
| CommandParser.Word | xylem/command_parser.cpp:84 | the word is a prefix of at most the limit, without white space |
| CommandParser.DigitRun | xylem/command_parser.cpp:84 | the digit run is the longest all-digit prefix |
| CommandParser.DecimalValue | xylem/command_parser.cpp:84 | an empty run is 0, and the value's units digit is the run's last character |
| CommandParser.ScanInt | xylem/command_parser.cpp:84 | an integer is read exactly when a digit comes first or right after one sign character; it is negative only after a minus, and never without a sign |
| CommandParser.ScanNameValue | xylem/command_parser.cpp:84 | a scanned name is 1 to 31 characters |
| CommandParser.RejectedLinesChangeNothing | xylem/command_parser.cpp:70-168 | a null or empty line and an unknown command are rejected and change nothing |
| CommandParser.LeadingBlanksIgnored | xylem/command_parser.cpp:75-78 | leading spaces and tabs do not change how a line is parsed |
| CommandParser.EmptyCommandRejected | xylem/command_parser.cpp:84-168 | nothing but blanks is rejected |
| CommandParser.OutOfRangeSetsNothing | xylem/command_parser.cpp:89-100 | a "name value" line out of range is recognised but sets nothing |
| CommandParser.InRangeSetsParam | xylem/command_parser.cpp:84-109 | a "name value" line in range sets exactly that parameter, which reads back as the value |
| CommandParser.ByteParamIsNotTempo | xylem/command_parser.cpp:86 | no byte parameter is named "tempo" |
| CommandParser.AssignSets | xylem/command_parser.cpp:102-109 | after the range check the named parameter takes the value and the others keep theirs |
| CommandParser.BeatToggles | xylem/command_parser.cpp:146-150 | "beat" toggles the beat display, so two restore it |
| CommandParser.BeatIsNotPrint | xylem/command_parser.cpp:114-145 | "beat" is not one of the printing commands |
| CommandParser.BeatIsNotAssignment | xylem/command_parser.cpp:84 | "beat" alone is no "name value" line |
| CommandParser.TempoLineSetsTempo | xylem/command_parser.cpp:84-164 | "tempo " followed by anything sets the tempo the rest reads as, if in range, and is recognised |
| CommandParser.TempoScan | xylem/command_parser.cpp:84-86 | a "tempo " line either fails the "name value" scan or scans the name "tempo" |
| CommandParser.TempoWord | xylem/command_parser.cpp:84-86 | the scanned word of a "tempo " line is "tempo" |
| CommandParser.TempoIsNotPrint | xylem/command_parser.cpp:114-145 | a "tempo" line is not a printing command |
| CommandParser.Edit | xylem/command_parser.cpp:45-66 | the line never passes 63 characters, and a dispatched line is the whole non-empty line, after which the line is empty |
| CommandParser.EditCases | xylem/command_parser.cpp:45-66 | only newline and CR dispatch, never an empty line; backspace and DEL erase the last character; anything else appends while there is room |
| CommandParser.Step | xylem/command_parser.cpp:41-67 | one character keeps the session well-formed |
| CommandParser.Run | xylem/command_parser.cpp:41-67 | a run of characters keeps the session well-formed |
| CommandParser.RunSplits | xylem/command_parser.cpp:41-67 | feeding input in two parts is the same as feeding it at once |
| CommandParser.Parser.constructor | xylem/command_parser.cpp:19-22 | an empty zeroed buffer with the beat display off |
| CommandParser.Parser.Init | xylem/command_parser.cpp:26-29 | an empty zeroed buffer; the beat display is kept |
| CommandParser.Parser.ZeroBuffer | xylem/command_parser.cpp:28-52 | every byte of the buffer is NUL |
| CommandParser.Parser.ParseCommand | xylem/command_parser.cpp:70-169 | the store, the beat flag and the result follow the parse specification |
| CommandParser.Parser.Dispatch | xylem/command_parser.cpp:80-168 | the same, from the first non-blank character |
| CommandParser.Parser.DispatchKeyword | xylem/command_parser.cpp:113-168 | the same for the fixed words and "tempo " |
| CommandParser.Parser.HandleChar | xylem/command_parser.cpp:42-66 | the session becomes the one-character step of the old |
| CommandParser.Parser.ProcessSerialCommands | xylem/command_parser.cpp:39-68 | the session becomes the run of the old over the input |
| SineTable.Index | xylem/tables.cpp:47 | the top 11 bits of a uint32 phase always index the table |
| SineTable.NextIndex | xylem/tables.cpp:54 | the next tap is the following entry, 2047 wrapping to 0 |
| SineTable.LerpBetween | xylem/tables.cpp:58-59 | the interpolation lies between the two taps and moves toward the second as the fraction grows |
| SineTable.PhaseSplits | xylem/tables.cpp:47-50 | the phase is index·2^21 plus a 21-bit fraction |
| SineTable.ZeroFractionIsExact | xylem/tables.cpp:45-62 | a phase on a table entry reads that entry |
| SineTable.InterpolatesBetweenTaps | xylem/tables.cpp:45-62 | with neighbouring taps closer than 1024 the result lies between the two taps |
| SineTable.MonotoneInFraction | xylem/tables.cpp:45-62 | under the same bound a later fraction moves the result toward the second tap |
| XylemEngine.PwmOf | xylem/audio_engine_render.cpp:58-61 | the duty lies in 0..4094 |
| XylemEngine.PwmShape | xylem/audio_engine_render.cpp:58-61 | the duty grows with the sample, from 0 at −32768 through 2047 at silence to 4094 at 32767 |
| XylemEngine.PrecisionFactor | xylem/audio_engine_render.cpp:90 | the Q15 factor lies in 0..32767 and is below one exactly for a precision below 255 |
| XylemEngine.PrecisionFactorBounds | xylem/audio_engine_render.cpp:90 | the same bounds on the raw quotient |
| XylemEngine.Quantize | xylem/audio_engine_render.cpp:97-100 | the quantised sample is an int16 |
| XylemEngine.QuantizeBounds | xylem/audio_engine_render.cpp:98 | a Q15 factor never amplifies and never flips the sign |
| XylemEngine.QuantizeShrinks | xylem/audio_engine_render.cpp:96-100 | the quantiser never amplifies or flips the sign; precision 255 is the identity and 0 silences |
| XylemEngine.PaceFactor | xylem/audio_engine_render.cpp:94 | the tremolo depth factor lies in 0..32767 |
| XylemEngine.TremoloInc | xylem/audio_engine_render.cpp:105 | the tremolo phase always moves, by 1 to 128 |
| XylemEngine.TremoloDepth | xylem/audio_engine_render.cpp:110 | the scaled tremolo is an exact int16 |
| XylemEngine.TremoloGainAsWritten | xylem/audio_engine_render.cpp:111 | as written the gain is the int16 congruent to 32767 + depth/8 modulo 2^16, the value the narrowing store keeps |
| XylemEngine.ApplyTremoloAsWritten | xylem/audio_engine_render.cpp:114-115 | as written the output is the int16 congruent to the product shifted right by 15, modulo 2^16 |
| XylemEngine.DepthBounds | xylem/audio_engine_render.cpp:110 | the shifted product fits int16 |
| XylemEngine.TremoloGainWrapsNegative | xylem/audio_engine_render.cpp:111 | as written, any depth of 8 or more makes the int16 gain negative |
| XylemEngine.FullPaceInvertsSample | xylem/audio_engine_render.cpp:105-115 | at pace 255 the gain as written is −28674 and inverts 16384 into −14337; corrected it is 36862 and gives 18431 |
| XylemEngine.TremoloGain | xylem/audio_engine_render.cpp:111 | the intended gain lies in 28671..36862 |
| XylemEngine.ApplyTremolo | xylem/audio_engine_render.cpp:114-115 | the intended product, saturated, is an int16 |
| XylemEngine.TremoloKeepsSign | xylem/audio_engine_render.cpp:111-115 | with the intended gain and a saturated product (the source narrows the product at line 115 instead) the tremolo keeps the sample's sign and changes its size by at most an eighth |
| XylemEngine.GainBoundsUp | xylem/audio_engine_render.cpp:114 | a non-negative sample times the gain stays within nine eighths of itself |
| XylemEngine.GainBoundsDown | xylem/audio_engine_render.cpp:114 | the same for a negative sample |
| XylemEngine.Effects | xylem/audio_engine_render.cpp:86-118 | corrected: the effect output is an int16 and the tremolo phase moves by its increment, modulo 2^32 |
| XylemEngine.EffectsKeepSilence | xylem/audio_engine_render.cpp:86-118 | silence stays silence |
| XylemEngine.VoiceSample | xylem/audio_engine_render.cpp:175-183 | the voice sample is an int16 and 0 when inactive |
| XylemEngine.VoiceAfterStep | xylem/audio_engine_render.cpp:185 | n + 1 increments are one more increment after n |
| XylemEngine.VoiceAfter | xylem/audio_engine_render.cpp:185 | an inactive voice is unchanged; an active one keeps every field but its phase, which becomes the uint32 residue of phase + n·inc |
| XylemEngine.SampleStep | xylem/audio_engine_render.cpp:173-196 | one slot's duty lies in 0..4094 and the voice advances one increment |
| XylemEngine.Block | xylem/audio_engine_render.cpp:173-196 | a block of n slots has n duties, each in 0..4094 |
| XylemEngine.BlockAdvancesPhases | xylem/audio_engine_render.cpp:173-196 | over n samples an active voice advances by n increments and the tremolo phase by n of its increments, modulo 2^32 |
| XylemEngine.BlockAdvancesVoice | xylem/audio_engine_render.cpp:185 | the voice after a block is the voice advanced n times |
| XylemEngine.PhaseStep | xylem/audio_engine_render.cpp:185 | one more increment on a phase advanced k times is k + 1 increments |
| XylemEngine.BlockAdvancesTremolo | xylem/audio_engine_render.cpp:104-106 | after a block the tremolo phase has moved by n increments |
| XylemEngine.ModAddReduce | xylem/audio_engine_render.cpp:185 | reducing a uint32 before adding to it changes nothing |
| XylemEngine.InactiveVoiceRendersCentre | xylem/audio_engine_render.cpp:173-196 | with an inactive voice every duty of a block is the centre duty |
| XylemEngine.InactiveStepIsCentre | xylem/audio_engine_render.cpp:175-195 | one inactive slot gives the centre duty |
| XylemEngine.Engine.constructor | xylem/audio_engine_render.cpp:37-45 | uninitialised, stopped, an all-zero voice |
| XylemEngine.Engine.Init | xylem/audio_engine_render.cpp:209-223 | the first call initialises and stops; later calls change nothing and all return true |
| XylemEngine.Engine.IsRunning | xylem/audio_engine_render.cpp:230-232 | the running flag |
| XylemEngine.Engine.Start | xylem/audio_engine_render.cpp:240-251 | without initialisation nothing changes; otherwise the test voice starts at phase 0 with amplitude 16383 and a full envelope, and the engine runs |
| XylemEngine.Engine.Stop | xylem/audio_engine_render.cpp:258-264 | the voice goes inactive and the engine stops |
| XylemEngine.Engine.RenderBlock | xylem/audio_engine_render.cpp:155-197 | corrected: nothing without initialisation or a buffer; the centre duty while stopped; otherwise the block's duties and the voice and tremolo state after them |
| XylemEngine.Engine.ProcessCallback | xylem/audio_engine_render.cpp:272-282 | a set flag is cleared and, with a buffer, a 16-slot block is rendered: nothing changes before initialisation, a stopped engine writes the centre duty, and the buffer past slot 16 is untouched; without the flag nothing changes |
| XylemEngine.Engine.FillCentre | xylem/audio_engine_render.cpp:163-166 | the first n slots hold the centre duty, the rest are untouched |
| XylemEngine.Engine.RenderInto | xylem/audio_engine_render.cpp:173-196 | the first n slots hold the block's duties, the rest are untouched |
| Gray4.Shade | loop-sampler/loop-sampler/display_driver.cpp:71 | a shade is clamped to 15 and kept when it is 15 or less |
| Gray4.ByteIndex | loop-sampler/loop-sampler/display_driver.cpp:83 | an on-screen pixel's byte lies inside the 8192-byte buffer |
| Gray4.ByteIndexShared | loop-sampler/loop-sampler/display_driver.cpp:82-92 | two pixels share a byte exactly when they are the two columns of one pair in one row |
| Gray4.Pixel | loop-sampler/loop-sampler/display_driver.cpp:95-107 | a pixel reads as a 4-bit value, 0 off the screen |
| Gray4.Plot | loop-sampler/loop-sampler/display_driver.cpp:76-93 | setting a pixel keeps every byte a byte |
| Gray4.PlotThenPixel | loop-sampler/loop-sampler/display_driver.cpp:76-107 | a set pixel reads back as the clamped shade, every other pixel is unchanged, and an off-screen set changes nothing |
| Gray4.PlotClamped | loop-sampler/loop-sampler/display_driver.cpp:111 | clamping before setting a pixel changes nothing |
| Gray4.HSpanClamped | loop-sampler/loop-sampler/display_driver.cpp:111 | the same for a row span |
| Gray4.VSpanClamped | loop-sampler/loop-sampler/display_driver.cpp:132 | the same for a column span |
| Gray4.Cleared | loop-sampler/loop-sampler/display_driver.cpp:69-74 | a clear leaves a valid buffer |
| Gray4.ClearedPixels | loop-sampler/loop-sampler/display_driver.cpp:69-74 | after a clear every on-screen pixel has the clamped shade |
| Gray4.HSpan | loop-sampler/loop-sampler/display_driver.cpp:123-127 | a row span keeps the buffer valid |
| Gray4.VSpan | loop-sampler/loop-sampler/display_driver.cpp:144-148 | a column span keeps the buffer valid |
| Gray4.HSpanPixels | loop-sampler/loop-sampler/display_driver.cpp:109-128 | a row span sets exactly its on-screen pixels |
| Gray4.VSpanPixels | loop-sampler/loop-sampler/display_driver.cpp:130-149 | a column span sets exactly its on-screen pixels |
| Gray4.Rows | loop-sampler/loop-sampler/display_driver.cpp:201-203 | filled rows keep the buffer valid |
| Gray4.RowsPixels | loop-sampler/loop-sampler/display_driver.cpp:201-203 | filled rows set exactly the on-screen pixels of their rectangle |
| Gray4.HLine | loop-sampler/loop-sampler/display_driver.cpp:109-128 | a horizontal line keeps the buffer valid |
| Gray4.VLine | loop-sampler/loop-sampler/display_driver.cpp:130-149 | a vertical line keeps the buffer valid |
| Gray4.HLinePixels | loop-sampler/loop-sampler/display_driver.cpp:109-128 | a horizontal line sets exactly the on-screen pixels between its ends, given in either order |
| Gray4.VLinePixels | loop-sampler/loop-sampler/display_driver.cpp:130-149 | a vertical line sets exactly the on-screen pixels between its ends |
| Gray4.Outline | loop-sampler/loop-sampler/display_driver.cpp:186-191 | a rectangle outline keeps the buffer valid |
| Gray4.OutlinePixels | loop-sampler/loop-sampler/display_driver.cpp:186-191 | a rectangle at least 1×1 whose far edges fit int16 sets exactly the on-screen pixels of its border |
| Gray4.Filled | loop-sampler/loop-sampler/display_driver.cpp:193-204 | a filled rectangle keeps the buffer valid |
| Gray4.FilledIsRows | loop-sampler/loop-sampler/display_driver.cpp:199-203 | a non-empty clipped rectangle is filled row by row |
| Gray4.ClipAxisBounds | loop-sampler/loop-sampler/display_driver.cpp:195-198 | the clipped span starts on the axis and ends by its edge, whatever the size |
| Gray4.ClipAxisKeeps | loop-sampler/loop-sampler/display_driver.cpp:195-198 | for a non-negative size the clipped span keeps exactly the on-axis part of the requested one |
| Gray4.FilledPixels | loop-sampler/loop-sampler/display_driver.cpp:193-204 | for a non-negative size, filling sets exactly the on-screen pixels of the rectangle |
| Gray4.PlotAll | loop-sampler/loop-sampler/display_driver.cpp:169-183 | a path of pixels keeps the buffer valid |
| Gray4.StepsExtend | loop-sampler/loop-sampler/display_driver.cpp:174-181 | a path extended by one step is still a path of single steps |
| Gray4.WalkStarts | loop-sampler/loop-sampler/display_driver.cpp:163-167 | Bresenham's start satisfies the loop invariant |
| Gray4.WalkStepOk | loop-sampler/loop-sampler/display_driver.cpp:174-181 | one pass keeps the invariant, is one step in the line's directions, and gets strictly closer to the end |
| Gray4.WalkErrStays | loop-sampler/loop-sampler/display_driver.cpp:163-181 | Bresenham's error starts in [−3dy/2, 3dx/2] and every pass keeps it there |
| Gray4.WalkStepAsWritten | loop-sampler/loop-sampler/display_driver.cpp:163-181 | one pass as written, with dx, dy, err and e2 held in int16, keeps err an int16 |
| Gray4.WalkStepAsWrittenAgrees | loop-sampler/loop-sampler/display_driver.cpp:163-181 | for int16 ends at most 8191 apart along each axis the pass as written is the exact-arithmetic pass |
| Gray4.LongLineLeavesBox | loop-sampler/loop-sampler/display_driver.cpp:163-181 | as written, the line (0,0)→(20000,1) first moves y instead of x and then steps to y = 2, past its end, where the exact walk moves x |
| Gray4.BresenhamStep | loop-sampler/loop-sampler/display_driver.cpp:174-181 | before the end at least one coordinate moves, and none moves past its end |
| Gray4.ErrAfterStep | loop-sampler/loop-sampler/display_driver.cpp:176-180 | the error term after a pass matches the invariant's closed form |
| Gray4.Gray4Buffer.constructor | loop-sampler/loop-sampler/display_driver.cpp:14 | the buffer starts all zero |
| Gray4.Gray4Buffer.GetPixel | loop-sampler/loop-sampler/display_driver.cpp:95-107 | the pixel of the buffer |
| Gray4.Gray4Buffer.Clear | loop-sampler/loop-sampler/display_driver.cpp:69-74 | the buffer becomes the cleared one |
| Gray4.Gray4Buffer.SetPixel | loop-sampler/loop-sampler/display_driver.cpp:76-93 | the buffer becomes the one with the pixel set |
| Gray4.Gray4Buffer.DrawHLine | loop-sampler/loop-sampler/display_driver.cpp:109-128 | the buffer becomes the one with the horizontal line |
| Gray4.Gray4Buffer.SpanRow | loop-sampler/loop-sampler/display_driver.cpp:123-127 | the pixel loop sets the row span |
| Gray4.Gray4Buffer.DrawVLine | loop-sampler/loop-sampler/display_driver.cpp:130-149 | the buffer becomes the one with the vertical line |
| Gray4.Gray4Buffer.SpanColumn | loop-sampler/loop-sampler/display_driver.cpp:144-148 | the pixel loop sets the column span |
| Gray4.Gray4Buffer.DrawLine | loop-sampler/loop-sampler/display_driver.cpp:151-184 | a row or a column is drawn by the line routines; otherwise a path from start to end in single steps is drawn |
| Gray4.Gray4Buffer.Walk | loop-sampler/loop-sampler/display_driver.cpp:162-183 | corrected: Bresenham's loop in exact arithmetic ends, and sets a path from the start to the end in single steps in the line's directions |
| Gray4.Gray4Buffer.DrawRect | loop-sampler/loop-sampler/display_driver.cpp:186-191 | the buffer becomes the one with the outline |
| Gray4.Gray4Buffer.FillRect | loop-sampler/loop-sampler/display_driver.cpp:193-204 | the buffer becomes the one with the clipped filled rectangle |
| Gray4.Gray4Buffer.FillRows | loop-sampler/loop-sampler/display_driver.cpp:201-203 | the row loop fills the clipped rows |
| LineLog.Blank | loop-sampler/loop-sampler/display_views.cpp:17-22 | the cleared rows are a valid, empty log |
| LineLog.PushAppends | loop-sampler/loop-sampler/display_views.cpp:24-40 | a push appends the line to the log and, once twenty lines are held, drops the oldest; the count never passes twenty |
| LineLog.Replay | loop-sampler/loop-sampler/display_views.cpp:24-40 | a sequence of pushes keeps the log valid |
| LineLog.ReplayKeepsLast | loop-sampler/loop-sampler/display_views.cpp:24-40 | the log holds exactly the last twenty lines pushed since the clear, or all of them |
| LineLog.Window | loop-sampler/loop-sampler/display_views.cpp:42-58 | the screen shows seven lines, or the whole log when it is shorter, read from the offset in order |
| DisplayViews.LogView.constructor | loop-sampler/loop-sampler/display_views.cpp:10-15 | empty rows, at the top, dirty, auto-scrolling, last tick 0 |
| DisplayViews.LogView.ClearLog | loop-sampler/loop-sampler/display_views.cpp:17-22 | every row empty, count and offset 0, dirty; the rest unchanged |
| DisplayViews.LogView.PrintLine | loop-sampler/loop-sampler/display_views.cpp:24-40 | a null line changes nothing; otherwise the line cut to 42 characters is pushed onto the log and the view is dirty |
| DisplayViews.LogView.ShiftUp | loop-sampler/loop-sampler/display_views.cpp:33-35 | each row takes the one below it and the last is left as it was |
| DisplayViews.LogView.RedrawLog | loop-sampler/loop-sampler/display_views.cpp:42-58 | the shown rows are the window from the offset, and the view is clean |
| DisplayViews.LogView.SetAutoScroll | loop-sampler/loop-sampler/display_views.cpp:60-62 | only the auto-scroll switch changes |
| DisplayViews.LogView.HandleScroll | loop-sampler/loop-sampler/display_views.cpp:64-77 | before 500 ms (uint32) or with auto-scroll off nothing changes; otherwise the tick is taken and the page moves down one row while a page lies below it |
| DisplayViews.LogView.FlushIfDirty | loop-sampler/loop-sampler/display_views.cpp:81-85 | a redraw of the window happens exactly when the view was dirty, and it is then clean |
| DisplayViews.LogView.ShowStatus | loop-sampler/loop-sampler/display_views.cpp:87-95 | the present lines are drawn, in order, and the view counts as clean |
| Display.ScrollBar | loop-sampler/loop-sampler/display.h:135-140 | the scroll bar is at least 2 high and lies inside the border |
| Display.ScrollBarFits | loop-sampler/loop-sampler/display.h:136-138 | the height fits the inner 60 pixels and the proportional top leaves room for it |
| Display.ScrollBarEnds | loop-sampler/loop-sampler/display.h:136-138 | at offset 0 the bar is at the top, and at the last page it touches the bottom border |
| Display.Rows | loop-sampler/loop-sampler/display.h:126-132 | each page row is drawn at baseline 10 + 8·k |
| Display.DisplayClass.constructor | loop-sampler/loop-sampler/display.h:43-49 | no panel, empty rows, at the top, a redraw pending, auto-scrolling |
| Display.DisplayClass.Begin | loop-sampler/loop-sampler/display.h:56-89 | the panel is attached, the log cleared, and true returned |
| Display.DisplayClass.AddLine | loop-sampler/loop-sampler/display.h:92-105 | the line is pushed onto the log and a redraw requested |
| Display.DisplayClass.ShiftUp | loop-sampler/loop-sampler/display.h:99-101 | each row takes the one below it and the last is left as it was |
| Display.DisplayClass.Clear | loop-sampler/loop-sampler/display.h:107-115 | every row empty, at the top, a redraw requested |
| Display.DisplayClass.Update | loop-sampler/loop-sampler/display.h:117-144 | nothing without a panel; otherwise the page's rows at their baselines and, past a page, the scroll bar; then no redraw pending |
| Display.DisplayClass.HandleScroll | loop-sampler/loop-sampler/display.h:147-159 | past a page, with auto-scroll on and more than 500 ms since the last step, the page moves down one row and wraps to the top past the last page |
| Display.DisplayClass.ScrollUp | loop-sampler/loop-sampler/display.h:161-166 | one row up, never above the top |
| Display.DisplayClass.ScrollDown | loop-sampler/loop-sampler/display.h:168-173 | one row down, never past the last page |
| Display.DisplayClass.ScrollToTop | loop-sampler/loop-sampler/display.h:175-178 | to the top, with a redraw |
| Display.DisplayClass.ScrollToBottom | loop-sampler/loop-sampler/display.h:180-185 | to the last page when there is more than one |
| Display.DisplayClass.SetAutoScroll | loop-sampler/loop-sampler/display.h:187-190 | only the auto-scroll switch changes |
| UiWaveform.SeqMin | loop-sampler/loop-sampler/ui_waveform.cpp:35-41 | the least value is an element and no element is smaller |
| UiWaveform.SeqMax | loop-sampler/loop-sampler/ui_waveform.cpp:35-41 | the greatest value is an element and no element is larger |
| UiWaveform.FindMinMaxRange | loop-sampler/loop-sampler/ui_waveform.cpp:26-45 | (0, 0) for an empty range, otherwise the least and greatest samples of the range |
| UiWaveform.Extent | loop-sampler/loop-sampler/ui_waveform.cpp:73-79 | the inline scan from 32767 and −32768 finds the least and greatest samples of its range |
| UiWaveform.Peak | loop-sampler/loop-sampler/ui_waveform.cpp:79-80 | the scale bounds every sample's magnitude and is the magnitude of some sample |
| UiWaveform.ColumnsCover | loop-sampler/loop-sampler/ui_waveform.cpp:94-100 | each of the 256 columns reads a non-empty range inside the sample; the first starts at 0, the last ends at the end, and no samples are skipped between columns |
| UiWaveform.RowOf | loop-sampler/loop-sampler/ui_waveform.cpp:111-117 | a value's row lies on the 64-row panel |
| UiWaveform.RowOfMonotone | loop-sampler/loop-sampler/ui_waveform.cpp:111-117 | a larger value is never drawn lower, and 0 sits on the middle row |
| UiWaveform.CDivMonotone | loop-sampler/loop-sampler/ui_waveform.cpp:111-112 | C's truncating division by a positive divisor is monotone |
| UiWaveform.ColumnOrdered | loop-sampler/loop-sampler/ui_waveform.cpp:102-117 | a column's top lies at or above its bottom |
| UiWaveform.DrawColumn | loop-sampler/loop-sampler/ui_waveform.cpp:120-124 | a drawn column keeps the buffer valid |
| UiWaveform.Envelope | loop-sampler/loop-sampler/ui_waveform.cpp:94-125 | the drawn columns keep the buffer valid |
| UiWaveform.Image | loop-sampler/loop-sampler/ui_waveform.cpp:54-129 | the drawn image is a valid buffer |
| UiWaveform.ScaleOrdersColumns | loop-sampler/loop-sampler/ui_waveform.cpp:94-125 | every column is ordered at any scale |
| UiWaveform.Strokes | loop-sampler/loop-sampler/ui_waveform.cpp:120-124 | drawn strokes keep the buffer valid |
| UiWaveform.ColumnRows | loop-sampler/loop-sampler/ui_waveform.cpp:94-117 | the k-th entry is column k's rows |
| UiWaveform.EnvelopeIsStrokes | loop-sampler/loop-sampler/ui_waveform.cpp:94-125 | the envelope is the strokes of the columns' rows |
| UiWaveform.StrokesPixels | loop-sampler/loop-sampler/ui_waveform.cpp:120-124 | over black, ordered strokes light exactly their rows in their columns |
| UiWaveform.EnvelopePixels | loop-sampler/loop-sampler/ui_waveform.cpp:94-125 | over black, the envelope lights in each column exactly the rows from its top to its bottom |
| UiWaveform.ImagePixels | loop-sampler/loop-sampler/ui_waveform.cpp:54-129 | for a sample with a peak of at least 1, each column lights exactly the rows between its greatest and least sample |
| UiWaveform.DrawColumnPixels | loop-sampler/loop-sampler/ui_waveform.cpp:120-124 | an ordered column lights exactly its rows in that column |
| UiWaveform.EnvelopeStep | loop-sampler/loop-sampler/ui_waveform.cpp:95-117 | the rows the loop computes for a column are those of the column's range |
| UiWaveform.CentreLinePixels | loop-sampler/loop-sampler/ui_waveform.cpp:62-67 | with nothing to draw, the panel is black but for the centre row in shade 6 |
| UiWaveform.WaveformView.constructor | loop-sampler/loop-sampler/ui_waveform.cpp:20-23 | no sample, zero count and rate, inactive |
| UiWaveform.WaveformView.Init | loop-sampler/loop-sampler/ui_waveform.cpp:47-52 | the sample, count and rate recorded, and active |
| UiWaveform.WaveformView.Exit | loop-sampler/loop-sampler/ui_waveform.cpp:135-139 | inactive, and the sample kept |
| UiWaveform.WaveformView.OnTurn | loop-sampler/loop-sampler/ui_waveform.cpp:141-148 | handled exactly for a zero step; any other step leaves the view |
| UiWaveform.WaveformView.OnButton | loop-sampler/loop-sampler/ui_waveform.cpp:150-154 | a press leaves the view and is not handled |
| UiWaveform.WaveformView.Draw | loop-sampler/loop-sampler/ui_waveform.cpp:54-129 | the frame buffer becomes the image of the recorded sample |
| UiWaveform.WaveformView.DrawColumns | loop-sampler/loop-sampler/ui_waveform.cpp:94-125 | the column loop draws the envelope over all 256 columns |
| CStrings.CStr | loop-sampler/loop-sampler/display_views.cpp:29-30 | a C string is the prefix before the first NUL and holds none; a NUL-free buffer is read whole |
| CStrings.CStrStopsAtNul | loop-sampler/loop-sampler/display_views.cpp:29-30 | what follows the first NUL does not change the string |
| CStrings.Truncated | loop-sampler/loop-sampler/display_views.cpp:29-30 | strncpy then a NUL reads back as the first n characters of the C string, or all of it |
| CStrings.ClippedIsTruncated | loop-sampler/loop-sampler/ui_browser.cpp:55 | snprintf of a NUL-free text reads back the same as strncpy |
| CStrings.DigitChar | loop-sampler/loop-sampler/ui_browser.cpp:62 | a digit's character is '0' to '9' and reads back as the digit |
| CStrings.Digits | loop-sampler/loop-sampler/ui_browser.cpp:62 | the decimal digits are non-empty with no leading zero except for 0 |
| CStrings.FormatInt | loop-sampler/loop-sampler/ui_browser.cpp:62 | %d writes a minus sign for a negative value, then digits |
| CStrings.DigitsRoundTrip | loop-sampler/loop-sampler/ui_browser.cpp:62 | the digits read back as the value |
| CStrings.FormatIntRoundTrip | loop-sampler/loop-sampler/ui_browser.cpp:62 | %d reads back as the value, and distinct values print differently |
| CStrings.LowerAscii | loop-sampler/loop-sampler/sdcard.h:123 | tolower changes only 'A' to 'Z', each to its lower case |
| CStrings.Lower | loop-sampler/loop-sampler/sdcard.h:123 | toLowerCase maps every character through tolower |
| BrowserList.Select | loop-sampler/loop-sampler/ui_browser.cpp:98-113 | the selection moves by the turn clamped to the list and stays on the page |
| BrowserList.SelectScrollsLeast | loop-sampler/loop-sampler/ui_browser.cpp:108-111 | the page moves no further than any other top that keeps the new selection on it |
| BrowserList.PageEnd | loop-sampler/loop-sampler/ui_browser.cpp:43-44 | the page ends seven rows after the top or at the end of the list, whichever comes first |
| BrowserList.RowShows | loop-sampler/loop-sampler/ui_browser.cpp:47-56 | a row fits its 64-byte line, starts with the marker and a space, then shows the name or as much as fits |
| BrowserList.RowCalls | loop-sampler/loop-sampler/ui_browser.cpp:46-57 | one printed row per file of the page |
| BrowserList.PrintRows | loop-sampler/loop-sampler/ui_browser.cpp:46-57 | the row loop prints the rows of the page in order |
| BrowserList.RowCallsAt | loop-sampler/loop-sampler/ui_browser.cpp:46-57 | the k-th printed row is the row of file top + k |
| BrowserList.ListShowsSelection | loop-sampler/loop-sampler/ui_browser.cpp:43-57 | the list shows a full page or the rest of the list from the top, and exactly the selected file's row carries the marker |
| BrowserList.FooterReadsBack | loop-sampler/loop-sampler/ui_browser.cpp:61-63 | the footer fits its buffer and, when it fits, reads back as the selection's position from one, a slash and the count |
| UiDisplay.ListingShape | loop-sampler/loop-sampler/ui_display.cpp:149-183 | the listing stops auto-scrolling, clears the log, prints the title, one row per file on the page, the footer, and flushes |
| UiDisplay.ListingRows | loop-sampler/loop-sampler/ui_display.cpp:164-176 | each row between title and footer shows the file at its page position, marked exactly when it is the selected one |
| UiDisplay.Title | loop-sampler/loop-sampler/ui_display.cpp:156-158 | the title fits its 40-byte buffer: a prefix of "Files on SD (count)", all of it when it fits |
| UiDisplay.Magnitude | loop-sampler/loop-sampler/ui_display.cpp:84 | a sample's magnitude, with −32768 staying negative as the int16 negation leaves it |
| UiDisplay.Stride | loop-sampler/loop-sampler/ui_display.cpp:80 | the scan step is at least 1, and 1 for up to 4096 samples |
| UiDisplay.ScanFrom | loop-sampler/loop-sampler/ui_display.cpp:81-86 | the strided scan's greatest magnitude lies in 1..32767 |
| UiDisplay.ScanPeak | loop-sampler/loop-sampler/ui_display.cpp:87 | the scale lies in 128..32767 |
| UiDisplay.ScanFromCovers | loop-sampler/loop-sampler/ui_display.cpp:82-86 | every visited sample other than −32768 lies within what the scan returns |
| UiDisplay.ScanFromAttained | loop-sampler/loop-sampler/ui_display.cpp:81-86 | the scan returns 1 or the magnitude of a visited sample |
| UiDisplay.ScanPeakBounds | loop-sampler/loop-sampler/ui_display.cpp:76-88 | every stride-th sample other than −32768 lies within the scale, and a scale above 128 is one of their magnitudes |
| UiDisplay.LightPeak | loop-sampler/loop-sampler/ui_display.cpp:77-88 | the loop computes the scanned scale |
| UiDisplay.DisplayImage | loop-sampler/loop-sampler/ui_display.cpp:63-126 | the drawn image is a valid buffer |
| UiDisplay.DisplayImagePixels | loop-sampler/loop-sampler/ui_display.cpp:63-126 | the centre row alone with nothing to draw; otherwise each column lights exactly the rows between its top and bottom at the scanned scale |
| UiDisplay.Screen.constructor | loop-sampler/loop-sampler/ui_display.cpp:17-30 | empty index, no loader, nothing pending, no sample, in the browser |
| UiDisplay.Screen.RenderSampleList | loop-sampler/loop-sampler/ui_display.cpp:149-183 | the calls are the listing of the current page |
| UiDisplay.Screen.WaveformInit | loop-sampler/loop-sampler/ui_display.cpp:57-61 | the sample recorded; nothing else changes |
| UiDisplay.Screen.WaveformDraw | loop-sampler/loop-sampler/ui_display.cpp:63-126 | the frame buffer becomes the image of the recorded sample |
| UiDisplay.Screen.WaveformExit | loop-sampler/loop-sampler/ui_display.cpp:143-146 | back in the browser with the list shown |
| UiDisplay.Screen.WaveformOnTurn | loop-sampler/loop-sampler/ui_display.cpp:128-132 | any turn leaves the view, reported as not handled |
| UiDisplay.Screen.WaveformOnButton | loop-sampler/loop-sampler/ui_display.cpp:134-137 | a press leaves the view, reported as not handled |
| UiDisplay.Screen.BrowserInit | loop-sampler/loop-sampler/ui_display.cpp:186-201 | loader recorded, page and pending file reset, in the browser; the scanned index listed, or "SD scan failed" with an empty index |
| UiDisplay.Screen.Rescan | loop-sampler/loop-sampler/ui_display.cpp:186-198 | the loader is recorded, the page and the pending file reset, the state is the browser, and the index is the card's listing when the scan succeeds and empty when it fails, which is what the result reports; the sample and the deadline are kept |
| UiDisplay.Screen.ShowScan | loop-sampler/loop-sampler/ui_display.cpp:192-200 | after a failed scan the one status line "SD scan failed", otherwise the listing of the current page |
| UiDisplay.Screen.BrowserOnTurn | loop-sampler/loop-sampler/ui_display.cpp:203-237 | in the waveform a turn leaves it; in the browser with files the selection moves by the clamped turn and the list is shown again when it moved; otherwise nothing |
| UiDisplay.Screen.MoveSelection | loop-sampler/loop-sampler/ui_display.cpp:215-225 | the selection and page become the clamped move, and moved says whether the selection changed |
| UiDisplay.Screen.BrowserOnButton | loop-sampler/loop-sampler/ui_display.cpp:239-264 | in the waveform a press leaves it; in the browser with files and a loader the selected file is captured and LOADING entered; otherwise nothing |
| UiDisplay.Screen.BrowserTick | loop-sampler/loop-sampler/ui_display.cpp:266-340 | LOADING loads the pending file and ends with nothing pending, waiting a second for a sample or returning to the list; DELAY shows the waveform once its time comes; WAVEFORM only from DELAY |
| UiDisplay.Screen.TickLoading | loop-sampler/loop-sampler/ui_display.cpp:269-310 | the load calls for the pending file; with a sample the deadline is a second later (uint32), otherwise a pause and the list |
| UiDisplay.Screen.TickDelay | loop-sampler/loop-sampler/ui_display.cpp:312-329 | before the deadline nothing changes; after it the waveform is drawn when there is a sample, else the list comes back |
| UiBrowser.ListingShape | loop-sampler/loop-sampler/ui_browser.cpp:30-66 | with files, the header, a page of up to seven rows, then the footer and a flush |
| UiBrowser.ListingRows | loop-sampler/loop-sampler/ui_browser.cpp:30-66 | each row between header and footer shows the file at its page position, marked exactly when it is the selected one |
| UiBrowser.Browser.constructor | loop-sampler/loop-sampler/ui_browser.cpp:17-28 | empty index, no loader, nothing pending, the waveform view inactive |
| UiBrowser.Browser.RenderSampleList | loop-sampler/loop-sampler/ui_browser.cpp:30-66 | the calls are the listing of the current page |
| UiBrowser.Browser.BrowserInit | loop-sampler/loop-sampler/ui_browser.cpp:69-83 | loader recorded, page reset; the scanned index listed, or "SD scan failed" with an empty index |
| UiBrowser.Browser.MoveSelection | loop-sampler/loop-sampler/ui_browser.cpp:98-113 | the selection and page become the clamped move within a six-row window |
| UiBrowser.Browser.BrowserOnTurn | loop-sampler/loop-sampler/ui_browser.cpp:85-114 | an active waveform view takes the turn and the list returns only when it lets go; otherwise, with files, the selection moves; with none nothing happens |
| UiBrowser.Browser.BrowserOnButton | loop-sampler/loop-sampler/ui_browser.cpp:116-131 | an active waveform view is left and the list returns; otherwise with files and a loader the selected file is flagged for loading; else nothing |
| UiBrowser.Browser.BrowserTick | loop-sampler/loop-sampler/ui_browser.cpp:133-188 | a pending waveform waits for its time (uint32) and then is drawn; otherwise a flagged load runs and is consumed |
| UiBrowser.Browser.ShowPendingWaveform | loop-sampler/loop-sampler/ui_browser.cpp:136-152 | before its time nothing changes; then the flag is cleared and, with a sample, the waveform drawn |
| UiBrowser.Browser.ConsumeLoad | loop-sampler/loop-sampler/ui_browser.cpp:154-187 | the flag and index are consumed; an out-of-range index does nothing more; otherwise the load calls, then a waveform a second later or, after a failure, a pause and the list |
| StorageLoader.Le24ToI32 | loop-sampler/loop-sampler/storage_loader.cpp:15-20 | three bytes give a signed 24-bit value congruent to their little-endian sum |
| StorageLoader.Le24RoundTrip | loop-sampler/loop-sampler/storage_loader.cpp:15-20 | every 24-bit value survives being stored as three bytes and read back |
| StorageLoader.Le24BytesRoundTrip | loop-sampler/loop-sampler/storage_loader.cpp:15-20 | every three bytes survive being read and stored again |
| StorageLoader.Or32Letter | loop-sampler/loop-sampler/storage_loader.cpp:196-199 | c \| 32 is a lower-case letter exactly for that letter and its capital |
| StorageLoader.EndsWithWavCi | loop-sampler/loop-sampler/storage_loader.cpp:192-200 | the name test holds exactly when the C string ends in a dot and wav in any case |
| StorageLoader.WavSuffixIsLowerWav | loop-sampler/loop-sampler/storage_loader.cpp:192-200 | the name test agrees with lower-casing the name and testing for .wav |
| StorageLoader.LowerIs | loop-sampler/loop-sampler/sdcard.h:123 | tolower lands on a lower-case letter for it and its capital, and keeps a dot |
| StorageLoader.Index | loop-sampler/loop-sampler/storage_loader.cpp:202-227 | the index holds at most 100 entries, each name of at most 63 characters and each size a uint32 |
| StorageLoader.Wavs | loop-sampler/loop-sampler/storage_loader.cpp:213 | every kept entry is a .wav file, not a folder |
| StorageLoader.IndexIsFirstWavs | loop-sampler/loop-sampler/storage_loader.cpp:202-227 | the index holds the first 100 .wav files of the folder, in order, with names cut to 63 characters and sizes as uint32 |
| StorageLoader.FileIndexScan | loop-sampler/loop-sampler/storage_loader.cpp:202-227 | the scan succeeds exactly when the folder opens, and then yields the index of its entries; otherwise an empty index |
| StorageLoader.FileIndexGet | loop-sampler/loop-sampler/storage_loader.cpp:229-232 | the name at an index inside the count, null otherwise |
| StorageLoader.FrameBytes | loop-sampler/loop-sampler/storage_loader.cpp:40-41 | a frame of a supported header holds 1 to 4·65535 bytes |
| StorageLoader.RequiredBytes | loop-sampler/loop-sampler/storage_loader.cpp:43-44 | two bytes for every whole frame of data, counted without wrapping |
| StorageLoader.RequiredBytesAsWritten | loop-sampler/loop-sampler/storage_loader.cpp:44 | as written the count is the intended one reduced modulo 2^32 |
| StorageLoader.DecodePlanAccepts | loop-sampler/loop-sampler/storage_loader.cpp:35-45 | decoding goes ahead exactly for a read header with channels, data and a supported width, and a buffer of two bytes per frame |
| StorageLoader.DecodePlan | loop-sampler/loop-sampler/storage_loader.cpp:35-45 | corrected: decoding goes ahead only for a header that was read and is valid, with channels, data and a supported sample width, and the byte count it plans never exceeds the destination buffer |
| StorageLoader.DecodePlanAsWritten | loop-sampler/loop-sampler/storage_loader.cpp:35-45 | as written: the planned byte count is a uint32 within the buffer, and it agrees with the corrected plan whenever the true count fits in 32 bits |
| StorageLoader.RequiredBytesWraps | loop-sampler/loop-sampler/storage_loader.cpp:44-45 | as written, 8-bit mono data of 2^31 bytes needs 0 bytes, so an empty buffer passes the size check |
| StorageLoader.ClampQ15 | loop-sampler/loop-sampler/storage_loader.cpp:168-169 | the stored sample is an int16, kept when it fits and saturated otherwise |
| StorageLoader.ClampQ15Monotone | loop-sampler/loop-sampler/storage_loader.cpp:168-169 | the clamp never stores a louder input quieter |
| SdCard.Le16 | loop-sampler/loop-sampler/sdcard.h:23-34 | a little-endian field of two bytes is a uint16 |
| SdCard.Le32 | loop-sampler/loop-sampler/sdcard.h:23-34 | a little-endian field of four bytes is a uint32 |
| SdCard.ReadHeader | loop-sampler/loop-sampler/sdcard.h:174-178 | a header is read exactly when the file holds 36 bytes, with the tags taken from bytes 0 and 8 |
| SdCard.NextChunk | loop-sampler/loop-sampler/sdcard.h:212 | the walk always moves at least past the chunk header and stays within the file |
| SdCard.FindData | loop-sampler/loop-sampler/sdcard.h:200-216 | a found chunk is a data chunk inside the file with its body offset and declared size |
| SdCard.FindDataReaches | loop-sampler/loop-sampler/sdcard.h:200-216 | a chain of in-file chunk headers, each the next chunk of the one before, none of them `data` but the last, leads the walk from the first to the size and offset of that last `data` chunk |
| SdCard.StepAsWritten | loop-sampler/loop-sampler/sdcard.h:200-216 | a running pass as written stays within the file, and a found size is the one stored after the `data` tag at the position |
| SdCard.WalkAsWritten | loop-sampler/loop-sampler/sdcard.h:200-216 | any number of passes as written: a size it finds is the one stored after a `data` tag the walk reached, and a position it is still at lies inside the file |
| SdCard.StepAgreesWithoutWrap | loop-sampler/loop-sampler/sdcard.h:212 | while the uint32 seek does not wrap, the pass as written is a step of the walk |
| SdCard.WrappingFile | loop-sampler/loop-sampler/sdcard.h:200-212 | the counterexample file is 44 bytes long |
| SdCard.WrappingFileNeverEnds | loop-sampler/loop-sampler/sdcard.h:200-212 | that file passes the header check, yet the loop as written is still running after any number of passes |
| SdCard.WalkStaysPut | loop-sampler/loop-sampler/sdcard.h:212 | the pass as written on that file comes back to the same position |
| SdCard.ListableIsIndexable | loop-sampler/loop-sampler/sdcard.h:121-125 | the listing keeps exactly the files the loader indexes |
| SdCard.Listed | loop-sampler/loop-sampler/sdcard.h:107-136 | no more files are listed than visited, nor more than the limit |
| SdCard.Names | loop-sampler/loop-sampler/sdcard.h:121 | one name per listed file |
| SdCard.Sizes | loop-sampler/loop-sampler/sdcard.h:127 | one size per listed file |
| SdCard.NamesSizesAppend | loop-sampler/loop-sampler/sdcard.h:126-128 | listing one more file appends its name and uint32 size |
| SdCard.ListedStep | loop-sampler/loop-sampler/sdcard.h:118-131 | one more entry is kept when it is a .wav file and there is room |
| SdCard.ListedAreWavs | loop-sampler/loop-sampler/sdcard.h:107-136 | every listed entry is a .wav file, and at most the limit are listed |
| SdCard.ListedFull | loop-sampler/loop-sampler/sdcard.h:118 | once the limit is reached no later entry changes the listing |
| SdCard.FirstWav | loop-sampler/loop-sampler/sdcard.h:139-160 | a found name is a file of the folder ending in .wav exactly as written |
| SdCard.FirstWavIsCaseSensitive | loop-sampler/loop-sampler/sdcard.h:125-150 | a folder holding only LOOP.WAV lists it but has no first .wav file |
| SdCard.FormatSize | loop-sampler/loop-sampler/sdcard.h:284-292 | the integer branches cover exactly the sizes below a mebibyte |
| SdCard.FormatSizeReadsBack | loop-sampler/loop-sampler/sdcard.h:284-289 | the printed digits give the exact byte count below 1024, otherwise the kibibyte the size lies in |
| SdCard.SdCardClass.constructor | loop-sampler/loop-sampler/sdcard.h:62-71 | not initialised |
| SdCard.SdCardClass.Begin | loop-sampler/loop-sampler/sdcard.h:74-104 | the card comes up exactly when it starts, and a failed start keeps the flag |
| SdCard.SdCardClass.ListWavFiles | loop-sampler/loop-sampler/sdcard.h:107-136 | nothing unless initialised with the root open; otherwise the listed names and sizes fill the front of the lists, the rest untouched |
| SdCard.SdCardClass.GetFirstWavFile | loop-sampler/loop-sampler/sdcard.h:139-160 | the first exact-case .wav file when initialised with the root open, else the empty string |
| SdCard.SdCardClass.GetWavInfo | loop-sampler/loop-sampler/sdcard.h:163-223 | corrected: fails when not initialised, the file does not open, the header is short or the tags are wrong; otherwise reports the data chunk the walk finds, valid exactly when found |
| SdCard.ListInto | loop-sampler/loop-sampler/sdcard.h:116-134 | the loop writes the listed names and sizes at the front and counts them |
| SdCard.ListOne | loop-sampler/loop-sampler/sdcard.h:120-130 | one entry: a non-directory whose lower-cased name ends in `.wav` is written just past the files listed so far and counted; any other entry changes nothing |
| SdCard.KeepStep | loop-sampler/loop-sampler/sdcard.h:126-128 | writing the next listed file moves the filled front by one |
| SdCard.Put | loop-sampler/loop-sampler/sdcard.h:126-128 | one file's name and size written at the count |
| SdCard.WalkChunks | loop-sampler/loop-sampler/sdcard.h:200-216 | corrected: the loop finds what the chunk walk finds from just after the header |

## Left out

- Floating-point maths stands outside the model; each result is a parameter. This covers:
  - the loop sampler's `exp2f` pitch ratio and the `sinf` crossfade gains and mix;
  - the horde voice-leading and gain maths;
  - the filter coefficient design;
  - `powf` table construction in both frequency calculators, together with the `setBaseFrequency`, `setSampleRate`, `setQuantization`, `setLFOMode` and `setAudioMode` rebuilds;
  - `getFrequency`, `getFrequencyHz` and `getPeriodSeconds`;
  - `setCutoffHz` and `setTauMs` of the ADC smoother;
  - `bpmToTickInterval`, `getBPM` and `getSongSeconds` of the metronome;
  - the float BPM of `createTimingPacket` (given as its Q8 value) and `getBPMFromPacket`;
  - the float increment of xylem's `init_voice`;
  - the loader's float sample conversion and peak normalisation;
  - the megabyte branch of `formatSize`.
- Hardware and timing are outside the model. PWM, DMA, ADC, SPI and GPIO set-up, the IRQ handlers and the hardware alarms are left out. `millis`, `micros`, `time_us_64`, pin levels and ADC readings are parameters of the methods that read them.
- Concurrency is outside the model. The metronome's atomics, interrupt masking, in-IRQ dispatch and `scheduleNextTick` are sequential state and method calls. `std::function` callbacks are event outputs.
- `LocalMetronome::externalSyncUpdate` drives the tempo from an external clock and is not part of this model.
- Drawing is outside the model. u8g2 and Adafruit calls, `gray4_send_buffer`, `display_send_gray4`, the border of `DisplayClass::update`, and `drawFrame`, `showProgressBar`, `showSplash` are left out, as is the `Serial` mirroring of every line.
- The browsers' calls on the log view are a returned trace (`BrowserList.ViewCall`). They are not applied to a `DisplayViews.LogView` object.
- File-system I/O is outside the model. This covers SdFat iteration and reads, PSRAM allocation, `loadWavData`, `writeFile`, `exists`, `remove`, `mkdir`, `forEachFile` and `getCardSizeMB`. A directory is a sequence of entries and a file a sequence of bytes.
- `getName` truncation is outside the model; a directory entry carries its name as read.
- Calls into code that is not shown are parameters or abstract values:
  - the ladder low-pass and high-pass classes;
  - `interpolate`;
  - the sine table's contents;
  - `sd_format_size`, `wav_read_info`, `adc_filter_get` and `publish_display_state2`.
- The command parser's serial output is left out: `showHelp`, `showContextParams` and the status prints. Its `metroPtr->setBPM` call is an output value, and `atof` is a function parameter.
- The command parser assumes an `sscanf` `%d` that fits an int. Overflow there is undefined behaviour in C and is not modelled.
- The ADC smoother's bank API is declared but has no body in the source, so it is not modelled.
- Trivial getters with no logic are read as fields instead:
  - `getLUTSize`, `getEntriesPerOctave` and `getBaseFrequency` of `FastFrequencyCalculator`;
  - `isPressed` and `isEnabled` of `MomentarySwitch`;
  - `getPosition` and the other plain getters of `EEncoder`.
- The configuration setters of `EEncoder` and `MomentarySwitch` are folded into the constructor's configuration value, since the firmware calls them once at start-up.
- The loop sampler's render code is forward-only: reverse, alternate, through-zero FM, cooldown and modulo wrap are not implemented there and not modelled. The stored transport mode is never read by the renderer.
- FastFrequency.FastFrequencyCalculator.SetFmLut: the table size is a `bv16`, like the source's `uint16_t`. A size of 0 passes the source's range test, and the model keeps that.
- FastFrequency.InterpolateBetween: assumes that `delta·frac` fits int32, as the source silently does.
- FrequencyCalculator.CalculatePhaseIncrement: assumes the same int32 headroom. The float octave count is the exact rational `excess·5/512`.
- LoopRender.Dsp: the low-pass-then-high-pass stage of the output path is one fixed function of the sample (`filter`). In the firmware the two ladder filter objects carry their state from sample to sample and take new coefficients from `adc_lowpass_q12` and `adc_highpass_q12` on every call. Neither the carried state nor the per-call coefficients are captured.
- FixedPoint.RShiftRound: takes any integer and rounds exactly. The source adds 2^(s−1) in int32, which overflows for x above 2^31 − 1 − 2^(s−1); that overflow is not modelled.
- SineTable.InterpolatesBetweenTaps: assumes that neighbouring taps differ by less than 1024, so that the int32 product cannot overflow.
- BrowserList.AudioOk: bounds the loaded sample count below 2^31, so that the samples fit the 32-bit address space the firmware runs in.
- CStrings.Clipped: models `snprintf` for NUL-free text only. Every text the firmware formats is NUL-free.
- UiDisplay.Screen.TickLoading: the defensive reset for a bad pending index cannot happen under the machine's invariant, so the model has no branch for it.
- Gray4.Gray4Buffer.Walk: computes in exact integers, which is the corrected walk. The source holds `dx`, `dy`, `err` and `e2` in int16. For int16 ends at most 8191 apart along each axis the two agree (`Gray4.WalkStepAsWrittenAgrees`); beyond that `2*err` wraps and the source's walk leaves the line (see Findings). In the model's exact walk the coordinates stay between the ends; in the source's long-line walk they leave the bounding box (`Gray4.LongLineLeavesBox`) and keep rising until the int16 coordinates wrap.
- Gray4.Gray4Buffer.DrawLine: its diagonal case is the corrected `Walk`, so for lines spanning 8192 or more along an axis it draws the intended line, not the source's wrapped one.
- SyncPacket.LatencyEstimate.constructor: the constructor stands for the callers' zero-initialisation of the struct.
- SdCard.NextChunk: assumes SdFat's `seekSet` refuses a position past the end of the file and leaves the position where it was. The walk as written (`SdCard.StepAsWritten`) takes `SdFile`'s `curPosition()` to be 32-bit, as in SdFat's FAT-only configuration. Where `SdFile` is built on `FsFile`/ExFat the position is uint64, the sum cannot wrap, and the walk is `NextChunk`'s.
- Data-only files, the config-pin headers, declaration-only headers and the Python tooling hold nothing to model.

## Findings

| source | as written | input that shows it | evidently intended | confidence | as-written member | corrected member |
|---|---|---|---|---|---|---|
| loop-sampler/loop-sampler/audio_engine_render.cpp:434-439 | the crossfade cursor wraps by repeated subtraction of the window length, which never ends when the window is empty | a two-sample buffer with a reset pending gives a crossfade length of 0 | the wrap loop run only for a non-empty window, leaving the cursor of an empty one where it is | not executed | LoopRender.ResetOnTwoSampleLoopStalls | LoopRender.WrapCursor |
| xylem/LocalMetronome.cpp:438-444 | `current * ppm` converts a negative ppm to uint64, so a negative rate gives a huge positive adjustment and the clamp then snaps to the target | interval 10000 µs, target 5000, −1000 ppm gives 5000 at once | 9990, one slew step toward the target | not executed | Metronome.SlewAsWrittenSnapsFasterTempo | Metronome.SlewNeverCrossesTarget |
| xylem/SyncPacket.h:110 | the running latency average sums in uint32 and wraps | 1000 samples of 5 s each | the mean of the old estimate and the sample | not executed | SyncPacket.LatencyAverageWraps | SyncPacket.LatencyStepAgreesWithoutWrap |
| xylem/audio_engine_render.cpp:111 | `32767 + (tremolo >> 3)` is narrowed to int16 and wraps negative for any depth of 8 or more | pace 255: gain −28674 turns 16384 into −14337 | a gain of 36862, giving 18431 | not executed | XylemEngine.FullPaceInvertsSample | XylemEngine.TremoloKeepsSign |
| loop-sampler/loop-sampler/storage_loader.cpp:44 | the output size `frames * 2` is a uint32 product that wraps | 8-bit mono data of 2^31 bytes needs 0 bytes, so an empty buffer passes the size check | the size counted without wrapping, and a refusal for such a file | not executed | StorageLoader.RequiredBytesWraps | StorageLoader.DecodePlanAccepts |
| loop-sampler/loop-sampler/sdcard.h:212 | only if `SdFile`'s `curPosition()` is 32-bit, as in SdFat's FAT-only configuration (where `SdFile` is built on `FsFile`/ExFat the position is uint64 and the sum cannot wrap): the seek `curPosition() + chunkSize` is a uint32 sum that can wrap back to the same chunk header | a 44-byte RIFF/WAVE file whose one LIST chunk declares 0xFFFFFFF8 bytes loops forever | a walk that always moves forward and ends at the file's end | not executed | SdCard.WrappingFileNeverEnds | SdCard.WalkChunks |
| loop-sampler/loop-sampler/display_driver.cpp:163-181 | `dx`, `dy`, `err` and `e2 = 2*err` are int16, and `2*err` wraps once the line spans 8192 or more along an axis | the line (0,0)→(20000,1): `e2` wraps to −25538, so the first pass moves y instead of x and the second reaches y = 2, past the end | Bresenham's walk in exact arithmetic, which ends at the end point in single steps | not executed | Gray4.LongLineLeavesBox | Gray4.Gray4Buffer.Walk |

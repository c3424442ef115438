/**
 * The oscillator test's `EEncoder`: a quadrature decoder that counts valid
 * Gray-code transitions, emits one (optionally accelerated) increment per
 * detent, resynchronises after 100 ms idle, and a debounced push button with
 * a long-press timer. Pin levels and `millis()` are parameters of each step;
 * the callbacks become events, raised only when a handler is installed.
 */
module Encoder {
  import opened IntArith

  const DEFAULT_DEBOUNCE_MS: int := 10
  const DEFAULT_LONG_PRESS_MS: int := 500
  const ENCODER_IDLE_TIMEOUT_MS: int := 100
  const DEFAULT_COUNTS_PER_DETENT: int := 4
  const ACCELERATION_THRESHOLD_MS: int := 100
  const DEFAULT_ACCELERATION_RATE: int := 5

  /** Pin levels: HIGH is true; the button is active LOW. */
  const HIGH: bool := true
  const LOW: bool := false

  /** The decoder's settings and its state. */
  datatype RotaryConfig = RotaryConfig(countsPerDetent: int, accelerationEnabled: bool,
                                       accelerationRate: int, hasEncoderHandler: bool)
  datatype Rotary = Rotary(lastEncoderState: int, increment: int, position: int,
                           lastStateChangeTime: int, lastRotationTime: int)

  /** The button's settings and its state. */
  datatype ButtonConfig = ButtonConfig(debounceInterval: int, longPressDuration: int,
                                       hasButtonHandler: bool, hasLongPressHandler: bool)
  datatype Button = Button(buttonState: bool, lastButtonState: bool, buttonStateChangeTime: int,
                           buttonPressTime: int, longPressHandled: bool)

  /** The defaults: the given counts per detent, no acceleration at rate 5, no handler. */
  function DefaultRotary(detentCounts: int): (c: RotaryConfig)
    requires IsU8(detentCounts)
    ensures RotaryConfigOk(c) && c.countsPerDetent == detentCounts
  {
    RotaryConfig(detentCounts, false, DEFAULT_ACCELERATION_RATE, false)
  }

  /** The defaults: 10 ms debounce, 500 ms long press, no handlers. */
  function DefaultButton(): (c: ButtonConfig)
    ensures ButtonConfigOk(c)
  {
    ButtonConfig(DEFAULT_DEBOUNCE_MS, DEFAULT_LONG_PRESS_MS, false, false)
  }

  /** The field widths. */
  predicate RotaryConfigOk(c: RotaryConfig)
  {
    IsU8(c.countsPerDetent) && IsU8(c.accelerationRate)
  }

  predicate RotaryOk(r: Rotary)
  {
    0 <= r.lastEncoderState < 4 && IsI8(r.increment) && IsI8(r.position)
    && IsU32(r.lastStateChangeTime) && IsU32(r.lastRotationTime)
  }

  predicate ButtonConfigOk(c: ButtonConfig)
  {
    IsU16(c.debounceInterval) && IsU16(c.longPressDuration)
  }

  predicate ButtonOk(b: Button)
  {
    IsU32(b.buttonStateChangeTime) && IsU32(b.buttonPressTime)
  }

  /** `getEncoderState`: pin A in bit 1, pin B in bit 0. */
  function PinState(a: bool, b: bool): (st: int)
    ensures 0 <= st < 4
    ensures st / 2 == (if a then 1 else 0) && st % 2 == (if b then 1 else 0)
  {
    (if a then 2 else 0) + (if b then 1 else 0)
  }

  /** The direction of a transition between two states, from the 4-bit code `old·4 + new`. */
  function Direction(oldState: int, newState: int): (d: int)
    requires 0 <= oldState < 4 && 0 <= newState < 4
    ensures -1 <= d <= 1
  {
    var combined := oldState * 4 + newState;
    if combined == 0x1 || combined == 0x7 || combined == 0xE || combined == 0x8 then 1
    else if combined == 0x2 || combined == 0xB || combined == 0xD || combined == 0x4 then -1
    else 0
  }

  /** Every clockwise transition reversed is a counter-clockwise one, and the invalid ones stay invalid. */
  lemma DirectionReverses(a: int, b: int)
    requires 0 <= a < 4 && 0 <= b < 4
    ensures Direction(b, a) == -Direction(a, b)
  {
  }

  /** Between two different states, a transition counts exactly when one pin changed (Gray code). */
  lemma DirectionIsGrayStep(a: int, b: int)
    requires 0 <= a < 4 && 0 <= b < 4 && a != b
    ensures Direction(a, b) != 0 <==> (a / 2 == b / 2) != (a % 2 == b % 2)
  {
  }

  /** The increment of a detent: the sign, times the rate (narrowed to int8) when turned fast. */
  function DetentIncrement(c: RotaryConfig, r: Rotary, position: int, now: int): (inc: int)
    requires RotaryConfigOk(c) && RotaryOk(r) && IsU32(now)
    ensures IsI8(inc)
    ensures !c.accelerationEnabled ==> inc == (if position > 0 then 1 else -1)
  {
    var sign := if position > 0 then 1 else -1;
    if c.accelerationEnabled && Since(now, r.lastRotationTime) < ACCELERATION_THRESHOLD_MS
    then I8(sign * c.accelerationRate) else sign
  }

  /**
   * `readEncoder`, with `now` the value of `millis()`: the new rotary state
   * and whether the rotation callback fires.
   */
  function ReadEncoderSpec(c: RotaryConfig, r: Rotary, st: int, now: int): (res: (Rotary, bool))
    requires RotaryConfigOk(c) && RotaryOk(r) && 0 <= st < 4 && IsU32(now)
    ensures RotaryOk(res.0) && res.0.lastEncoderState == st
  {
    if st != r.lastEncoderState then
      var direction := Direction(r.lastEncoderState, st);
      if direction != 0 then
        var position := I8(r.position + direction);
        if Abs(position) >= c.countsPerDetent then
          (Rotary(st, DetentIncrement(c, r, position, now), 0, now,
                  if c.accelerationEnabled then now else r.lastRotationTime),
           c.hasEncoderHandler)
        else
          (r.(lastEncoderState := st, position := position, lastStateChangeTime := now), false)
      else
        (r.(lastEncoderState := st), false)
    else if r.position != 0 && Since(now, r.lastStateChangeTime) > ENCODER_IDLE_TIMEOUT_MS then
      (r.(position := 0), false)
    else
      (r, false)
  }

  /**
   * `readButton`, with `level` the pin and every `millis()` call taken at
   * the same `now`: the new button state and whether the press and the long
   * press callbacks fire.
   */
  function ReadButtonSpec(c: ButtonConfig, b: Button, level: bool, now: int): (res: (Button, bool, bool))
    requires ButtonOk(b) && IsU32(now)
    ensures ButtonOk(res.0) && res.0.lastButtonState == level
  {
    var changeTime := if level != b.lastButtonState then now else b.buttonStateChangeTime;
    var edge := Since(now, changeTime) >= c.debounceInterval && level != b.buttonState;
    var b2 :=
      if edge && level == LOW then Button(level, b.lastButtonState, changeTime, now, false)
      else if edge then Button(level, b.lastButtonState, changeTime, b.buttonPressTime, false)
      else b.(buttonStateChangeTime := changeTime);
    var pressed := edge && level == LOW && c.hasButtonHandler;
    var long := b2.buttonState == LOW && !b2.longPressHandled && c.hasLongPressHandler
                && Since(now, b2.buttonPressTime) >= c.longPressDuration;
    (b2.(lastButtonState := level, longPressHandled := b2.longPressHandled || long), pressed, long)
  }

  /** A detent: once |position| reaches the count, the increment is the sign and the position restarts. */
  lemma DetentEmitsSign(c: RotaryConfig, r: Rotary, st: int, now: int)
    requires RotaryConfigOk(c) && RotaryOk(r) && 0 <= st < 4 && IsU32(now) && !c.accelerationEnabled
    requires st != r.lastEncoderState && Direction(r.lastEncoderState, st) != 0
    requires Abs(I8(r.position + Direction(r.lastEncoderState, st))) >= c.countsPerDetent
    ensures var res := ReadEncoderSpec(c, r, st, now);
      var p := I8(r.position + Direction(r.lastEncoderState, st));
      res.0.position == 0 && res.0.increment == (if p > 0 then 1 else -1) && res.1 == c.hasEncoderHandler
  {
  }

  /** A fast detent with acceleration multiplies the sign by the rate; the default rate gives ±5. */
  lemma FastDetentAccelerates(c: RotaryConfig, r: Rotary, position: int, now: int)
    requires RotaryConfigOk(c) && RotaryOk(r) && IsU32(now) && c.accelerationEnabled
    requires c.accelerationRate == DEFAULT_ACCELERATION_RATE
    requires Since(now, r.lastRotationTime) < ACCELERATION_THRESHOLD_MS
    ensures DetentIncrement(c, r, position, now) == (if position > 0 then 5 else -5)
  {
  }

  /** Only a detent changes the increment, and a transition that is not a detent never fires the callback. */
  lemma IncrementOnlyAtDetent(c: RotaryConfig, r: Rotary, st: int, now: int)
    requires RotaryConfigOk(c) && RotaryOk(r) && 0 <= st < 4 && IsU32(now)
    ensures var res := ReadEncoderSpec(c, r, st, now);
      var detent := st != r.lastEncoderState && Direction(r.lastEncoderState, st) != 0
                    && Abs(I8(r.position + Direction(r.lastEncoderState, st))) >= c.countsPerDetent;
      (!detent ==> res.0.increment == r.increment && !res.1)
      && (detent ==> res.0.position == 0 && res.1 == c.hasEncoderHandler)
  {
  }

  /** An invalid transition (both pins changed) only records the new state. */
  lemma InvalidTransitionIgnored(c: RotaryConfig, r: Rotary, st: int, now: int)
    requires RotaryConfigOk(c) && RotaryOk(r) && 0 <= st < 4 && IsU32(now)
    requires st != r.lastEncoderState && Direction(r.lastEncoderState, st) == 0
    ensures ReadEncoderSpec(c, r, st, now) == (r.(lastEncoderState := st), false)
  {
  }

  /** With the pins unchanged, a partial count is dropped after more than 100 ms idle and kept otherwise. */
  lemma IdleResynchronises(c: RotaryConfig, r: Rotary, now: int)
    requires RotaryConfigOk(c) && RotaryOk(r) && IsU32(now)
    ensures var res := ReadEncoderSpec(c, r, r.lastEncoderState, now);
      !res.1 && res.0.(position := r.position) == r
      && res.0.position == (if Since(now, r.lastStateChangeTime) > ENCODER_IDLE_TIMEOUT_MS then 0 else r.position)
  {
  }

  /**
   * With four counts per detent and no acceleration, one clockwise cycle
   * 00 → 01 → 11 → 10 → 00 from rest gives exactly one +1 detent, on the
   * last step; the counter-clockwise cycle gives one −1 detent.
   */
  lemma QuadratureCycleIsOneDetent(c: RotaryConfig, r: Rotary, t0: int, t1: int, t2: int, t3: int)
    requires RotaryConfigOk(c) && RotaryOk(r) && IsU32(t0) && IsU32(t1) && IsU32(t2) && IsU32(t3)
    requires r.lastEncoderState == 0 && r.position == 0 && c.countsPerDetent == 4 && !c.accelerationEnabled
    requires c.hasEncoderHandler
    ensures var r0 := ReadEncoderSpec(c, r, 1, t0);
      var r1 := ReadEncoderSpec(c, r0.0, 3, t1);
      var r2 := ReadEncoderSpec(c, r1.0, 2, t2);
      var r3 := ReadEncoderSpec(c, r2.0, 0, t3);
      !r0.1 && !r1.1 && !r2.1 && r3.1 && r3.0.increment == 1 && r3.0.position == 0
    ensures var r0 := ReadEncoderSpec(c, r, 2, t0);
      var r1 := ReadEncoderSpec(c, r0.0, 3, t1);
      var r2 := ReadEncoderSpec(c, r1.0, 1, t2);
      var r3 := ReadEncoderSpec(c, r2.0, 0, t3);
      !r0.1 && !r1.1 && !r2.1 && r3.1 && r3.0.increment == -1 && r3.0.position == 0
  {
    var r0 := ReadEncoderSpec(c, r, 1, t0);
    assert r0.0.position == 1;
    var r1 := ReadEncoderSpec(c, r0.0, 3, t1);
    assert r1.0.position == 2;
    var r2 := ReadEncoderSpec(c, r1.0, 2, t2);
    assert r2.0.position == 3;
    var q0 := ReadEncoderSpec(c, r, 2, t0);
    assert q0.0.position == -1;
    var q1 := ReadEncoderSpec(c, q0.0, 3, t1);
    assert q1.0.position == -2;
    var q2 := ReadEncoderSpec(c, q1.0, 1, t2);
    assert q2.0.position == -3;
  }

  /** The button state only changes by a debounced edge: a reading that just changed waits. */
  lemma JustChangedReadingWaits(c: ButtonConfig, b: Button, level: bool, now: int)
    requires ButtonOk(b) && IsU32(now) && c.debounceInterval > 0 && level != b.lastButtonState
    ensures var res := ReadButtonSpec(c, b, level, now);
      res.0.buttonState == b.buttonState && !res.1
  {
  }

  /** A reading stable for the debounce interval that differs from the state is taken over. */
  lemma StableReadingIsTaken(c: ButtonConfig, b: Button, level: bool, now: int)
    requires ButtonOk(b) && IsU32(now) && level == b.lastButtonState
    requires Since(now, b.buttonStateChangeTime) >= c.debounceInterval
    ensures ReadButtonSpec(c, b, level, now).0.buttonState == level
  {
  }

  /** The press callback fires only on a debounced HIGH → LOW edge, with a handler installed. */
  lemma PressOnlyOnFallingEdge(c: ButtonConfig, b: Button, level: bool, now: int)
    requires ButtonOk(b) && IsU32(now)
    ensures var res := ReadButtonSpec(c, b, level, now);
      res.1 <==> (b.buttonState == HIGH && res.0.buttonState == LOW && c.hasButtonHandler)
  {
  }

  /**
   * The long press fires at most once per press: it needs the handled flag
   * clear and sets it, and while the button state stays the same the flag
   * stays set, so the next call cannot fire it again.
   */
  lemma LongPressOncePerPress(c: ButtonConfig, b: Button, level: bool, now: int, level2: bool, now2: int)
    requires ButtonOk(b) && IsU32(now) && IsU32(now2)
    ensures var res := ReadButtonSpec(c, b, level, now);
      var res2 := ReadButtonSpec(c, res.0, level2, now2);
      (res.2 ==> res.0.longPressHandled && res.0.buttonState == LOW && c.hasLongPressHandler)
      && (res.2 && b.buttonState == res.0.buttonState ==> !b.longPressHandled)
      && (res.2 && res2.0.buttonState == res.0.buttonState ==> !res2.2)
  {
  }

  /** The steps of `readEncoder` on local copies of the fields; `st` is the pin state just read. */
  method DecodeStep(c: RotaryConfig, r: Rotary, st: int, now: int) returns (n: Rotary, rotated: bool)
    requires RotaryConfigOk(c) && RotaryOk(r) && 0 <= st < 4 && IsU32(now)
    ensures (n, rotated) == ReadEncoderSpec(c, r, st, now)
  {
    n, rotated := r, false;
    if st != n.lastEncoderState {
      var direction := Direction(n.lastEncoderState, st);
      if direction != 0 {
        n := n.(position := I8(n.position + direction), lastStateChangeTime := now);
        if Abs(n.position) >= c.countsPerDetent {
          var inc := if n.position > 0 then 1 else -1;
          if c.accelerationEnabled {
            var sinceLast := Since(now, n.lastRotationTime);
            if sinceLast < ACCELERATION_THRESHOLD_MS {
              inc := I8(inc * c.accelerationRate);
            }
            n := n.(lastRotationTime := now);
          }
          n := n.(increment := inc, position := 0);
          rotated := c.hasEncoderHandler;
        }
      }
      n := n.(lastEncoderState := st);
    } else if n.position != 0 {
      if Since(now, n.lastStateChangeTime) > ENCODER_IDLE_TIMEOUT_MS {
        n := n.(position := 0);
      }
    }
  }

  /** The steps of `readButton` on local copies of the fields; `level` is the pin just read. */
  method ButtonStep(c: ButtonConfig, b: Button, level: bool, now: int) returns (n: Button, pressed: bool, longPressed: bool)
    requires ButtonOk(b) && IsU32(now)
    ensures (n, pressed, longPressed) == ReadButtonSpec(c, b, level, now)
  {
    n, pressed, longPressed := b, false, false;
    if level != n.lastButtonState {
      n := n.(buttonStateChangeTime := now);
    }
    if Since(now, n.buttonStateChangeTime) >= c.debounceInterval {
      if level != n.buttonState {
        n := n.(buttonState := level);
        if n.buttonState == LOW {
          n := n.(buttonPressTime := now, longPressHandled := false);
          pressed := c.hasButtonHandler;
        } else {
          n := n.(longPressHandled := false);
        }
      }
    }
    if n.buttonState == LOW && !n.longPressHandled && c.hasLongPressHandler {
      if Since(now, n.buttonPressTime) >= c.longPressDuration {
        n := n.(longPressHandled := true);
        longPressed := true;
      }
    }
    n := n.(lastButtonState := level);
  }

  /** `EEncoder`. */
  class EEncoder {
    const countsPerDetent: int
    const accelerationEnabled: bool
    const accelerationRate: int
    const hasEncoderHandler: bool
    const debounceInterval: int
    const longPressDuration: int
    const hasButtonHandler: bool
    const hasLongPressHandler: bool
    const hasButton: bool

    var lastEncoderState: int
    var increment: int
    var position: int
    var lastStateChangeTime: int
    var lastRotationTime: int

    var buttonState: bool
    var lastButtonState: bool
    var buttonStateChangeTime: int
    var buttonPressTime: int
    var longPressHandled: bool

    var enabled: bool

    function RotarySettings(): RotaryConfig
      reads this
    {
      RotaryConfig(countsPerDetent, accelerationEnabled, accelerationRate, hasEncoderHandler)
    }

    function RotaryState(): Rotary
      reads this
    {
      Rotary(lastEncoderState, increment, position, lastStateChangeTime, lastRotationTime)
    }

    function ButtonSettings(): ButtonConfig
      reads this
    {
      ButtonConfig(debounceInterval, longPressDuration, hasButtonHandler, hasLongPressHandler)
    }

    function ButtonStatus(): Button
      reads this
    {
      Button(buttonState, lastButtonState, buttonStateChangeTime, buttonPressTime, longPressHandled)
    }

    ghost predicate Valid()
      reads this
    {
      RotaryConfigOk(RotarySettings()) && RotaryOk(RotaryState())
      && ButtonConfigOk(ButtonSettings()) && ButtonOk(ButtonStatus())
    }

    /**
     * Both constructors: the current pin state and time recorded, the
     * button idle HIGH. The settings made by the setters and the installed
     * handlers are folded into `rc` and `bc`, whose defaults are
     * `DefaultRotary` and `DefaultButton`.
     */
    constructor(withButton: bool, rc: RotaryConfig, bc: ButtonConfig, a: bool, b: bool, now: int)
      requires RotaryConfigOk(rc) && ButtonConfigOk(bc) && IsU32(now)
      ensures Valid() && enabled && hasButton == withButton
      ensures RotarySettings() == rc && ButtonSettings() == bc
      ensures RotaryState() == Rotary(PinState(a, b), 0, 0, now, 0)
      ensures ButtonStatus() == Button(HIGH, HIGH, 0, 0, false)
    {
      countsPerDetent, accelerationEnabled, accelerationRate, hasEncoderHandler :=
        rc.countsPerDetent, rc.accelerationEnabled, rc.accelerationRate, rc.hasEncoderHandler;
      debounceInterval, longPressDuration, hasButtonHandler, hasLongPressHandler :=
        bc.debounceInterval, bc.longPressDuration, bc.hasButtonHandler, bc.hasLongPressHandler;
      hasButton := withButton;
      lastEncoderState := PinState(a, b);
      increment := 0;
      position := 0;
      lastStateChangeTime := now;
      lastRotationTime := 0;
      buttonState := HIGH;
      lastButtonState := HIGH;
      buttonStateChangeTime := 0;
      buttonPressTime := 0;
      longPressHandled := false;
      enabled := true;
    }

    /** Stores a new decoder state, leaving every other field alone. */
    method StoreRotary(n: Rotary)
      requires Valid() && RotaryOk(n)
      modifies this
      ensures Valid() && RotaryState() == n && enabled == old(enabled)
      ensures ButtonStatus() == old(ButtonStatus())
    {
      lastEncoderState, increment, position, lastStateChangeTime, lastRotationTime :=
        n.lastEncoderState, n.increment, n.position, n.lastStateChangeTime, n.lastRotationTime;
    }

    /** Stores a new button state, leaving every other field alone. */
    method StoreButton(n: Button)
      requires Valid() && ButtonOk(n)
      modifies this
      ensures Valid() && ButtonStatus() == n && enabled == old(enabled)
      ensures RotaryState() == old(RotaryState())
    {
      buttonState, lastButtonState, buttonStateChangeTime, buttonPressTime, longPressHandled :=
        n.buttonState, n.lastButtonState, n.buttonStateChangeTime, n.buttonPressTime, n.longPressHandled;
    }

    /** `readEncoder`. */
    method ReadEncoder(a: bool, b: bool, now: int) returns (rotated: bool)
      requires Valid() && IsU32(now)
      modifies this
      ensures Valid() && enabled == old(enabled)
      ensures ButtonStatus() == old(ButtonStatus())
      ensures (RotaryState(), rotated) == ReadEncoderSpec(RotarySettings(), old(RotaryState()), PinState(a, b), now)
    {
      var n;
      n, rotated := DecodeStep(RotarySettings(), RotaryState(), PinState(a, b), now);
      StoreRotary(n);
    }

    /** `readButton`. */
    method ReadButton(level: bool, now: int) returns (pressed: bool, longPressed: bool)
      requires Valid() && IsU32(now)
      modifies this
      ensures Valid() && enabled == old(enabled)
      ensures RotaryState() == old(RotaryState())
      ensures (ButtonStatus(), pressed, longPressed) == ReadButtonSpec(ButtonSettings(), old(ButtonStatus()), level, now)
    {
      var n;
      n, pressed, longPressed := ButtonStep(ButtonSettings(), ButtonStatus(), level, now);
      StoreButton(n);
    }

    /**
     * `update`: nothing at all while disabled; otherwise the encoder step,
     * then the button step when there is a button.
     */
    method Update(a: bool, b: bool, level: bool, now: int) returns (rotated: bool, pressed: bool, longPressed: bool)
      requires Valid() && IsU32(now)
      modifies this
      ensures Valid() && enabled == old(enabled)
      ensures !enabled ==> !rotated && !pressed && !longPressed
                           && RotaryState() == old(RotaryState()) && ButtonStatus() == old(ButtonStatus())
      ensures enabled ==>
        var e := ReadEncoderSpec(RotarySettings(), old(RotaryState()), PinState(a, b), now);
        RotaryState() == e.0 && rotated == e.1
        && (hasButton ==> (ButtonStatus(), pressed, longPressed) == ReadButtonSpec(ButtonSettings(), old(ButtonStatus()), level, now))
        && (!hasButton ==> ButtonStatus() == old(ButtonStatus()) && !pressed && !longPressed)
    {
      rotated, pressed, longPressed := false, false, false;
      if !enabled {
        return;
      }
      rotated := ReadEncoder(a, b, now);
      if hasButton {
        pressed, longPressed := ReadButton(level, now);
      }
    }

    /** `enable`: disabling zeroes the increment and the position, so no partial count survives. */
    method Enable(on: bool)
      requires Valid()
      modifies this
      ensures Valid() && enabled == on
      ensures ButtonStatus() == old(ButtonStatus())
      ensures on ==> RotaryState() == old(RotaryState())
      ensures !on ==> RotaryState() == old(RotaryState()).(increment := 0, position := 0)
    {
      enabled := on;
      if !enabled {
        increment := 0;
        position := 0;
      }
    }

    /** `getIncrement`: the last detent's increment, which stays until the next detent or `enable(false)`. */
    function GetIncrement(): (inc: int)
      requires Valid()
      reads this
      ensures IsI8(inc) && inc == RotaryState().increment
    {
      increment
    }
  }
}

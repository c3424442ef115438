/**
 * The voltage sequencer's `MomentarySwitch`: a debounced push button that
 * reports press and release, a long press once per press, and single and
 * double clicks separated by a click window. The pin level and `millis()`
 * are parameters of `update`; the handlers become events, raised only when
 * the handler is installed.
 */
module MomentarySwitch {
  import opened IntArith

  const DEFAULT_DEBOUNCE_MS: int := 10
  const DEFAULT_LONG_PRESS_MS: int := 500
  const DEFAULT_DOUBLE_CLICK_WINDOW_MS: int := 300

  /** The wiring, the timings and which handlers are installed. */
  datatype SwitchConfig = SwitchConfig(
    activeLow: bool, debounceDuration: int, longPressDuration: int, doubleClickWindow: int,
    hasPressHandler: bool, hasReleaseHandler: bool, hasClickHandler: bool,
    hasLongPressHandler: bool, hasDoubleClickHandler: bool)

  /** The switch's changing state. */
  datatype SwitchState = SwitchState(
    pressed: bool, lastReading: bool, longPressFired: bool,
    lastChangeTime: int, pressStartTime: int, lastClickTime: int, clickCount: int)

  /** The handlers one `update` calls. */
  datatype SwitchEvents = SwitchEvents(
    press: bool, release: bool, click: bool, longPress: bool, doubleClick: bool)

  const QUIET: SwitchEvents := SwitchEvents(false, false, false, false, false)

  /** The member defaults: 10 ms debounce, 500 ms long press, 300 ms click window, no handlers. */
  function DefaultConfig(lowActive: bool): (c: SwitchConfig)
    ensures ConfigOk(c) && c.activeLow == lowActive
  {
    SwitchConfig(lowActive, DEFAULT_DEBOUNCE_MS, DEFAULT_LONG_PRESS_MS, DEFAULT_DOUBLE_CLICK_WINDOW_MS,
                 false, false, false, false, false)
  }

  predicate ConfigOk(c: SwitchConfig)
  {
    IsU32(c.debounceDuration) && IsU32(c.longPressDuration) && IsU32(c.doubleClickWindow)
  }

  /** The field widths, and at most one click waiting for its window between calls. */
  predicate StateOk(s: SwitchState)
  {
    IsU32(s.lastChangeTime) && IsU32(s.pressStartTime) && IsU32(s.lastClickTime)
    && 0 <= s.clickCount <= 1
  }

  /** With `activeLow` a LOW reading (false) is a press. */
  function IsPressedReading(c: SwitchConfig, reading: bool): (p: bool)
    ensures p <==> reading != c.activeLow
  {
    if c.activeLow then !reading else reading
  }

  /** `handlePress`. */
  function HandlePress(c: SwitchConfig, s: SwitchState, now: int): (r: (SwitchState, SwitchEvents))
    ensures r.0.pressed && !r.0.longPressFired && r.0.pressStartTime == now
    ensures r.0.clickCount == s.clickCount && r.0.lastClickTime == s.lastClickTime
  {
    (s.(pressed := true, pressStartTime := now, longPressFired := false),
     QUIET.(press := c.hasPressHandler))
  }

  /**
   * `handleRelease`: a release that ends a long press is not a click;
   * otherwise the count goes up, and a second click within the window is a
   * double click that resets the count.
   */
  function HandleRelease(c: SwitchConfig, s: SwitchState, now: int): (r: (SwitchState, SwitchEvents))
    requires StateOk(s) && IsU32(now)
    ensures !r.0.pressed && StateOk(r.0)
    ensures s.longPressFired ==> r.0.clickCount == s.clickCount && !r.1.doubleClick
    ensures !s.longPressFired ==> r.0.lastClickTime == now
    ensures r.1.doubleClick ==> s.clickCount == 1 && !s.longPressFired
  {
    var released := s.(pressed := false);
    var events := QUIET.(release := c.hasReleaseHandler);
    if s.longPressFired then (released, events)
    else if s.clickCount + 1 == 2 then
      (released.(clickCount := 0, lastClickTime := now), events.(doubleClick := c.hasDoubleClickHandler))
    else
      (released.(clickCount := s.clickCount + 1, lastClickTime := now), events)
  }

  /** The edge a stable reading makes: a press, a release, or nothing. */
  function EdgeStep(c: SwitchConfig, s: SwitchState, reading: bool, now: int): (r: (SwitchState, SwitchEvents))
    requires StateOk(s) && IsU32(now)
    ensures StateOk(r.0) && r.0.pressed == IsPressedReading(c, reading)
  {
    var isPressed := IsPressedReading(c, reading);
    if isPressed && !s.pressed then HandlePress(c, s, now)
    else if !isPressed && s.pressed then HandleRelease(c, s, now)
    else (s, QUIET)
  }

  /** The long-press check: pressed for at least the long-press time, with the handler installed and not yet fired. */
  function LongPressCheck(c: SwitchConfig, t: SwitchState, events: SwitchEvents, now: int): (r: (SwitchState, SwitchEvents))
    requires StateOk(t) && IsU32(now)
    ensures StateOk(r.0) && r.0.pressed == t.pressed && r.0.clickCount == t.clickCount
  {
    if t.pressed && !t.longPressFired && c.hasLongPressHandler && Since(now, t.pressStartTime) >= c.longPressDuration
    then (t.(longPressFired := true), events.(longPress := true))
    else (t, events)
  }

  /** The part of `update` that runs once the reading has been stable longer than the debounce time. */
  function StableStep(c: SwitchConfig, s: SwitchState, reading: bool, now: int): (r: (SwitchState, SwitchEvents))
    requires StateOk(s) && IsU32(now)
    ensures StateOk(r.0)
  {
    var e := EdgeStep(c, s, reading, now);
    LongPressCheck(c, e.0, e.1, now)
  }

  /** The debounce stage of `update`: a changed reading restarts the timer; a stable one goes on to `StableStep`. */
  function DebounceStep(c: SwitchConfig, s: SwitchState, reading: bool, now: int): (r: (SwitchState, SwitchEvents))
    requires StateOk(s) && IsU32(now)
    ensures StateOk(r.0)
  {
    var changeTime := if reading != s.lastReading then now else s.lastChangeTime;
    var s1 := s.(lastChangeTime := changeTime);
    if Since(now, changeTime) > c.debounceDuration then StableStep(c, s1, reading, now) else (s1, QUIET)
  }

  /** The click-window stage: once the window has passed, a single waiting click fires and the count restarts. */
  function ClickTimeout(c: SwitchConfig, t: SwitchState, events: SwitchEvents, now: int): (r: (SwitchState, SwitchEvents))
    requires StateOk(t) && IsU32(now)
    ensures StateOk(r.0)
  {
    if t.clickCount > 0 && Since(now, t.lastClickTime) > c.doubleClickWindow then
      (t.(clickCount := 0), events.(click := t.clickCount == 1 && c.hasClickHandler))
    else (t, events)
  }

  /** `update` while enabled. */
  function UpdateSpec(c: SwitchConfig, s: SwitchState, reading: bool, now: int): (r: (SwitchState, SwitchEvents))
    requires ConfigOk(c) && StateOk(s) && IsU32(now)
    ensures StateOk(r.0) && r.0.lastReading == reading
  {
    var d := DebounceStep(c, s, reading, now);
    var t := ClickTimeout(c, d.0, d.1, now);
    (t.0.(lastReading := reading), t.1)
  }

  /**
   * Debounce: a press or release is recognised only for a reading equal to
   * the previous one and stable for longer than the debounce time, and the
   * press level is the inverted one for an active-low switch.
   */
  lemma EdgeNeedsStableReading(c: SwitchConfig, s: SwitchState, reading: bool, now: int)
    requires ConfigOk(c) && StateOk(s) && IsU32(now)
    ensures var r := UpdateSpec(c, s, reading, now);
      r.0.pressed != s.pressed ==>
        reading == s.lastReading && Since(now, s.lastChangeTime) > c.debounceDuration
        && r.0.pressed == IsPressedReading(c, reading)
  {
  }

  /** A chattering reading (different from the last) never changes the pressed state. */
  lemma ChangedReadingWaits(c: SwitchConfig, s: SwitchState, reading: bool, now: int)
    requires ConfigOk(c) && StateOk(s) && IsU32(now) && reading != s.lastReading
    ensures var r := UpdateSpec(c, s, reading, now);
      r.0.pressed == s.pressed && !r.1.press && !r.1.release && r.0.lastChangeTime == now
  {
  }

  /** The press handler fires exactly on the recognised press edge. */
  lemma PressEventIsPressEdge(c: SwitchConfig, s: SwitchState, reading: bool, now: int)
    requires ConfigOk(c) && StateOk(s) && IsU32(now)
    ensures var r := UpdateSpec(c, s, reading, now);
      r.1.press <==> (!s.pressed && r.0.pressed && c.hasPressHandler)
  {
  }

  /**
   * The long press fires at most once per press: it sets the fired flag,
   * which only a new press clears, so the next call cannot fire it again
   * while the switch stays pressed.
   */
  lemma LongPressOncePerPress(c: SwitchConfig, s: SwitchState, reading: bool, now: int, reading2: bool, now2: int)
    requires ConfigOk(c) && StateOk(s) && IsU32(now) && IsU32(now2)
    ensures var r := UpdateSpec(c, s, reading, now);
      var r2 := UpdateSpec(c, r.0, reading2, now2);
      (r.1.longPress ==> r.0.pressed && r.0.longPressFired && c.hasLongPressHandler)
      && (r.1.longPress && r2.0.pressed ==> !r2.1.longPress)
  {
  }

  /** A release that ends a long press does not count as a click. */
  lemma LongPressReleaseIsNoClick(c: SwitchConfig, s: SwitchState, reading: bool, now: int)
    requires ConfigOk(c) && StateOk(s) && IsU32(now) && s.pressed && s.longPressFired
    ensures var r := UpdateSpec(c, s, reading, now);
      !r.1.doubleClick && r.0.clickCount <= s.clickCount
  {
  }

  /** A click released while one click waits inside the window is a double click, and the count restarts. */
  lemma SecondClickIsDoubleClick(c: SwitchConfig, s: SwitchState, reading: bool, now: int)
    requires ConfigOk(c) && StateOk(s) && IsU32(now)
    requires s.pressed && !s.longPressFired && s.clickCount == 1
    requires reading == s.lastReading && IsPressedReading(c, reading) == false
    requires Since(now, s.lastChangeTime) > c.debounceDuration
    ensures var r := UpdateSpec(c, s, reading, now);
      r.1.doubleClick == c.hasDoubleClickHandler && r.0.clickCount == 0 && !r.1.click && !r.0.pressed
  {
  }

  /** The single click fires only once the window has passed with exactly one click, and the count restarts. */
  lemma SingleClickAfterWindow(c: SwitchConfig, s: SwitchState, reading: bool, now: int)
    requires ConfigOk(c) && StateOk(s) && IsU32(now)
    ensures var r := UpdateSpec(c, s, reading, now);
      r.1.click ==> c.hasClickHandler && r.0.clickCount == 0 && !r.1.doubleClick
  {
  }

  /** With one click waiting, no edge, and the window passed, the click fires. */
  lemma WaitingClickFires(c: SwitchConfig, s: SwitchState, reading: bool, now: int)
    requires ConfigOk(c) && StateOk(s) && IsU32(now) && c.hasClickHandler
    requires s.clickCount == 1 && reading == s.lastReading && s.pressed == IsPressedReading(c, reading)
    requires Since(now, s.lastClickTime) > c.doubleClickWindow && !c.hasLongPressHandler
    ensures var r := UpdateSpec(c, s, reading, now);
      r.1.click && r.0.clickCount == 0
  {
  }

  /** `handlePress` and `handleRelease`, as reached from `update`, on local copies of the fields. */
  method Edge(c: SwitchConfig, s: SwitchState, reading: bool, now: int) returns (n: SwitchState, events: SwitchEvents)
    requires StateOk(s) && IsU32(now)
    ensures (n, events) == EdgeStep(c, s, reading, now)
  {
    n, events := s, QUIET;
    var isPressed := if c.activeLow then !reading else reading;
    if isPressed && !n.pressed {
      n := n.(pressed := true, pressStartTime := now, longPressFired := false);
      events := events.(press := c.hasPressHandler);
    } else if !isPressed && n.pressed {
      n := n.(pressed := false);
      events := events.(release := c.hasReleaseHandler);
      if !n.longPressFired {
        n := n.(clickCount := n.clickCount + 1, lastClickTime := now);
        if n.clickCount == 2 {
          events := events.(doubleClick := c.hasDoubleClickHandler);
          n := n.(clickCount := 0);
        }
      }
    }
  }

  /** The debounce and long-press part of `update`, on local copies of the fields. */
  method Debounce(c: SwitchConfig, s: SwitchState, reading: bool, now: int) returns (n: SwitchState, events: SwitchEvents)
    requires StateOk(s) && IsU32(now)
    ensures (n, events) == DebounceStep(c, s, reading, now)
  {
    n, events := s, QUIET;
    if reading != n.lastReading {
      n := n.(lastChangeTime := now);
    }
    if Since(now, n.lastChangeTime) > c.debounceDuration {
      n, events := Edge(c, n, reading, now);
      if n.pressed && !n.longPressFired && c.hasLongPressHandler {
        if Since(now, n.pressStartTime) >= c.longPressDuration {
          n := n.(longPressFired := true);
          events := events.(longPress := true);
        }
      }
    }
  }

  /**
   * The steps of `update` while enabled, on local copies of the fields,
   * with every `millis()` read at the same `now`.
   */
  method UpdateStep(c: SwitchConfig, s: SwitchState, reading: bool, now: int) returns (n: SwitchState, events: SwitchEvents)
    requires ConfigOk(c) && StateOk(s) && IsU32(now)
    ensures (n, events) == UpdateSpec(c, s, reading, now)
  {
    n, events := Debounce(c, s, reading, now);
    if n.clickCount > 0 && Since(now, n.lastClickTime) > c.doubleClickWindow {
      if n.clickCount == 1 && c.hasClickHandler {
        events := events.(click := true);
      }
      n := n.(clickCount := 0);
    }
    n := n.(lastReading := reading);
  }

  /** `MomentarySwitch`. */
  class Switch {
    const activeLow: bool
    const debounceDuration: int
    const longPressDuration: int
    const doubleClickWindow: int
    const hasPressHandler: bool
    const hasReleaseHandler: bool
    const hasClickHandler: bool
    const hasLongPressHandler: bool
    const hasDoubleClickHandler: bool

    var pressed: bool
    var lastReading: bool
    var enabled: bool
    var longPressFired: bool
    var lastChangeTime: int
    var pressStartTime: int
    var lastClickTime: int
    var clickCount: int

    function Config(): SwitchConfig
      reads this
    {
      SwitchConfig(activeLow, debounceDuration, longPressDuration, doubleClickWindow,
                   hasPressHandler, hasReleaseHandler, hasClickHandler, hasLongPressHandler, hasDoubleClickHandler)
    }

    function State(): SwitchState
      reads this
    {
      SwitchState(pressed, lastReading, longPressFired, lastChangeTime, pressStartTime, lastClickTime, clickCount)
    }

    ghost predicate Valid()
      reads this
    {
      ConfigOk(Config()) && StateOk(State())
    }

    /**
     * The constructor records the initial reading and stores the wiring;
     * the timing setters and the handler setters are folded into `c`,
     * whose defaults are `DefaultConfig`.
     */
    constructor(c: SwitchConfig, reading: bool)
      requires ConfigOk(c)
      ensures Valid() && enabled && Config() == c
      ensures State() == SwitchState(false, reading, false, 0, 0, 0, 0)
    {
      activeLow, debounceDuration, longPressDuration, doubleClickWindow :=
        c.activeLow, c.debounceDuration, c.longPressDuration, c.doubleClickWindow;
      hasPressHandler, hasReleaseHandler, hasClickHandler, hasLongPressHandler, hasDoubleClickHandler :=
        c.hasPressHandler, c.hasReleaseHandler, c.hasClickHandler, c.hasLongPressHandler, c.hasDoubleClickHandler;
      pressed := false;
      lastReading := reading;
      enabled := true;
      longPressFired := false;
      lastChangeTime, pressStartTime, lastClickTime, clickCount := 0, 0, 0, 0;
    }

    /** Stores a new switch state, leaving the configuration alone. */
    method Store(n: SwitchState)
      requires Valid() && StateOk(n)
      modifies this
      ensures Valid() && State() == n && enabled == old(enabled)
    {
      pressed, lastReading, longPressFired := n.pressed, n.lastReading, n.longPressFired;
      lastChangeTime, pressStartTime, lastClickTime, clickCount :=
        n.lastChangeTime, n.pressStartTime, n.lastClickTime, n.clickCount;
    }

    /** `update`: nothing at all while disabled. */
    method Update(reading: bool, now: int) returns (events: SwitchEvents)
      requires Valid() && IsU32(now)
      modifies this
      ensures Valid() && enabled == old(enabled)
      ensures !enabled ==> State() == old(State()) && events == QUIET
      ensures enabled ==> (State(), events) == UpdateSpec(Config(), old(State()), reading, now)
    {
      events := QUIET;
      if !enabled {
        return;
      }
      var n;
      n, events := UpdateStep(Config(), State(), reading, now);
      Store(n);
    }

    /** `getPressedDuration`: zero when not pressed, otherwise the wrapped time since the press. */
    function GetPressedDuration(now: int): (d: int)
      requires Valid() && IsU32(now)
      reads this
      ensures IsU32(d)
      ensures !pressed ==> d == 0
      ensures pressed ==> (d + pressStartTime - now) % TWO32 == 0
    {
      if !pressed then 0 else Since(now, pressStartTime)
    }

    /** `setEnabled`. */
    method SetEnabled(on: bool)
      modifies this
      ensures enabled == on && State() == old(State())
    {
      enabled := on;
    }
  }
}

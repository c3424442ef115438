/**
 * Xylem's `LocalMetronome`: a song-position counter advanced once per tick,
 * with beat and bar boundaries derived from PPQN and the time signature,
 * events handed to callbacks directly or through a fixed ring buffer, and a
 * parts-per-million slew of the tick interval toward a target. The hardware
 * alarm, the clock and the float tempo conversions are outside the model:
 * the current time and the tick interval a tempo gives are parameters.
 */
module Metronome {
  import opened IntArith

  const MAX_EVENT_QUEUE: int := 256
  const PPM_SCALE: int := 1000000

  /** The queued event, carrying only the fields its handler receives. */
  datatype Event = TickEvent(songTicks: int) | BeatEvent(songTicks: int, bar: int, beat: int) | BarEvent(songTicks: int, bar: int)

  /** A position advanced by k steps, 0 < k <= n, is back where it started exactly when k == n. */
  lemma WrapReturns(t: int, k: int, n: int)
    requires 0 <= t < n && 1 <= k <= n
    ensures (t + k) % n == t <==> k == n
  {
    if k < n {
      ResidueDistinct(t, t + k, n);
    } else {
      DivModUnique(t + k, n, 1, t);
    }
  }

  /** Reducing a position before adding to it does not change the result. */
  lemma ModAddReduce(a: int, b: int, n: int)
    requires n > 0 && a >= 0 && b >= 0
    ensures (a % n + b) % n == (a + b) % n
  {
    DivModUnique(a + b, n, a / n + (a % n + b) / n, (a % n + b) % n);
  }

  /** Removing the oldest of the events held from `tail` on leaves the rest held from the next slot. */
  lemma RingDrop(buf: seq<Event>, c: seq<Event>, tail: int, size: int)
    requires 0 <= tail < size <= |buf| && 1 <= |c| < size
    requires forall i :: 0 <= i < |c| ==> c[i] == buf[(tail + i) % size]
    ensures c[0] == buf[tail]
    ensures forall i :: 0 <= i < |c| - 1 ==> c[1..][i] == buf[((tail + 1) % size + i) % size]
    ensures ((tail + 1) % size + (|c| - 1)) % size == (tail + |c|) % size
  {
    assert c[0] == buf[(tail + 0) % size];
    DivModUnique(tail, size, 0, tail);
    forall i | 0 <= i < |c| - 1
      ensures c[1..][i] == buf[((tail + 1) % size + i) % size]
    {
      assert c[1..][i] == c[i + 1];
      ModAddReduce(tail + 1, i, size);
    }
    ModAddReduce(tail + 1, |c| - 1, size);
  }

  /** The leading events of `es` that a queue of `size` slots holding `held` events still takes. */
  function Fitting(es: seq<Event>, held: int, size: int): (r: seq<Event>)
    ensures |r| <= |es| && r == es[..|r|]
    ensures size - 1 - held >= |es| ==> r == es
  {
    es[..Max(0, Min(|es|, size - 1 - held))]
  }

  /** `RingBuffer`: `size` slots of `buffer` in use, `tail` the oldest, `head` the next free slot. */
  class EventQueue {
    const buffer: array<Event>
    var size: int
    var head: int
    var tail: int
    /** The queued events, oldest first. */
    ghost var contents: seq<Event>

    ghost predicate Valid()
      reads this, buffer
    {
      buffer.Length == MAX_EVENT_QUEUE && 0 <= size <= MAX_EVENT_QUEUE
      && (size == 0 ==> head == 0 && tail == 0 && contents == [])
      && (size > 0 ==>
            0 <= tail < size && |contents| < size && head == (tail + |contents|) % size
            && forall i :: 0 <= i < |contents| ==> contents[i] == buffer[(tail + i) % size])
    }

    /** The static buffer before `begin`: no slots in use. */
    constructor()
      ensures Valid() && fresh(buffer) && size == 0 && contents == []
    {
      buffer := new Event[MAX_EVENT_QUEUE](_ => TickEvent(0));
      size, head, tail := 0, 0, 0;
      contents := [];
    }

    /** The queue part of `begin`: `n` slots, empty. */
    method Reset(n: int)
      requires Valid() && 0 <= n <= MAX_EVENT_QUEUE
      modifies this
      ensures Valid() && size == n && contents == [] && head == 0 && tail == 0
    {
      size, head, tail := n, 0, 0;
      contents := [];
    }

    /** `empty`. */
    function Empty(): (r: bool)
      requires Valid()
      reads this, buffer
      ensures r <==> contents == []
    {
      EmptyWhenIndicesMeet();
      head == tail
    }

    /** `head == tail` exactly when nothing is queued, since at most `size - 1` events are. */
    lemma EmptyWhenIndicesMeet()
      requires Valid()
      ensures head == tail <==> contents == []
    {
      if size > 0 && |contents| > 0 {
        WrapReturns(tail, |contents|, size);
      }
    }

    /**
     * `push`: fails, changing nothing, when the slot after `head` is `tail`,
     * so at most `size - 1` events fit; otherwise appends the event.
     */
    method Push(e: Event) returns (ok: bool)
      requires Valid() && size > 0
      modifies this, buffer
      ensures Valid() && size == old(size)
      ensures ok <==> |old(contents)| < size - 1
      ensures ok ==> contents == old(contents) + [e]
      ensures !ok ==> contents == old(contents)
    {
      ModAddReduce(tail + |contents|, 1, size);
      WrapReturns(tail, |contents| + 1, size);
      var next := (head + 1) % size;
      if next == tail {
        return false;
      }
      forall i | 0 <= i < |contents|
        ensures contents[i] == buffer[(tail + i) % size] && (tail + i) % size != head
      {
        ResidueDistinct(tail + i, tail + |contents|, size);
      }
      buffer[head] := e;
      head := next;
      contents := contents + [e];
      ok := true;
    }

    /** `pop`: fails, changing nothing, when empty; otherwise removes and returns the oldest event. */
    method Pop() returns (ok: bool, e: Event)
      requires Valid()
      modifies this
      ensures Valid() && size == old(size)
      ensures ok <==> old(contents) != []
      ensures ok ==> e == old(contents)[0] && contents == old(contents)[1..]
      ensures !ok ==> contents == old(contents)
    {
      EmptyWhenIndicesMeet();
      if head == tail {
        return false, TickEvent(0);
      }
      RingDrop(buffer[..], contents, tail, size);
      e := buffer[tail];
      tail := (tail + 1) % size;
      contents := contents[1..];
      ok := true;
    }

    /**
     * The pushes of one tick, each ignoring a full queue: the events that
     * fit are appended in order, and once the queue is full the rest are lost.
     */
    method PushAll(events: seq<Event>)
      requires Valid() && size > 0
      modifies this, buffer
      ensures Valid() && size == old(size)
      ensures contents == old(contents) + Fitting(events, |old(contents)|, size)
    {
      ghost var start := contents;
      for k := 0 to |events|
        invariant Valid() && size == old(size)
        invariant contents == start + events[..Min(k, size - 1 - |start|)]
      {
        var _ := Push(events[k]);
        assert events[..Min(k + 1, size - 1 - |start|)]
          == if k < size - 1 - |start| then events[..Min(k, size - 1 - |start|)] + [events[k]]
             else events[..Min(k, size - 1 - |start|)];
      }
    }

    /** The loop of `update`: pops until empty, keeping each event whose handler is installed. */
    method Drain(hasTick: bool, hasBeat: bool, hasBar: bool) returns (dispatched: seq<Event>)
      requires Valid()
      modifies this
      ensures Valid() && size == old(size) && contents == []
      ensures dispatched == Handled(old(contents), hasTick, hasBeat, hasBar)
    {
      ghost var start := contents;
      dispatched := [];
      var more := true;
      while more
        invariant Valid() && size == old(size)
        invariant Handled(start, hasTick, hasBeat, hasBar) == dispatched + Handled(contents, hasTick, hasBeat, hasBar)
        invariant !more ==> contents == []
        decreases |contents| + (if more then 1 else 0)
      {
        ghost var before := contents;
        var ok, e := Pop();
        if !ok {
          more := false;
        } else {
          assert before == [e] + contents;
          HandledAppend([e], contents, hasTick, hasBeat, hasBar);
          HandledOne([e], hasTick, hasBeat, hasBar);
          if Keep(e, hasTick, hasBeat, hasBar) {
            dispatched := dispatched + [e];
          }
        }
      }
    }
  }

  /** `updateDerivedValues`: ticks per beat for the beat unit, and per bar. */
  function TicksPerBeat(ppqn: int, beatUnit: int): (tpb: int)
    requires IsU16(ppqn) && IsU8(beatUnit) && beatUnit > 0
    ensures 0 <= tpb <= ppqn * 4
    ensures beatUnit == 4 ==> tpb == ppqn
  {
    DivAtMost(ppqn * 4, beatUnit);
    if beatUnit == 4 then DivModUnique(ppqn * 4, 4, ppqn, 0); ppqn else ppqn * 4 / beatUnit
  }

  /** The uint32 product `tpb * beatsPerBar` never wraps. */
  function TicksPerBar(tpb: int, beatsPerBar: int): (tpBar: int)
    requires 0 <= tpb <= 4 * (TWO16 - 1) && IsU8(beatsPerBar)
    ensures IsU32(tpBar) && tpBar == tpb * beatsPerBar
  {
    MulMono(tpb, beatsPerBar, 4 * (TWO16 - 1), TWO8 - 1);
    U32(tpb * beatsPerBar)
  }

  /** Every bar boundary is a beat boundary. */
  lemma BarIsBeat(ticks: nat, tpb: int, beatsPerBar: int)
    requires tpb > 0 && beatsPerBar > 0
    ensures ticks % (tpb * beatsPerBar) == 0 ==> ticks % tpb == 0
  {
    if ticks % (tpb * beatsPerBar) == 0 {
      var q := ticks / (tpb * beatsPerBar);
      DivModUnique(ticks, tpb * beatsPerBar, q, 0);
      DivModUnique(ticks, tpb, q * beatsPerBar, 0);
    }
  }

  /** `getBBT`: the bar as uint32, the beat within the bar and the tick within the beat as uint16. */
  function Bbt(ticks: int, tpBar: int, tpBeat: int): (r: (int, int, int))
    requires ticks >= 0 && tpBar > 0 && tpBeat > 0
    ensures IsU32(r.0) && IsU16(r.1) && IsU16(r.2)
  {
    var ticksInBar := ticks % tpBar;
    (U32(ticks / tpBar), U16(ticksInBar / tpBeat), U16(ticksInBar % tpBeat))
  }

  /**
   * With the derived values consistent the beat is below the beats per
   * bar; when a beat has at most 2^16 ticks and the song is shorter than
   * 2^32 bars, the tick is below the ticks per beat and bar, beat and tick
   * add back up to the song position.
   */
  lemma BbtDecomposes(ticks: int, tpBeat: int, beatsPerBar: int)
    requires ticks >= 0 && tpBeat > 0 && IsU8(beatsPerBar) && beatsPerBar > 0
    ensures var r := Bbt(ticks, tpBeat * beatsPerBar, tpBeat);
      r.1 < beatsPerBar
      && (tpBeat <= TWO16 && ticks / (tpBeat * beatsPerBar) < TWO32 ==>
            r.0 * (tpBeat * beatsPerBar) + r.1 * tpBeat + r.2 == ticks && r.2 < tpBeat)
  {
    var tpBar := tpBeat * beatsPerBar;
    var inBar := ticks % tpBar;
    DivBound(inBar, tpBeat, beatsPerBar);
    assert inBar == (inBar / tpBeat) * tpBeat + inBar % tpBeat;
    assert ticks == (ticks / tpBar) * tpBar + inBar;
  }

  /** `nudgeSongTicks`: a negative delta larger than the position saturates at zero; otherwise uint64 addition. */
  function Nudge(current: int, delta: int): (r: int)
    requires IsU64(current) && IsI64(delta)
    ensures IsU64(r)
    ensures delta < 0 && -delta > current ==> r == 0
    ensures delta < 0 && -delta <= current ==> r == current + delta
    ensures delta >= 0 && current + delta < TWO64 ==> r == current + delta
  {
    if delta < 0 && -delta > current then 0 else U64(current + delta)
  }

  /** No nudge takes the position below zero, and a nudge back by the whole position rewinds to zero. */
  lemma NudgeNeverUnderflows(current: int, delta: int)
    requires IsU64(current) && IsI64(delta) && delta <= 0
    ensures Nudge(current, delta) == Max(0, current + delta)
    ensures delta == -current ==> Nudge(current, delta) == 0
  {
  }

  /** The order in which the deferred mode queues: bar before beat before tick. */
  function Rank(e: Event): int
  {
    match e
    case BarEvent(_, _) => 2
    case BeatEvent(_, _, _) => 1
    case TickEvent(_) => 0
  }

  /** The deferred-mode pushes of one tick at position `ticks`. */
  function QueuedEvents(ticks: int, tpBeat: int, tpBar: int, hasTickCallback: bool): (es: seq<Event>)
    requires ticks >= 0 && tpBeat > 0 && tpBar > 0
    ensures forall i, j :: 0 <= i < j < |es| ==> Rank(es[i]) > Rank(es[j])
    ensures forall i :: 0 <= i < |es| ==> es[i].songTicks == ticks
  {
    var isBeat := ticks % tpBeat == 0;
    var isBar := ticks % tpBar == 0;
    (if isBar then [BarEvent(ticks, U32(ticks / tpBar))] else [])
    + (if isBeat then [BeatEvent(ticks, U32(ticks / tpBar), U16((ticks % tpBar) / tpBeat))] else [])
    + (if hasTickCallback then [TickEvent(ticks)] else [])
  }

  /** The direct-dispatch calls of one tick: tick, then beat, then bar only on a beat. */
  function DirectEvents(ticks: int, tpBeat: int, tpBar: int, hasTick: bool, hasBeat: bool, hasBar: bool): (es: seq<Event>)
    requires ticks >= 0 && tpBeat > 0 && tpBar > 0
    ensures forall i :: 0 <= i < |es| ==> es[i].songTicks == ticks
  {
    var isBeat := ticks % tpBeat == 0;
    var isBar := ticks % tpBar == 0;
    (if hasTick then [TickEvent(ticks)] else [])
    + (if isBeat && hasBeat then [BeatEvent(ticks, U32(ticks / tpBar), U16((ticks % tpBar) / tpBeat))] else [])
    + (if isBeat && isBar && hasBar then [BarEvent(ticks, U32(ticks / tpBar))] else [])
  }

  /** On a consistent meter the deferred queue holds a beat event whenever it holds a bar event. */
  lemma QueuedBarHasBeat(ticks: nat, tpBeat: int, beatsPerBar: int, hasTick: bool)
    requires tpBeat > 0 && beatsPerBar > 0
    ensures var es := QueuedEvents(ticks, tpBeat, tpBeat * beatsPerBar, hasTick);
      (exists i :: 0 <= i < |es| && es[i].BarEvent?) ==> |es| >= 2 && es[1].BeatEvent?
  {
    BarIsBeat(ticks, tpBeat, beatsPerBar);
  }

  /** The handlers `update` calls: each queued event whose handler is installed, in queue order. */
  function Handled(es: seq<Event>, hasTick: bool, hasBeat: bool, hasBar: bool): (r: seq<Event>)
    ensures |r| <= |es|
  {
    if es == [] then []
    else (if Keep(es[0], hasTick, hasBeat, hasBar) then [es[0]] else []) + Handled(es[1..], hasTick, hasBeat, hasBar)
  }

  /** Whether `update`'s switch finds a handler for the event. */
  predicate Keep(e: Event, hasTick: bool, hasBeat: bool, hasBar: bool)
  {
    match e
    case TickEvent(_) => hasTick
    case BeatEvent(_, _, _) => hasBeat
    case BarEvent(_, _) => hasBar
  }

  /** With every handler installed, `update` delivers exactly the queue. */
  lemma {:induction false} AllHandledIsQueue(es: seq<Event>)
    ensures Handled(es, true, true, true) == es
  {
    if es != [] {
      AllHandledIsQueue(es[1..]);
    }
  }

  /** Handling a queue in two parts handles it in one. */
  lemma {:induction false} HandledAppend(a: seq<Event>, b: seq<Event>, hasTick: bool, hasBeat: bool, hasBar: bool)
    ensures Handled(a + b, hasTick, hasBeat, hasBar) == Handled(a, hasTick, hasBeat, hasBar) + Handled(b, hasTick, hasBeat, hasBar)
  {
    if a == [] {
      assert a + b == b;
    } else {
      assert (a + b)[0] == a[0];
      assert (a + b)[1..] == a[1..] + b;
      HandledAppend(a[1..], b, hasTick, hasBeat, hasBar);
    }
  }

  /** The slew state `applySlewCorrection` leaves: the new interval and the new rate. */
  datatype Slew = Slew(interval: int, ppm: int)

  /**
   * `applySlewCorrection` exactly as written: the uint64 interval times the
   * int32 rate is taken in uint64 and divided unsigned, and the clamps to
   * the target go through `min_int32` / `max_int32`.
   */
  function SlewAsWritten(current: int, target: int, ppm: int): (r: Slew)
    requires IsU64(current) && IsU64(target) && IsI32(ppm)
    ensures IsU64(r.interval)
  {
    if ppm == 0 then Slew(current, ppm)
    else if current == target then Slew(current, 0)
    else
      var adjustment := I64(U64(current * U64(ppm)) / PPM_SCALE);
      var sum := I32(U64(current + adjustment));
      var next := U64(if current < target then Min(sum, I32(target)) else Max(sum, I32(target)));
      Slew(next, if Abs(I64(next) - I64(target)) < Abs(adjustment) then CDiv(ppm, 2) else ppm)
  }

  /**
   * The interval 10000 µs slewing down to 5000 µs at −1000 ppm jumps
   * straight to the target: the uint64 product wraps, the adjustment comes
   * out near +1.8·10^13, and the int32 clamp then picks the target.
   */
  lemma SlewAsWrittenSnapsFasterTempo()
    ensures SlewAsWritten(10000, 5000, -1000) == Slew(5000, -500)
    ensures SlewStep(10000, 5000, -1000) == Slew(9990, -1000)
  {
    var adjustment := I64(U64(10000 * U64(-1000)) / PPM_SCALE);
    assert U64(-1000) == TWO64 - 1000;
    assert U64(10000 * U64(-1000)) == TWO64 - 10000000 by {
      DivModUnique(10000 * (TWO64 - 1000), TWO64, 9999, TWO64 - 10000000);
    }
    DivModUnique(TWO64 - 10000000, PPM_SCALE, 18446744073699, 551616);
    assert adjustment == 18446744073699;
    DivModUnique(10000 + 18446744073699 + TWO31, TWO32, 4295, 2007031027);
    assert I32(U64(10000 + adjustment)) == -140452621;
    DivModUnique(10000 * -1000, PPM_SCALE, -10, 0);
  }

  /**
   * `applySlewCorrection` as evidently intended: a signed adjustment
   * ⌊current·ppm / 10^6⌋ truncated toward zero, added to the interval and
   * clamped at the target with 64-bit comparisons; the rate halves once the
   * remaining distance is below one adjustment and is zeroed at the target.
   */
  function SlewStep(current: int, target: int, ppm: int): (r: Slew)
    requires IsU64(current) && IsU64(target) && IsI32(ppm)
    ensures IsU64(r.interval)
    ensures ppm == 0 ==> r == Slew(current, 0)
    ensures ppm != 0 && current == target ==> r == Slew(current, 0)
    ensures IsI32(r.ppm) && Abs(r.ppm) <= Abs(ppm)
  {
    DivAtMost(Abs(ppm), 2);
    if ppm == 0 then Slew(current, ppm)
    else if current == target then Slew(current, 0)
    else
      var adjustment := CDiv(current * ppm, PPM_SCALE);
      var next := U64(if current < target then Min(current + adjustment, target) else Max(current + adjustment, target));
      Slew(next, if Abs(next - target) < Abs(adjustment) then CDiv(ppm, 2) else ppm)
  }

  /** The truncated adjustment is at most |ppm|/10^6 of the interval, with the rate's sign. */
  lemma AdjustmentBounds(current: int, ppm: int)
    requires current >= 0 && -PPM_SCALE <= ppm <= PPM_SCALE
    ensures var a := CDiv(current * ppm, PPM_SCALE);
      -current <= a <= current && (ppm >= 0 ==> a >= 0) && (ppm <= 0 ==> a <= 0)
  {
    var p := current * ppm;
    var m := Abs(ppm);
    assert Abs(p) == current * m by {
      if ppm < 0 {
        assert p == -(current * m);
      }
    }
    MulLe(m, PPM_SCALE, current);
    DivBound(Abs(p), PPM_SCALE, current + 1);
  }

  /**
   * The corrected slew never crosses the target, and with a rate of the
   * target's sign it moves the interval toward the target without leaving
   * the segment between them.
   */
  lemma SlewNeverCrossesTarget(current: int, target: int, ppm: int)
    requires IsU64(current) && current < TWO63 && IsU64(target) && -PPM_SCALE <= ppm <= PPM_SCALE
    ensures var r := SlewStep(current, target, ppm);
      (current <= target ==> r.interval <= target) && (current >= target ==> r.interval >= target)
      && (current < target && ppm >= 0 ==> current <= r.interval <= target)
      && (current > target && ppm <= 0 ==> target <= r.interval <= current)
  {
    AdjustmentBounds(current, ppm);
  }

  /**
   * The integer part of `setBPM` with slewing: the rate that moves the
   * current interval to the new one, in ppm of the current interval,
   * narrowed to int32 and clamped to ±maxPpm. A faster tempo (a shorter
   * interval) never gives a positive rate.
   */
  function SlewRateFor(current: int, newInterval: int, maxPpm: int): (ppm: int)
    requires IsU64(current) && current > 0 && IsU64(newInterval) && 0 <= maxPpm < TWO31
    ensures -maxPpm <= ppm <= maxPpm && IsI32(ppm)
    ensures newInterval < current ==> ppm <= 0 && ppm >= -Min(maxPpm, PPM_SCALE)
    ensures current < newInterval <= 2148 * current ==> ppm >= 0
    ensures newInterval == current ==> ppm == 0
  {
    Max(-maxPpm, Min(maxPpm, I32(RawRate(current, newInterval))))
  }

  /** The int64 rate before narrowing: the interval change in ppm of the current interval, truncated toward zero. */
  function RawRate(current: int, newInterval: int): (q: int)
    requires current > 0 && newInterval >= 0
    ensures newInterval < current ==> -PPM_SCALE <= q <= 0
    ensures current < newInterval <= 2148 * current ==> 0 <= q < TWO31
    ensures newInterval == current ==> q == 0
  {
    RawRateBounds(current, newInterval);
    CDiv((newInterval - current) * PPM_SCALE, current)
  }

  /**
   * A shorter interval is at most 100% shorter, so the raw rate lies in
   * [−10^6, 0]; a longer one, up to 2148 times the current, gives a raw
   * rate in [0, 2^31), which the int32 narrowing keeps.
   */
  lemma RawRateBounds(current: int, newInterval: int)
    requires current > 0 && newInterval >= 0
    ensures var q := CDiv((newInterval - current) * PPM_SCALE, current);
      (newInterval < current ==> -PPM_SCALE <= q <= 0)
      && (current < newInterval <= 2148 * current ==> 0 <= q < TWO31)
  {
    if newInterval < current {
      MulLe(current - newInterval, current, PPM_SCALE);
      DivBound((current - newInterval) * PPM_SCALE, current, PPM_SCALE + 1);
    } else if newInterval <= 2148 * current {
      MulLe(newInterval - current, 2147 * current, PPM_SCALE);
      assert (newInterval - current) * PPM_SCALE <= current * (2147 * PPM_SCALE);
      DivBound((newInterval - current) * PPM_SCALE, current, 2147 * PPM_SCALE + 1);
    }
  }

  /**
   * Every tempo increase with slewing meets the wrap: from 10000 µs toward
   * 5000 µs the rate is negative (the clamp gives −2000 ppm by default),
   * and the as-written slew then lands on the target in one tick.
   */
  lemma FasterTempoSlewsNegative()
    ensures SlewRateFor(10000, 5000, 2000) == -2000
  {
    DivModUnique(5000 * PPM_SCALE, 10000, 500000, 0);
  }

  const Q16_ONE: int := 65536

  /** `MetronomeConfig` without the float tempo, which reaches the model as a tick interval and a Q16.16 value. */
  datatype MetronomeConfig = MetronomeConfig(
    ppqn: int, beatsPerBar: int, beatUnit: int, startRunning: bool,
    dispatchInIrq: bool, maxEventQueue: int, maxPpm: int)

  /** The header's defaults: 96 PPQN, 4/4, start running, deferred dispatch, a 128-event queue, ±2000 ppm. */
  function DefaultConfig(): (c: MetronomeConfig)
    ensures ConfigOk(c)
  {
    MetronomeConfig(96, 4, 4, true, false, 128, 2000)
  }

  predicate ConfigOk(c: MetronomeConfig)
  {
    IsU16(c.ppqn) && IsU8(c.beatsPerBar) && IsU8(c.beatUnit) && c.beatUnit > 0
    && IsU32(c.maxEventQueue) && 0 <= c.maxPpm < TWO31
  }

  /** The time signature, the resolution and the values `updateDerivedValues` derives from them. */
  datatype Meter = Meter(ppqn: int, beatsPerBar: int, beatUnit: int, ticksPerBeat: int, ticksPerBar: int)

  function MeterFor(ppqn: int, beatsPerBar: int, beatUnit: int): (m: Meter)
    requires IsU16(ppqn) && IsU8(beatsPerBar) && IsU8(beatUnit) && beatUnit > 0
    ensures m.ticksPerBar == m.ticksPerBeat * beatsPerBar
    ensures beatUnit == 4 ==> m.ticksPerBeat == ppqn
  {
    var tpb := TicksPerBeat(ppqn, beatUnit);
    Meter(ppqn, beatsPerBar, beatUnit, tpb, TicksPerBar(tpb, beatsPerBar))
  }

  predicate MeterOk(m: Meter)
  {
    IsU16(m.ppqn) && IsU8(m.beatsPerBar) && IsU8(m.beatUnit) && m.beatUnit > 0
    && m == MeterFor(m.ppqn, m.beatsPerBar, m.beatUnit)
  }

  /** A meter with a positive resolution and beats per bar has positive ticks per beat and per bar, and writing 4 as the beat unit keeps PPQN. */
  lemma MeterPositive(ppqn: int, beatsPerBar: int, beatUnit: int)
    requires IsU16(ppqn) && IsU8(beatsPerBar) && IsU8(beatUnit) && 0 < beatUnit <= 4 * ppqn && beatsPerBar > 0
    ensures var m := MeterFor(ppqn, beatsPerBar, beatUnit); m.ticksPerBeat > 0 && m.ticksPerBar > 0
  {
    DivMonotone(beatUnit, 4 * ppqn, beatUnit);
    DivModUnique(beatUnit, beatUnit, 1, 0);
    var tpb := TicksPerBeat(ppqn, beatUnit);
    MulLe(1, tpb, beatsPerBar);
  }

  /** The transport and timing state; the atomics become plain fields. */
  datatype Clock = Clock(
    running: bool, initialized: bool, songTicks: int, nextDeadlineUs: int,
    tickIntervalUs: int, tickIntervalTarget: int, bpmQ16: int, slewPpm: int)

  predicate ClockOk(c: Clock)
  {
    (c.running ==> c.initialized) && IsU64(c.songTicks) && IsU64(c.nextDeadlineUs)
    && IsU64(c.tickIntervalUs) && IsU64(c.tickIntervalTarget) && IsU32(c.bpmQ16) && IsI32(c.slewPpm)
  }

  /** The clock side of `processTickInISR`: one more tick, a slew step, and the deadline moved on by the new interval. */
  function TickClock(c: Clock): (r: Clock)
    requires ClockOk(c)
    ensures ClockOk(r)
    ensures r.songTicks == U64(c.songTicks + 1)
    ensures r.nextDeadlineUs == U64(c.nextDeadlineUs + r.tickIntervalUs)
    ensures Slew(r.tickIntervalUs, r.slewPpm) == SlewStep(c.tickIntervalUs, c.tickIntervalTarget, c.slewPpm)
    ensures r.(songTicks := c.songTicks, nextDeadlineUs := c.nextDeadlineUs, tickIntervalUs := c.tickIntervalUs, slewPpm := c.slewPpm) == c
  {
    var s := SlewStep(c.tickIntervalUs, c.tickIntervalTarget, c.slewPpm);
    c.(songTicks := U64(c.songTicks + 1), tickIntervalUs := s.interval, slewPpm := s.ppm,
       nextDeadlineUs := U64(c.nextDeadlineUs + s.interval))
  }

  /**
   * Once a tick reaches the target interval the rate is zero from the next
   * tick on, and a clock at its target with no rate keeps its interval.
   */
  lemma TargetReachedStopsSlewing(c: Clock)
    requires ClockOk(c) && c.tickIntervalUs == c.tickIntervalTarget
    ensures TickClock(c).tickIntervalUs == c.tickIntervalUs && TickClock(c).slewPpm == 0
  {
  }

  /**
   * `setBPM` followed by ticks: the rate it picks never moves the interval
   * past the new target, and for a slower tempo (up to 2148 times the
   * interval) or a faster one each tick stays between the interval and the
   * target.
   */
  lemma SlewedTempoApproachesTarget(current: int, newInterval: int, maxPpm: int)
    requires IsU64(current) && 0 < current < TWO63 && IsU64(newInterval) && 0 <= maxPpm <= PPM_SCALE
    ensures var r := SlewStep(current, newInterval, SlewRateFor(current, newInterval, maxPpm));
      (newInterval < current ==> newInterval <= r.interval <= current)
      && (current < newInterval <= 2148 * current ==> current <= r.interval <= newInterval)
  {
    SlewNeverCrossesTarget(current, newInterval, SlewRateFor(current, newInterval, maxPpm));
  }

  function Reverse(es: seq<Event>): (r: seq<Event>)
    ensures |r| == |es| && forall i :: 0 <= i < |es| ==> r[i] == es[|es| - 1 - i]
  {
    if es == [] then [] else Reverse(es[1..]) + [es[0]]
  }

  /**
   * On a consistent meter the deferred mode, once `update` runs, calls the
   * same handlers with the same arguments as direct dispatch, in the
   * opposite order: bar, beat, tick instead of tick, beat, bar.
   */
  lemma DeferredIsDirectReversed(ticks: nat, tpBeat: int, beatsPerBar: int, hasTick: bool, hasBeat: bool, hasBar: bool)
    requires tpBeat > 0 && beatsPerBar > 0
    ensures Handled(QueuedEvents(ticks, tpBeat, tpBeat * beatsPerBar, hasTick), hasTick, hasBeat, hasBar)
         == Reverse(DirectEvents(ticks, tpBeat, tpBeat * beatsPerBar, hasTick, hasBeat, hasBar))
  {
    var tpBar := tpBeat * beatsPerBar;
    BarIsBeat(ticks, tpBeat, beatsPerBar);
    var isBeat := ticks % tpBeat == 0;
    var isBar := ticks % tpBar == 0;
    var bar: seq<Event> := if isBar then [BarEvent(ticks, U32(ticks / tpBar))] else [];
    var beat: seq<Event> := if isBeat then [BeatEvent(ticks, U32(ticks / tpBar), U16((ticks % tpBar) / tpBeat))] else [];
    var tick: seq<Event> := if hasTick then [TickEvent(ticks)] else [];
    HandledAppend(bar + beat, tick, hasTick, hasBeat, hasBar);
    HandledAppend(bar, beat, hasTick, hasBeat, hasBar);
    HandledOne(bar, hasTick, hasBeat, hasBar);
    HandledOne(beat, hasTick, hasBeat, hasBar);
    HandledOne(tick, hasTick, hasBeat, hasBar);
    var barD: seq<Event> := if isBeat && isBar && hasBar then [BarEvent(ticks, U32(ticks / tpBar))] else [];
    var beatD: seq<Event> := if isBeat && hasBeat then [BeatEvent(ticks, U32(ticks / tpBar), U16((ticks % tpBar) / tpBeat))] else [];
    assert Handled(bar, hasTick, hasBeat, hasBar) == barD;
    assert Handled(beat, hasTick, hasBeat, hasBar) == beatD;
    assert Handled(tick, hasTick, hasBeat, hasBar) == tick;
    ReverseThree(tick, beatD, barD);
  }

  /** Reversing three parts of at most one event each reverses their order. */
  lemma ReverseThree(a: seq<Event>, b: seq<Event>, c: seq<Event>)
    requires |a| <= 1 && |b| <= 1 && |c| <= 1
    ensures Reverse(a + b + c) == c + b + a
  {
    var r := Reverse(a + b + c);
    assert |r| == |c + b + a|;
    forall i | 0 <= i < |r|
      ensures r[i] == (c + b + a)[i]
    {
    }
  }

  /** A queue of at most one event is handled as that event alone. */
  lemma HandledOne(es: seq<Event>, hasTick: bool, hasBeat: bool, hasBar: bool)
    requires |es| <= 1
    ensures es == [] ==> Handled(es, hasTick, hasBeat, hasBar) == []
    ensures |es| == 1 ==> Handled(es, hasTick, hasBeat, hasBar) == (if Keep(es[0], hasTick, hasBeat, hasBar) then es else [])
  {
    if |es| == 1 {
      assert es[1..] == [];
    }
  }

  /** The Q16.16 range `setBPM` accepts: 20 to 999 BPM. */
  predicate InBpmRange(bpmQ16: int)
  {
    20 * Q16_ONE <= bpmQ16 <= 999 * Q16_ONE
  }

  /**
   * `LocalMetronome`: the transport and the meter as two state values, the
   * deferred-dispatch ring buffer, the installed handlers, and the
   * configuration `begin` stores.
   */
  class LocalMetronome {
    var config: MetronomeConfig
    var clock: Clock
    var meter: Meter
    var hasTick: bool
    var hasBeat: bool
    var hasBar: bool
    const queue: EventQueue

    ghost predicate Valid()
      reads this, queue, queue.buffer
    {
      queue.Valid() && ConfigOk(config) && ClockOk(clock) && MeterOk(meter)
    }

    /** The member initializers: stopped, uninitialised, 120 BPM at 96 PPQN in 4/4, no handlers, an unsized queue. */
    constructor()
      ensures Valid() && fresh(queue) && queue.size == 0
      ensures config == DefaultConfig() && meter == MeterFor(96, 4, 4)
      ensures clock == Clock(false, false, 0, 0, 500000, 500000, 7864320, 0)
      ensures !hasTick && !hasBeat && !hasBar
    {
      config := DefaultConfig();
      clock := Clock(false, false, 0, 0, 500000, 500000, 7864320, 0);
      meter := MeterFor(96, 4, 4);
      hasTick, hasBeat, hasBar := false, false, false;
      queue := new EventQueue();
    }

    /**
     * `begin`: refused once initialised; otherwise stores the
     * configuration, sizes the queue to at most 256, derives the meter
     * values, sets the interval and its target, and starts when asked.
     */
    method Begin(cfg: MetronomeConfig, interval: int, bpmQ16: int, now: int) returns (ok: bool)
      requires Valid() && ConfigOk(cfg) && IsU64(interval) && IsU32(bpmQ16) && IsU64(now)
      modifies this, queue
      ensures Valid() && hasTick == old(hasTick) && hasBeat == old(hasBeat) && hasBar == old(hasBar)
      ensures ok <==> !old(clock.initialized)
      ensures !ok ==> (config == old(config) && clock == old(clock) && meter == old(meter)
        && queue.size == old(queue.size) && queue.contents == old(queue.contents))
      ensures ok ==> (config == cfg && meter == MeterFor(cfg.ppqn, cfg.beatsPerBar, cfg.beatUnit)
        && queue.size == Min(cfg.maxEventQueue, MAX_EVENT_QUEUE) && queue.contents == []
        && clock == old(clock).(initialized := true, running := cfg.startRunning,
             tickIntervalUs := interval, tickIntervalTarget := interval, bpmQ16 := bpmQ16,
             nextDeadlineUs := if cfg.startRunning then U64(now + interval) else old(clock.nextDeadlineUs)))
    {
      if clock.initialized {
        return false;
      }
      config := cfg;
      queue.Reset(Min(cfg.maxEventQueue, MAX_EVENT_QUEUE));
      meter := MeterFor(cfg.ppqn, cfg.beatsPerBar, cfg.beatUnit);
      clock := clock.(tickIntervalUs := interval, tickIntervalTarget := interval, bpmQ16 := bpmQ16, initialized := true);
      if cfg.startRunning {
        Start(now);
      }
      ok := true;
    }

    /** `end`: stops and clears the initialised flag; does nothing before `begin`. */
    method End()
      requires Valid()
      modifies this
      ensures Valid() && config == old(config) && meter == old(meter)
      ensures clock == old(clock).(running := false, initialized := false)
      ensures hasTick == old(hasTick) && hasBeat == old(hasBeat) && hasBar == old(hasBar)
    {
      if !clock.initialized {
        return;
      }
      Stop();
      clock := clock.(initialized := false);
    }

    /** `start`: only when initialised and stopped; the first deadline is one interval from now. */
    method Start(now: int)
      requires Valid() && IsU64(now)
      modifies this
      ensures Valid() && config == old(config) && meter == old(meter)
      ensures clock == if !old(clock.initialized) || old(clock.running) then old(clock)
        else old(clock).(running := true, nextDeadlineUs := U64(now + old(clock.tickIntervalUs)))
      ensures hasTick == old(hasTick) && hasBeat == old(hasBeat) && hasBar == old(hasBar)
    {
      if !clock.initialized || clock.running {
        return;
      }
      clock := clock.(running := true, nextDeadlineUs := U64(now + clock.tickIntervalUs));
    }

    /** `stop`. */
    method Stop()
      requires Valid()
      modifies this
      ensures Valid() && config == old(config) && meter == old(meter)
      ensures clock == old(clock).(running := false)
      ensures hasTick == old(hasTick) && hasBeat == old(hasBeat) && hasBar == old(hasBar)
    {
      if !clock.running {
        return;
      }
      clock := clock.(running := false);
    }

    /** `zero`. */
    method Zero()
      requires Valid()
      modifies this
      ensures Valid() && config == old(config) && meter == old(meter)
      ensures clock == old(clock).(songTicks := 0)
      ensures hasTick == old(hasTick) && hasBeat == old(hasBeat) && hasBar == old(hasBar)
    {
      clock := clock.(songTicks := 0);
    }

    /** `setSongTicks`. */
    method SetSongTicks(ticks: int)
      requires Valid() && IsU64(ticks)
      modifies this
      ensures Valid() && config == old(config) && meter == old(meter)
      ensures clock == old(clock).(songTicks := ticks)
      ensures hasTick == old(hasTick) && hasBeat == old(hasBeat) && hasBar == old(hasBar)
    {
      clock := clock.(songTicks := ticks);
    }

    /** `nudgeSongTicks`. */
    method NudgeSongTicks(delta: int)
      requires Valid() && IsI64(delta)
      modifies this
      ensures Valid() && config == old(config) && meter == old(meter)
      ensures clock == old(clock).(songTicks := Nudge(old(clock.songTicks), delta))
      ensures hasTick == old(hasTick) && hasBeat == old(hasBeat) && hasBar == old(hasBar)
    {
      clock := clock.(songTicks := Nudge(clock.songTicks, delta));
    }

    /** `getBBT`: defined only when the meter has positive ticks per beat and bar, since it divides by both. */
    method GetBbt() returns (bar: int, beat: int, tickWithinBeat: int)
      requires Valid() && meter.ticksPerBeat > 0 && meter.ticksPerBar > 0
      ensures (bar, beat, tickWithinBeat) == Bbt(clock.songTicks, meter.ticksPerBar, meter.ticksPerBeat)
      ensures beat < meter.beatsPerBar
    {
      BbtDecomposes(clock.songTicks, meter.ticksPerBeat, meter.beatsPerBar);
      var tpBar := meter.ticksPerBar;
      var tpBeat := meter.ticksPerBeat;
      bar := U32(clock.songTicks / tpBar);
      var ticksInBar := clock.songTicks % tpBar;
      beat := U16(ticksInBar / tpBeat);
      tickWithinBeat := U16(ticksInBar % tpBeat);
    }

    /** `setTimeSignature`: a beat unit of 0 would divide by zero in `updateDerivedValues`. */
    method SetTimeSignature(beatsPerBar: int, beatUnit: int)
      requires Valid() && IsU8(beatsPerBar) && IsU8(beatUnit) && beatUnit > 0
      modifies this
      ensures Valid() && config == old(config) && clock == old(clock)
      ensures meter == MeterFor(old(meter.ppqn), beatsPerBar, beatUnit)
      ensures hasTick == old(hasTick) && hasBeat == old(hasBeat) && hasBar == old(hasBar)
    {
      meter := MeterFor(meter.ppqn, beatsPerBar, beatUnit);
    }

    /** `setPPQN`: new derived values, and the interval and its target reset to the one the tempo gives at the new resolution. */
    method SetPpqn(ppqn: int, newInterval: int)
      requires Valid() && IsU16(ppqn) && IsU64(newInterval)
      modifies this
      ensures Valid() && config == old(config)
      ensures meter == MeterFor(ppqn, old(meter.beatsPerBar), old(meter.beatUnit))
      ensures clock == old(clock).(tickIntervalUs := newInterval, tickIntervalTarget := newInterval)
      ensures hasTick == old(hasTick) && hasBeat == old(hasBeat) && hasBar == old(hasBar)
    {
      meter := MeterFor(ppqn, meter.beatsPerBar, meter.beatUnit);
      clock := clock.(tickIntervalUs := newInterval, tickIntervalTarget := newInterval);
    }

    /**
     * `setBPM`: ignored outside 20–999 BPM; otherwise a new target and
     * Q16.16 tempo, and either the interval itself at once with no rate, or
     * the clamped rate that slews toward it tick by tick.
     */
    method SetBpm(bpmQ16: int, newInterval: int, slew: bool)
      requires Valid() && IsU32(bpmQ16) && IsU64(newInterval)
      requires InBpmRange(bpmQ16) && slew ==> clock.tickIntervalUs > 0
      modifies this
      ensures Valid() && config == old(config) && meter == old(meter)
      ensures !InBpmRange(bpmQ16) ==> clock == old(clock)
      ensures InBpmRange(bpmQ16) && !slew ==> clock == old(clock).(tickIntervalTarget := newInterval,
        bpmQ16 := bpmQ16, tickIntervalUs := newInterval, slewPpm := 0)
      ensures InBpmRange(bpmQ16) && slew ==> clock == old(clock).(tickIntervalTarget := newInterval,
        bpmQ16 := bpmQ16, slewPpm := SlewRateFor(old(clock.tickIntervalUs), newInterval, config.maxPpm))
      ensures hasTick == old(hasTick) && hasBeat == old(hasBeat) && hasBar == old(hasBar)
    {
      if !InBpmRange(bpmQ16) {
        return;
      }
      clock := clock.(tickIntervalTarget := newInterval, bpmQ16 := bpmQ16);
      if !slew {
        clock := clock.(tickIntervalUs := newInterval, slewPpm := 0);
      } else {
        clock := clock.(slewPpm := SlewRateFor(clock.tickIntervalUs, newInterval, config.maxPpm));
      }
    }

    /** `onTick`, `onBeat`, `onBar`: installing or clearing a handler. */
    method OnTick(present: bool)
      modifies this
      ensures hasTick == present && hasBeat == old(hasBeat) && hasBar == old(hasBar)
      ensures config == old(config) && clock == old(clock) && meter == old(meter)
    {
      hasTick := present;
    }

    method OnBeat(present: bool)
      modifies this
      ensures hasBeat == present && hasTick == old(hasTick) && hasBar == old(hasBar)
      ensures config == old(config) && clock == old(clock) && meter == old(meter)
    {
      hasBeat := present;
    }

    method OnBar(present: bool)
      modifies this
      ensures hasBar == present && hasTick == old(hasTick) && hasBeat == old(hasBeat)
      ensures config == old(config) && clock == old(clock) && meter == old(meter)
    {
      hasBar := present;
    }

    /**
     * What `processTickInISR` needs to be defined: it divides by the ticks
     * per beat and per bar, and a deferred push into a queue of size 0
     * divides by zero.
     */
    ghost predicate TickDefined()
      reads this, queue
    {
      clock.running ==>
        meter.ticksPerBeat > 0 && meter.ticksPerBar > 0
        && (!config.dispatchInIrq && QueuedEvents(U64(clock.songTicks + 1), meter.ticksPerBeat, meter.ticksPerBar, hasTick) != []
            ==> queue.size > 0)
    }

    /**
     * `processTickInISR`, with the corrected slew: nothing while stopped;
     * otherwise one tick on, the handlers called at once (returned) or the
     * events queued in the deferred order, as many as fit, then the slew
     * step and the next deadline.
     */
    method Tick() returns (direct: seq<Event>)
      requires Valid() && TickDefined()
      modifies this, queue, queue.buffer
      ensures Valid() && config == old(config) && meter == old(meter) && queue.size == old(queue.size)
      ensures hasTick == old(hasTick) && hasBeat == old(hasBeat) && hasBar == old(hasBar)
      ensures !old(clock.running) ==> clock == old(clock) && direct == [] && queue.contents == old(queue.contents)
      ensures old(clock.running) ==> clock == TickClock(old(clock))
      ensures old(clock.running) && config.dispatchInIrq ==>
        direct == DirectEvents(clock.songTicks, meter.ticksPerBeat, meter.ticksPerBar, hasTick, hasBeat, hasBar)
        && queue.contents == old(queue.contents)
      ensures old(clock.running) && !config.dispatchInIrq ==>
        direct == [] && queue.contents == old(queue.contents)
          + Fitting(QueuedEvents(clock.songTicks, meter.ticksPerBeat, meter.ticksPerBar, hasTick), |old(queue.contents)|, queue.size)
    {
      if !clock.running {
        return [];
      }
      var ticks := U64(clock.songTicks + 1);
      var tpBeat := meter.ticksPerBeat;
      var tpBar := meter.ticksPerBar;
      if config.dispatchInIrq {
        direct := DirectEvents(ticks, tpBeat, tpBar, hasTick, hasBeat, hasBar);
      } else {
        direct := [];
        var es := QueuedEvents(ticks, tpBeat, tpBar, hasTick);
        if es != [] {
          queue.PushAll(es);
        }
      }
      clock := TickClock(clock);
    }

    /** `update`: drains the queue, calling each installed handler in queue order. */
    method Update() returns (dispatched: seq<Event>)
      requires Valid()
      modifies queue
      ensures Valid() && queue.size == old(queue.size) && queue.contents == []
      ensures dispatched == Handled(old(queue.contents), hasTick, hasBeat, hasBar)
    {
      dispatched := queue.Drain(hasTick, hasBeat, hasBar);
    }
  }
}

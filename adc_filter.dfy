/**
 * The loop sampler's control smoother `AdcEmaFilter`: an exponential moving
 * average y += (in − y) >> shift over 12-bit ADC readings, optionally behind
 * a median-of-3 spike filter. The float helpers that pick a shift from a
 * cutoff frequency or a time constant are left out.
 */
module AdcFilter {
  import opened IntArith

  const MAX_SHIFT: int := 15

  /** The median of three values, as a reference for the swap network. */
  function Median3(a: int, b: int, c: int): (m: int)
    ensures m == a || m == b || m == c
    ensures (m >= a && m >= b) || (m >= a && m >= c) || (m >= b && m >= c)
    ensures (m <= a && m <= b) || (m <= a && m <= c) || (m <= b && m <= c)
  {
    Max(Min(a, b), Min(Max(a, b), c))
  }

  /** One EMA step: the difference shifted right arithmetically (a floor division by 2^shift). */
  function EmaStep(y: int, input: int, shift: nat): int
    requires shift <= MAX_SHIFT
  {
    y + (input - y) / Pow2(shift)
  }

  /** The step moves y toward the input and never past it; shift 0 jumps to the input; y == input is a fixed point. */
  lemma EmaStepBetween(y: int, input: int, shift: nat)
    requires shift <= MAX_SHIFT
    ensures Min(y, input) <= EmaStep(y, input, shift) <= Max(y, input)
    ensures shift == 0 ==> EmaStep(y, input, shift) == input
    ensures input == y ==> EmaStep(y, input, shift) == y
  {
    Pow2Monotone(0, shift);
    FloorDivBetween(input - y, Pow2(shift));
  }

  /** With 12-bit inputs and state the EMA state stays 12-bit. */
  lemma EmaStaysTwelveBit(y: int, input: int, shift: nat)
    requires shift <= MAX_SHIFT && 0 <= y <= 4095 && 0 <= input <= 4095
    ensures 0 <= EmaStep(y, input, shift) <= 4095
  {
    EmaStepBetween(y, input, shift);
  }

  class AdcEmaFilter {
    var smoothingShift: int
    var useMedian3: bool
    var initialized: bool
    var y: int
    var m0: int
    var m1: int

    ghost predicate Valid()
      reads this
    {
      0 <= smoothingShift <= MAX_SHIFT && IsU16(y) && IsU16(m0) && IsU16(m1)
    }

    /** The shift is capped at 15; the state starts uninitialised at zero. */
    constructor(shift: int, enableMedian3: bool)
      requires IsU8(shift)
      ensures Valid()
      ensures smoothingShift == Min(shift, MAX_SHIFT) && useMedian3 == enableMedian3
      ensures !initialized && y == 0 && m0 == 0 && m1 == 0
    {
      smoothingShift := shift;
      useMedian3 := enableMedian3;
      y := 0;
      initialized := false;
      m0 := 0;
      m1 := 0;
      new;
      if smoothingShift > 15 {
        smoothingShift := 15;
      }
    }

    /**
     * `process`: the median of the new reading and the two previous readings
     * (when enabled), then the first sample taken as is and later ones
     * smoothed by the EMA step.
     */
    method Process(x: int) returns (out: int)
      requires Valid() && IsU16(x)
      modifies this
      ensures Valid() && initialized
      ensures smoothingShift == old(smoothingShift) && useMedian3 == old(useMedian3)
      ensures var input := if useMedian3 then Median3(x, old(m1), old(m0)) else x;
              (useMedian3 ==> m0 == old(m1) && m1 == x)
              && (!useMedian3 ==> m0 == old(m0) && m1 == old(m1))
              && (!old(initialized) ==> y == input && out == input)
              && (old(initialized) ==> y == EmaStep(old(y), input, smoothingShift) && out == y)
    {
      var input := x;
      if useMedian3 {
        var a, b, c := x, m1, m0;
        if a > b { a, b := b, a; }
        if b > c { b, c := c, b; }
        if a > b { a, b := b, a; }
        input := b;
        m0 := m1;
        m1 := x;
      }
      if !initialized {
        y := input;
        initialized := true;
        return input;
      }
      var delta := input - y;
      EmaStepBetween(y, input, smoothingShift);
      y := y + delta / Pow2(smoothingShift);
      out := U16(y);
    }

    /** `setSmoothingShift`: capped at 15. */
    method SetSmoothingShift(shift: int)
      requires Valid() && IsU8(shift)
      modifies this
      ensures Valid() && smoothingShift == Min(shift, MAX_SHIFT)
      ensures useMedian3 == old(useMedian3) && initialized == old(initialized)
      ensures y == old(y) && m0 == old(m0) && m1 == old(m1)
    {
      smoothingShift := if shift > 15 then 15 else shift;
    }

    /** `enableMedian3`. */
    method EnableMedian3(on: bool)
      requires Valid()
      modifies this
      ensures Valid() && useMedian3 == on
      ensures smoothingShift == old(smoothingShift) && initialized == old(initialized)
      ensures y == old(y) && m0 == old(m0) && m1 == old(m1)
    {
      useMedian3 := on;
    }

    /** `value`: the state narrowed to uint16, which never changes it. */
    function Value(): (v: int)
      requires Valid()
      reads this
      ensures v == y
    {
      U16(y)
    }
  }
}

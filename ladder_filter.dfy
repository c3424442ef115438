/**
 * The loop sampler's 8-pole ladder band-pass filter: four cascaded one-pole
 * low-pass stages, four more on their output, and the band-pass output as
 * the low-passed signal less its own low-passed copy. Every pole is an
 * int16 that moves a Q15 fraction of the way toward its input and is
 * clamped to the int16 range. A zero cutoff bypasses the filter and clears
 * it on the transition. The ADC-to-coefficient mappers are pure.
 */
module LadderFilter {
  import opened IntArith
  import opened FixedPoint

  /** One pole: `pole + ((x − pole)·c >> 15)`, clamped to int16. */
  function PoleStep(pole: int, x: int, c: int): (r: int)
    requires IsI16(pole) && IsI16(x) && 0 <= c <= 32767
    ensures IsI16(r)
  {
    SatQ15(pole + ((x - pole) * c) / TWO15)
  }

  /**
   * A pole moves toward its input and never past it, so the clamp never
   * fires; a zero coefficient or an input equal to the pole leaves it still.
   */
  lemma PoleStepBetween(pole: int, x: int, c: int)
    requires IsI16(pole) && IsI16(x) && 0 <= c <= 32767
    ensures Min(pole, x) <= PoleStep(pole, x, c) <= Max(pole, x)
    ensures PoleStep(pole, x, c) == pole + ((x - pole) * c) / TWO15
    ensures c == 0 || x == pole ==> PoleStep(pole, x, c) == pole
  {
    FractionOfDifference(x - pole, c);
  }

  /** A cascade of poles: each pole is driven by the one before it, the first by `x`. */
  function Cascade(poles: seq<int>, x: int, c: int): (r: seq<int>)
    requires forall i :: 0 <= i < |poles| ==> IsI16(poles[i])
    requires IsI16(x) && 0 <= c <= 32767
    ensures |r| == |poles|
    ensures forall i :: 0 <= i < |r| ==> IsI16(r[i])
    decreases |poles|
  {
    if |poles| == 0 then []
    else
      var p := PoleStep(poles[0], x, c);
      [p] + Cascade(poles[1..], p, c)
  }

  /** A zero coefficient leaves every pole of a cascade where it was. */
  lemma {:induction false} CascadeZeroCoefficient(poles: seq<int>, x: int)
    requires forall i :: 0 <= i < |poles| ==> IsI16(poles[i])
    requires IsI16(x)
    ensures Cascade(poles, x, 0) == poles
    decreases |poles|
  {
    if |poles| > 0 {
      PoleStepBetween(poles[0], x, 0);
      CascadeZeroCoefficient(poles[1..], PoleStep(poles[0], x, 0));
    }
  }

  /** A cascade whose poles all hold its input is at rest. */
  lemma {:induction false} CascadeSettled(poles: seq<int>, x: int, c: int)
    requires forall i :: 0 <= i < |poles| ==> poles[i] == x
    requires IsI16(x) && 0 <= c <= 32767
    ensures Cascade(poles, x, c) == poles
    decreases |poles|
  {
    if |poles| > 0 {
      PoleStepBetween(poles[0], x, c);
      CascadeSettled(poles[1..], x, c);
    }
  }

  /** Every pole of a cascade ends between its old value and the value that drove it. */
  lemma {:induction false} CascadeBetween(poles: seq<int>, x: int, c: int)
    requires |poles| > 0
    requires forall i :: 0 <= i < |poles| ==> IsI16(poles[i])
    requires IsI16(x) && 0 <= c <= 32767
    ensures Min(poles[0], x) <= Cascade(poles, x, c)[0] <= Max(poles[0], x)
    ensures forall i :: 1 <= i < |poles| ==>
              Min(poles[i], Cascade(poles, x, c)[i - 1]) <= Cascade(poles, x, c)[i]
                <= Max(poles[i], Cascade(poles, x, c)[i - 1])
    decreases |poles|
  {
    var p := PoleStep(poles[0], x, c);
    PoleStepBetween(poles[0], x, c);
    if |poles| > 1 {
      CascadeBetween(poles[1..], p, c);
      var r := Cascade(poles, x, c);
      var t := Cascade(poles[1..], p, c);
      assert r == [p] + t;
      forall i | 1 <= i < |poles|
        ensures Min(poles[i], r[i - 1]) <= r[i] <= Max(poles[i], r[i - 1])
      {
        assert r[i] == t[i - 1] && poles[i] == poles[1..][i - 1];
        if i > 1 {
          assert r[i - 1] == t[i - 2];
        }
      }
    }
  }

  /** Four poles spelled out, as the filter writes them. */
  lemma Cascade4(a: int, b: int, d: int, e: int, x: int, c: int)
    requires IsI16(a) && IsI16(b) && IsI16(d) && IsI16(e) && IsI16(x) && 0 <= c <= 32767
    ensures var p1 := PoleStep(a, x, c);
            var p2 := PoleStep(b, p1, c);
            var p3 := PoleStep(d, p2, c);
            Cascade([a, b, d, e], x, c) == [p1, p2, p3, PoleStep(e, p3, c)]
  {
    var p1 := PoleStep(a, x, c);
    var p2 := PoleStep(b, p1, c);
    var p3 := PoleStep(d, p2, c);
    var p4 := PoleStep(e, p3, c);
    assert Cascade([e], p3, c) == [p4] + Cascade([], p4, c);
    assert [d, e][1..] == [e];
    assert Cascade([d, e], p2, c) == [p3] + Cascade([e], p3, c);
    assert [b, d, e][1..] == [d, e];
    assert Cascade([b, d, e], p1, c) == [p2] + Cascade([d, e], p2, c);
    assert [a, b, d, e][1..] == [b, d, e];
    assert Cascade([a, b, d, e], x, c) == [p1] + Cascade([b, d, e], p1, c);
  }

  /** The low-pass coefficient: the cutoff forced into [1024, 32767]. */
  function LowpassCoefficient(cutoff: int): (lp: int)
    requires IsU16(cutoff)
    ensures 1024 <= lp <= 32767
  {
    if cutoff < 1024 then 1024 else if cutoff > 32767 then 32767 else cutoff
  }

  /** The high-pass coefficient derived from the low-pass one and the Q setting. */
  function HighpassCoefficient(lp: int, q: int): (hp: int)
    requires 1024 <= lp <= 32767 && IsU16(q)
  {
    var h0 :=
      if q > 0 then
        var qMult := 9830 + (q * 16384) / 32767;
        var h := U16((lp * qMult) / TWO15);
        if h > lp then lp else h
      else lp / 4;
    var h1 := if h0 < 512 then 512 else h0;
    var h2 := if h1 > lp then lp else h1;
    var minGap := lp / 16;
    if h2 > lp - minGap then (if lp > minGap then lp - minGap else lp / 2) else h2
  }

  /** The high-pass coefficient lies in [512, lp − lp/16], so strictly below the low-pass one. */
  lemma HighpassBelowLowpass(lp: int, q: int)
    requires 1024 <= lp <= 32767 && IsU16(q)
    ensures 512 <= HighpassCoefficient(lp, q) <= lp - lp / 16
    ensures HighpassCoefficient(lp, q) < lp
  {
  }

  /** Band-pass output of the two cascades: the low-pass output less the high-pass chain's, clamped. */
  function BandOutput(lpOut: int, hpOut: int): (r: int)
    requires IsI16(lpOut) && IsI16(hpOut)
    ensures IsI16(r)
  {
    SatQ15(lpOut - hpOut)
  }

  /** Seeding both cascades with the input makes the first active call output silence. */
  lemma SeededCallIsSilent(x: int, lpc: int, hpc: int)
    requires IsI16(x) && 0 <= lpc <= 32767 && 0 <= hpc <= 32767
    ensures Cascade([x, x, x, x], x, lpc) == [x, x, x, x]
    ensures Cascade([x, x, x, x], x, hpc) == [x, x, x, x]
    ensures BandOutput(x, x) == 0
  {
    CascadeSettled([x, x, x, x], x, lpc);
    CascadeSettled([x, x, x, x], x, hpc);
  }

  /** `adc_to_bandpass_cutoff`: 1024 + adc·31743/4095, kept in [1024, 32767]. */
  function AdcToBandpassCutoff(adc: int): (r: int)
    requires IsU16(adc)
    ensures 1024 <= r <= 32767
  {
    var result := 1024 + (adc * 31743) / 4095;
    U16(if result < 1024 then 1024 else if result > 32767 then 32767 else result)
  }

  /** `adc_to_bandpass_q`: 512 + adc·24064/4095, kept in [512, 24576]. */
  function AdcToBandpassQ(adc: int): (r: int)
    requires IsU16(adc)
    ensures 512 <= r <= 24576
  {
    var result := 512 + (adc * 24064) / 4095;
    U16(if result < 512 then 512 else if result > 24576 then 24576 else result)
  }

  /** `adc_to_ladder_coefficient_linear`: adc·32767/4095, narrowed to 16 bits. */
  function AdcToLadderCoefficientLinear(adc: int): (r: int)
    requires IsU16(adc)
    ensures IsU16(r)
  {
    U16((adc * 32767) / 4095)
  }

  /** `a·k/4095` is monotone in `a` for a non-negative scale `k`. */
  lemma ScaledMonotone(a: int, b: int, k: int)
    requires 0 <= a <= b && k >= 0
    ensures (a * k) / 4095 <= (b * k) / 4095
  {
    MulLe(a, b, k);
    DivMonotone(a * k, b * k, 4095);
  }

  lemma AdcToBandpassCutoffMonotone(a: int, b: int)
    requires IsU16(a) && IsU16(b) && a <= b
    ensures AdcToBandpassCutoff(a) <= AdcToBandpassCutoff(b)
  {
    ScaledMonotone(a, b, 31743);
  }

  lemma AdcToBandpassQMonotone(a: int, b: int)
    requires IsU16(a) && IsU16(b) && a <= b
    ensures AdcToBandpassQ(a) <= AdcToBandpassQ(b)
  {
    ScaledMonotone(a, b, 24064);
  }

  /** On the 12-bit ADC range the linear mapper is monotone and does not wrap. */
  lemma AdcToLadderCoefficientLinearMonotone(a: int, b: int)
    requires 0 <= a <= b <= 4095
    ensures AdcToLadderCoefficientLinear(a) <= AdcToLadderCoefficientLinear(b) <= 32767
  {
    ScaledMonotone(a, b, 32767);
    ScaledMonotone(b, 4095, 32767);
  }

  lemma AdcMapperEndpoints()
    ensures AdcToBandpassCutoff(0) == 1024 && AdcToBandpassCutoff(4095) == 32767
    ensures AdcToBandpassQ(0) == 512 && AdcToBandpassQ(4095) == 24576
    ensures AdcToLadderCoefficientLinear(0) == 0 && AdcToLadderCoefficientLinear(4095) == 32767
  {
  }

  /** `Ladder8PoleBandpassFilter`. */
  class LadderBandpass {
    var lp1: int
    var lp2: int
    var lp3: int
    var lp4: int
    var hp1: int
    var hp2: int
    var hp3: int
    var hp4: int
    var initialized: bool
    var lastCutoff: int
    var lastQ: int

    ghost predicate Valid()
      reads this
    {
      IsI16(lp1) && IsI16(lp2) && IsI16(lp3) && IsI16(lp4)
      && IsI16(hp1) && IsI16(hp2) && IsI16(hp3) && IsI16(hp4)
      && IsU16(lastCutoff) && IsU16(lastQ)
    }

    /** The four low-pass poles, first to last. */
    function LowPoles(): seq<int>
      reads this
    {
      [lp1, lp2, lp3, lp4]
    }

    /** The four high-pass poles, first to last. */
    function HighPoles(): seq<int>
      reads this
    {
      [hp1, hp2, hp3, hp4]
    }

    constructor ()
      ensures Valid() && !initialized && lastCutoff == 0 && lastQ == 0
      ensures LowPoles() == [0, 0, 0, 0] && HighPoles() == [0, 0, 0, 0]
    {
      lp1, lp2, lp3, lp4 := 0, 0, 0, 0;
      hp1, hp2, hp3, hp4 := 0, 0, 0, 0;
      initialized := false;
      lastCutoff := 0;
      lastQ := 0;
    }

    /** `reset`: every pole, the seeding flag and the remembered coefficients go back to zero. */
    method Reset()
      modifies this
      ensures Valid() && !initialized && lastCutoff == 0 && lastQ == 0
      ensures LowPoles() == [0, 0, 0, 0] && HighPoles() == [0, 0, 0, 0]
    {
      lp1, lp2, lp3, lp4 := 0, 0, 0, 0;
      hp1, hp2, hp3, hp4 := 0, 0, 0, 0;
      initialized := false;
      lastCutoff := 0;
      lastQ := 0;
    }

    /**
     * `process`. A zero cutoff passes the input through, clearing the
     * filter if it was active; otherwise the poles are (seeded with the input
     * on the first active call and) stepped through both cascades.
     */
    method Process(input: int, cutoff: int, q: int) returns (out: int)
      requires Valid() && IsI16(input) && IsU16(cutoff) && IsU16(q)
      modifies this
      ensures Valid() && IsI16(out)
      ensures cutoff == 0 ==> out == input && lastCutoff == 0 && lastQ == 0
      ensures cutoff == 0 && old(lastCutoff) != 0 ==>
                LowPoles() == [0, 0, 0, 0] && HighPoles() == [0, 0, 0, 0] && !initialized
      ensures cutoff == 0 && old(lastCutoff) == 0 ==>
                LowPoles() == old(LowPoles()) && HighPoles() == old(HighPoles()) && initialized == old(initialized)
      ensures cutoff != 0 ==>
                var lpc := LowpassCoefficient(cutoff);
                var low0 := if old(initialized) then old(LowPoles()) else [input, input, input, input];
                var high0 := if old(initialized) then old(HighPoles()) else [input, input, input, input];
                LowPoles() == Cascade(low0, input, lpc)
                && HighPoles() == Cascade(high0, lp4, HighpassCoefficient(lpc, q))
                && out == BandOutput(lp4, hp4)
                && initialized && lastCutoff == cutoff && lastQ == q
    {
      if cutoff == 0 {
        if lastCutoff != 0 {
          lp1, lp2, lp3, lp4 := 0, 0, 0, 0;
          hp1, hp2, hp3, hp4 := 0, 0, 0, 0;
          initialized := false;
        }
        lastCutoff := 0;
        lastQ := 0;
        return input;
      }
      if !initialized {
        lp1, lp2, lp3, lp4 := input, input, input, input;
        hp1, hp2, hp3, hp4 := input, input, input, input;
        initialized := true;
      }
      var lpc := LowpassCoefficient(cutoff);
      out := StepCascades(input, lpc, HighpassCoefficient(lpc, q));
      lastCutoff := cutoff;
      lastQ := q;
    }

    /** Both cascades stepped once, the high-pass chain driven by the last low-pass pole. */
    method StepCascades(input: int, lpc: int, hpc: int) returns (out: int)
      requires Valid() && IsI16(input) && 0 <= lpc <= 32767 && 0 <= hpc <= 32767
      modifies this
      ensures Valid()
      ensures LowPoles() == Cascade(old(LowPoles()), input, lpc)
      ensures HighPoles() == Cascade(old(HighPoles()), lp4, hpc)
      ensures out == BandOutput(lp4, hp4)
      ensures initialized == old(initialized) && lastCutoff == old(lastCutoff) && lastQ == old(lastQ)
    {
      Cascade4(lp1, lp2, lp3, lp4, input, lpc);
      lp1 := PoleStep(lp1, input, lpc);
      lp2 := PoleStep(lp2, lp1, lpc);
      lp3 := PoleStep(lp3, lp2, lpc);
      lp4 := PoleStep(lp4, lp3, lpc);
      var hpInput := lp4;
      Cascade4(hp1, hp2, hp3, hp4, hpInput, hpc);
      hp1 := PoleStep(hp1, hpInput, hpc);
      hp2 := PoleStep(hp2, hp1, hpc);
      hp3 := PoleStep(hp3, hp2, hpc);
      hp4 := PoleStep(hp4, hp3, hpc);
      out := BandOutput(hpInput, hp4);
    }
  }
}

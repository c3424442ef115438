/**
 * The oscillator test's `FrequencyCalculator`: a 512-entry V/oct table of
 * 32-bit phase increments, a 4096-entry FM table built antisymmetric about
 * its centre, and `calculatePhaseIncrement`, which clamps the V/oct reading,
 * interpolates the table in 16.16 fixed point, shifts by an uncapped octave
 * transposition and adds the FM amount with saturation. The table contents
 * and the ADC scale come from float code and are inputs here.
 */
module FrequencyCalculator {
  import opened IntArith
  import opened FastFrequency

  const VOCT_LUT_SIZE: int := 512
  const FM_LUT_SIZE: int := 4096
  const FM_LUT_CENTER: int := 2048

  /** The calculator's fields as `calculatePhaseIncrement` reads them. */
  datatype CalcConfig = CalcConfig(
    lut: seq<int>,
    fmTable: seq<int>,
    adcMin: int,
    adcMax: int,
    adcOffset: int,
    scale: int)

  predicate CalcOk(c: CalcConfig)
  {
    |c.lut| == VOCT_LUT_SIZE && AllU32(c.lut) && |c.fmTable| == FM_LUT_SIZE && AllI32(c.fmTable)
    && IsU16(c.adcMin) && IsU16(c.adcMax) && IsU16(c.adcOffset) && IsU32(c.scale)
  }

  /** Antisymmetry about the centre: entry 2048 + i is the negation of entry 2047 − i. */
  predicate Antisymmetric(t: seq<int>)
    requires |t| == FM_LUT_SIZE
  {
    forall i :: FM_LUT_CENTER <= i < FM_LUT_SIZE ==> t[i] == -t[FM_LUT_SIZE - 1 - i]
  }

  /** Arduino `constrain`: below `lo` gives `lo`, otherwise above `hi` gives `hi`. */
  function Constrain(x: int, lo: int, hi: int): (r: int)
    ensures lo <= hi ==> lo <= r <= hi
    ensures lo <= x <= hi ==> r == x
  {
    if x < lo then lo else if x > hi then hi else x
  }

  /** The table stage, with the float octave count `excess / 102.4` taken as the exact `excess·5 / 512`. */
  function CalcBase(lut: seq<int>, scaled: int): int
    requires |lut| == VOCT_LUT_SIZE && IsU32(scaled)
  {
    var index := U16(scaled / TWO16);
    if index >= VOCT_LUT_SIZE - 1 then
      var extraOctaves := U8((U16(index - (VOCT_LUT_SIZE - 1)) * 5) / VOCT_LUT_SIZE);
      ShiftLeftU32(lut[VOCT_LUT_SIZE - 1], extraOctaves)
    else
      InterpolateIncrement(lut[index], lut[index + 1], U16(scaled))
  }

  /** The increment before FM: table stage, then the octave shift in either direction, uncapped. */
  function ShiftedBase(c: CalcConfig, vOctAdc: int, octaveShift: int): (r: int)
    requires CalcOk(c)
    ensures IsU32(r)
  {
    var clamped := Constrain(vOctAdc, c.adcMin, c.adcMax);
    var scaled := U32((clamped - c.adcOffset) * c.scale);
    ShiftOctaves(CalcBase(c.lut, scaled), octaveShift)
  }

  /** The FM table slot: |fm − 2048| as int16, capped at 2047, in the upper half. */
  function FmSlot(fmAdc: int): (i: int)
    ensures FM_LUT_CENTER <= i < FM_LUT_SIZE
  {
    var centred := I16(fmAdc - FM_LUT_CENTER);
    var absFm := U16(Abs(centred));
    FM_LUT_CENTER + (if absFm >= FM_LUT_CENTER then FM_LUT_CENTER - 1 else absFm)
  }

  /** `calculatePhaseIncrement`. */
  function CalculatePhaseIncrement(c: CalcConfig, vOctAdc: int, fmAdc: int, octaveShift: int): (r: int)
    requires CalcOk(c)
    ensures IsU32(r)
    ensures fmAdc == FM_LUT_CENTER ==> r == ShiftedBase(c, vOctAdc, octaveShift)
  {
    var base := ShiftedBase(c, vOctAdc, octaveShift);
    if fmAdc != FM_LUT_CENTER then
      var amount := c.fmTable[FmSlot(fmAdc)];
      var signed := if I16(fmAdc - FM_LUT_CENTER) < 0 then I32(-amount) else amount;
      SatU32(base + signed)
    else
      base
  }

  /** For 12-bit FM readings the slot is 2048 + |fm − 2048|, capped at 4095. */
  lemma FmSlotOfTwelveBit(fmAdc: int)
    requires 0 <= fmAdc < 4096
    ensures FmSlot(fmAdc) == FM_LUT_CENTER + Min(Abs(fmAdc - FM_LUT_CENTER), FM_LUT_CENTER - 1)
  {
  }

  /**
   * Below the centre the negated upper-half entry is the mirrored lower-half
   * entry of an antisymmetric table: the table's negative side is what takes
   * effect.
   */
  lemma NegativeOffsetReadsLowerHalf(c: CalcConfig, vOctAdc: int, fmAdc: int, octaveShift: int)
    requires CalcOk(c) && Antisymmetric(c.fmTable)
    requires 0 <= fmAdc < FM_LUT_CENTER
    ensures CalculatePhaseIncrement(c, vOctAdc, fmAdc, octaveShift)
            == SatU32(ShiftedBase(c, vOctAdc, octaveShift) + c.fmTable[FM_LUT_SIZE - 1 - FmSlot(fmAdc)])
  {
    var slot := FmSlot(fmAdc);
    assert c.fmTable[slot] == -c.fmTable[FM_LUT_SIZE - 1 - slot];
  }

  /**
   * With a non-negative upper half, a 12-bit FM reading above the centre
   * never lowers the increment and one below it never raises it.
   */
  lemma FmFollowsCentredSign(c: CalcConfig, vOctAdc: int, fmAdc: int, octaveShift: int)
    requires CalcOk(c) && 0 <= fmAdc < 4096
    requires forall i :: FM_LUT_CENTER <= i < FM_LUT_SIZE ==> 0 <= c.fmTable[i]
    ensures var base := ShiftedBase(c, vOctAdc, octaveShift);
      (fmAdc > FM_LUT_CENTER ==> CalculatePhaseIncrement(c, vOctAdc, fmAdc, octaveShift) >= base)
      && (fmAdc < FM_LUT_CENTER ==> CalculatePhaseIncrement(c, vOctAdc, fmAdc, octaveShift) <= base)
  {
    FmSlotOfTwelveBit(fmAdc);
  }

  /** With `adcMin <= adcMax`, readings outside the range act as the nearest end. */
  lemma VOctClamped(c: CalcConfig, vOctAdc: int, fmAdc: int, octaveShift: int)
    requires CalcOk(c) && c.adcMin <= c.adcMax
    ensures vOctAdc < c.adcMin ==>
      CalculatePhaseIncrement(c, vOctAdc, fmAdc, octaveShift) == CalculatePhaseIncrement(c, c.adcMin, fmAdc, octaveShift)
    ensures vOctAdc > c.adcMax ==>
      CalculatePhaseIncrement(c, vOctAdc, fmAdc, octaveShift) == CalculatePhaseIncrement(c, c.adcMax, fmAdc, octaveShift)
  {
  }

  /** `FrequencyCalculator`. */
  class FrequencyCalc {
    const vOctLUT: array<int>
    const fmModLUT: array<int>
    var adcMin: int
    var adcMax: int
    var adcOffset: int
    var adcToLutScale: int

    function Snapshot(): CalcConfig
      reads this, vOctLUT, fmModLUT
    {
      CalcConfig(vOctLUT[..], fmModLUT[..], adcMin, adcMax, adcOffset, adcToLutScale)
    }

    ghost predicate Valid()
      reads this, vOctLUT, fmModLUT
    {
      vOctLUT.Length == VOCT_LUT_SIZE && fmModLUT.Length == FM_LUT_SIZE && vOctLUT != fmModLUT
      && CalcOk(Snapshot())
    }

    /**
     * The constructor: the ADC range, then `initVOctLUT` and
     * `initFMModLUT`, with the float results given as `increments`, `scale`
     * and `depths`.
     */
    constructor(increments: seq<int>, scale: int, depths: seq<int>, minAdc: int, maxAdc: int)
      requires |increments| == VOCT_LUT_SIZE && AllU32(increments) && IsU32(scale)
      requires |depths| == FM_LUT_CENTER && forall i :: 0 <= i < |depths| ==> 0 <= depths[i] < TWO31
      requires IsU16(minAdc) && IsU16(maxAdc)
      ensures Valid() && adcMin == minAdc && adcMax == maxAdc && adcOffset == minAdc
      ensures vOctLUT[..] == increments && adcToLutScale == scale
      ensures Antisymmetric(fmModLUT[..]) && fmModLUT[FM_LUT_CENTER..] == depths
    {
      vOctLUT := new int[VOCT_LUT_SIZE](_ => 0);
      fmModLUT := new int[FM_LUT_SIZE](_ => 0);
      adcMin := minAdc;
      adcMax := maxAdc;
      adcOffset := 0;
      adcToLutScale := 0;
      new;
      InitVOctLut(increments, scale);
      InitFmModLut(depths);
    }

    /** `initVOctLUT`: the table filled, the offset set to `adcMin` and the scale stored. */
    method InitVOctLut(increments: seq<int>, scale: int)
      requires vOctLUT.Length == VOCT_LUT_SIZE && fmModLUT.Length == FM_LUT_SIZE && vOctLUT != fmModLUT
      requires |increments| == VOCT_LUT_SIZE && AllU32(increments) && IsU32(scale)
      requires IsU16(adcMin) && IsU16(adcMax) && AllI32(fmModLUT[..])
      modifies this, vOctLUT
      ensures Valid()
      ensures vOctLUT[..] == increments && adcOffset == adcMin && adcToLutScale == scale
      ensures adcMin == old(adcMin) && adcMax == old(adcMax)
    {
      for i := 0 to VOCT_LUT_SIZE
        invariant vOctLUT[..i] == increments[..i]
        invariant adcMin == old(adcMin) && adcMax == old(adcMax)
      {
        vOctLUT[i] := increments[i];
      }
      assert vOctLUT[..] == vOctLUT[..VOCT_LUT_SIZE];
      adcOffset := adcMin;
      adcToLutScale := scale;
    }

    /** `initFMModLUT`: depth i at 2048 + i and its negation at 2047 − i, so the table is antisymmetric. */
    method InitFmModLut(depths: seq<int>)
      requires vOctLUT.Length == VOCT_LUT_SIZE && fmModLUT.Length == FM_LUT_SIZE && vOctLUT != fmModLUT
      requires |depths| == FM_LUT_CENTER && forall i :: 0 <= i < |depths| ==> 0 <= depths[i] < TWO31
      requires AllU32(vOctLUT[..]) && IsU16(adcMin) && IsU16(adcMax) && IsU16(adcOffset) && IsU32(adcToLutScale)
      modifies fmModLUT
      ensures Valid()
      ensures Antisymmetric(fmModLUT[..]) && fmModLUT[FM_LUT_CENTER..] == depths
    {
      for i := 0 to FM_LUT_CENTER
        invariant forall j :: 0 <= j < i ==> fmModLUT[FM_LUT_CENTER + j] == depths[j]
        invariant forall j :: 0 <= j < i ==> fmModLUT[FM_LUT_CENTER - 1 - j] == -depths[j]
      {
        fmModLUT[FM_LUT_CENTER + i] := depths[i];
        fmModLUT[FM_LUT_CENTER - i - 1] := -depths[i];
      }
      forall k | FM_LUT_CENTER <= k < FM_LUT_SIZE
        ensures fmModLUT[k] == -fmModLUT[FM_LUT_SIZE - 1 - k]
      {
        assert fmModLUT[FM_LUT_CENTER + (k - FM_LUT_CENTER)] == depths[k - FM_LUT_CENTER];
        assert fmModLUT[FM_LUT_CENTER - 1 - (k - FM_LUT_CENTER)] == -depths[k - FM_LUT_CENTER];
      }
      assert forall k :: 0 <= k < FM_LUT_SIZE ==> IsI32(fmModLUT[k]) by {
        forall k | 0 <= k < FM_LUT_SIZE
          ensures IsI32(fmModLUT[k])
        {
          if k < FM_LUT_CENTER {
            assert fmModLUT[FM_LUT_CENTER - 1 - (FM_LUT_CENTER - 1 - k)] == -depths[FM_LUT_CENTER - 1 - k];
          } else {
            assert fmModLUT[FM_LUT_CENTER + (k - FM_LUT_CENTER)] == depths[k - FM_LUT_CENTER];
          }
        }
      }
    }

    /** `setADCRange`: the new bounds, then the table and scale rebuilt. */
    method SetAdcRange(minAdc: int, maxAdc: int, increments: seq<int>, scale: int)
      requires Valid() && IsU16(minAdc) && IsU16(maxAdc)
      requires |increments| == VOCT_LUT_SIZE && AllU32(increments) && IsU32(scale)
      modifies this, vOctLUT
      ensures Valid() && adcMin == minAdc && adcMax == maxAdc && adcOffset == minAdc
      ensures vOctLUT[..] == increments && adcToLutScale == scale
      ensures fmModLUT[..] == old(fmModLUT[..])
    {
      adcMin := minAdc;
      adcMax := maxAdc;
      InitVOctLut(increments, scale);
    }
  }
}

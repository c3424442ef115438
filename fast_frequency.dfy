/**
 * The oscillator tests' `FastFrequencyCalculator`: a 600-entry table of
 * 32-bit phase increments (five octaves at ten cents per entry), indexed by
 * a clamped V/oct ADC reading in 16.16 fixed point, linearly interpolated,
 * shifted by a capped octave transposition and optionally offset by an
 * external FM table with saturation. The table entries come from `powf`
 * and are inputs here; both copies of the header are the same.
 */
module FastFrequency {
  import opened IntArith

  const LUT_SIZE: int := 600
  const ENTRIES_PER_OCTAVE: int := 120
  const MAX_OCTAVE_SHIFT: int := 15
  const DEFAULT_FM_CENTER: int := 2048

  /** The external FM table pointer: null, or a table of int32 modulation amounts. */
  datatype FmTable = NoTable | Table(entries: seq<int>)

  /** The calculator's fields as the getters read them. */
  datatype FastConfig = FastConfig(
    lut: seq<int>,
    adcOffset: int,
    adcRange: int,
    scale: int,
    fm: FmTable,
    fmSize: int,
    fmMask: int,
    fmCenter: int)

  predicate AllU32(s: seq<int>)
  {
    forall i :: 0 <= i < |s| ==> IsU32(s[i])
  }

  predicate AllI32(s: seq<int>)
  {
    forall i :: 0 <= i < |s| ==> IsI32(s[i])
  }

  /** The 16 power-of-two sizes a uint16 can hold. */
  const POWERS_OF_TWO_16: seq<int> :=
    [1, 2, 4, 8, 16, 32, 64, 128, 256, 512, 1024, 2048, 4096, 8192, 16384, 32768]

  /**
   * The size test of `setFMLUT`: `size & (size − 1)` is 0. The uint16 size
   * is a `bv16`; for size 0 the source's int arithmetic gives 0 & −1 == 0,
   * as the bit-vector form does.
   */
  predicate SizeTestPasses(size: bv16)
  {
    size & (size - 1) == 0
  }

  /** The test accepts 0 and exactly the powers of two. */
  lemma SizeTestIsPowerOfTwo(size: bv16)
    ensures SizeTestPasses(size) <==> size == 0 || size as int in POWERS_OF_TWO_16
  {
    assert SizeTestPasses(size) <==>
      (size == 0 || size == 1 || size == 2 || size == 4 || size == 8 || size == 16 || size == 32
       || size == 64 || size == 128 || size == 256 || size == 512 || size == 1024 || size == 2048
       || size == 4096 || size == 8192 || size == 16384 || size == 32768);
  }

  /** The FM stage is on only with a table installed and a nonzero size. */
  predicate FmActive(c: FastConfig)
  {
    c.fm.Table? && c.fmSize > 0
  }

  /** What the getters need of the fields once `init` has run. */
  predicate ConfigOk(c: FastConfig)
  {
    |c.lut| == LUT_SIZE && AllU32(c.lut)
    && 1 <= c.adcRange < TWO16 && IsU16(c.adcOffset) && c.scale == LutScale(c.adcRange)
    && IsU16(c.fmSize) && IsU16(c.fmMask) && IsU16(c.fmCenter)
    && (FmActive(c) ==> |c.fm.entries| == c.fmSize && c.fmMask == c.fmSize - 1
                        && AllI32(c.fm.entries) && c.fmCenter > 0)
  }

  /** `init`'s range: the uint16 difference, with 0 replaced by 1. */
  function RangeOf(adcMin: int, adcMax: int): (r: int)
    ensures 1 <= r < TWO16
    ensures U16(adcMax - adcMin) != 0 ==> r == U16(adcMax - adcMin)
    ensures IsU16(adcMin) && IsU16(adcMax) && adcMin <= adcMax ==> r == Max(1, adcMax - adcMin)
  {
    var d := U16(adcMax - adcMin);
    if d == 0 then 1 else d
  }

  /** `init`'s scale: 600·2^16 / range, the 16.16 table position of one ADC step. */
  function LutScale(range: int): (s: int)
    requires 1 <= range < TWO16
    ensures IsU32(s)
    ensures s * range <= LUT_SIZE * TWO16 < (s + 1) * range
  {
    var x := LUT_SIZE * TWO16;
    FloorDivBetween(x, range);
    DivModUnique(x, range, x / range, x % range);
    x / range
  }

  /** The clamped reading's 16.16 table position, as the uint32 product the source computes. */
  function ScaledAdc(c: FastConfig, adc: int): int
    requires ConfigOk(c)
  {
    U32((Clamp(adc, c.adcOffset, c.adcOffset + c.adcRange) - c.adcOffset) * c.scale)
  }

  /** The uint32 product never wraps and its integer part never passes the last table entry. */
  lemma ScaledAdcInTable(c: FastConfig, adc: int)
    requires ConfigOk(c)
    ensures var d := Clamp(adc, c.adcOffset, c.adcOffset + c.adcRange) - c.adcOffset;
      ScaledAdc(c, adc) == d * c.scale && ScaledAdc(c, adc) / TWO16 <= LUT_SIZE
  {
    var d := Clamp(adc, c.adcOffset, c.adcOffset + c.adcRange) - c.adcOffset;
    MulMono(d, c.scale, c.adcRange, c.scale);
    assert c.adcRange * c.scale == c.scale * c.adcRange;
    DivMonotone(d * c.scale, LUT_SIZE * TWO16, TWO16);
    DivModUnique(LUT_SIZE * TWO16, TWO16, LUT_SIZE, 0);
  }

  /** The reading is clamped to [offset, offset + range] first: readings outside act as the nearest end. */
  lemma AdcClamped(c: FastConfig, adc: int)
    requires ConfigOk(c)
    ensures adc < c.adcOffset ==> ScaledAdc(c, adc) == ScaledAdc(c, c.adcOffset)
    ensures adc > c.adcOffset + c.adcRange ==> ScaledAdc(c, adc) == ScaledAdc(c, c.adcOffset + c.adcRange)
  {
  }

  /** `x << n` on a uint32. */
  function ShiftLeftU32(x: int, n: nat): (r: int)
    ensures IsU32(r)
    ensures IsU32(x * Pow2(n)) ==> r == x * Pow2(n)
  {
    U32(x * Pow2(n))
  }

  /** `inc0 + ((int32)(inc1 − inc0) · frac >> 16)`: the int32 product wraps, the shift is arithmetic. */
  function InterpolateIncrement(inc0: int, inc1: int, frac: int): int
  {
    U32(inc0 + I32(I32(inc1 - inc0) * frac) / TWO16)
  }

  /**
   * Where the int32 headroom holds, the interpolation lies between the two
   * entries, and a zero fraction gives the first entry exactly.
   */
  lemma InterpolateBetween(inc0: int, inc1: int, frac: int)
    requires IsU32(inc0) && IsU32(inc1) && 0 <= frac < TWO16
    requires IsI32(inc1 - inc0) && IsI32((inc1 - inc0) * frac)
    ensures Min(inc0, inc1) <= InterpolateIncrement(inc0, inc1, frac) <= Max(inc0, inc1)
    ensures frac == 0 ==> InterpolateIncrement(inc0, inc1, frac) == inc0
  {
    FractionBetween(inc1 - inc0, frac, TWO16);
  }

  /** The table stage: the last entry (times the octaves beyond it, capped at 15) or an interpolation. */
  function BaseIncrement(lut: seq<int>, scaled: int): int
    requires |lut| == LUT_SIZE && IsU32(scaled)
  {
    var index := U16(scaled / TWO16);
    if index >= LUT_SIZE - 1 then
      var extraOctaves := U8(U16(index - (LUT_SIZE - 1)) / ENTRIES_PER_OCTAVE);
      ShiftLeftU32(lut[LUT_SIZE - 1], Min(extraOctaves, MAX_OCTAVE_SHIFT))
    else
      InterpolateIncrement(lut[index], lut[index + 1], scaled % TWO16)
  }

  /**
   * Because the reading is clamped, the position never reaches a whole
   * octave past the table: the extrapolation branch returns the last entry
   * unshifted.
   */
  lemma ExtrapolationIsLastEntry(c: FastConfig, adc: int)
    requires ConfigOk(c)
    ensures ScaledAdc(c, adc) / TWO16 >= LUT_SIZE - 1 ==>
      BaseIncrement(c.lut, ScaledAdc(c, adc)) == c.lut[LUT_SIZE - 1]
  {
    ScaledAdcInTable(c, adc);
  }

  /** A position on a whole entry reads that entry exactly. */
  lemma WholeEntryIsExact(c: FastConfig, adc: int)
    requires ConfigOk(c)
    requires ScaledAdc(c, adc) % TWO16 == 0 && ScaledAdc(c, adc) / TWO16 < LUT_SIZE - 1
    ensures BaseIncrement(c.lut, ScaledAdc(c, adc)) == c.lut[ScaledAdc(c, adc) / TWO16]
  {
    ScaledAdcInTable(c, adc);
  }

  /** The octave stage: left for up, right for down, by `shift` places. */
  function ShiftOctaves(base: int, shift: int): (r: int)
    requires IsU32(base)
    ensures IsU32(r)
    ensures shift == 0 ==> r == base
    ensures shift < 0 ==> r <= base
  {
    if shift > 0 then ShiftLeftU32(base, shift)
    else if shift < 0 then (FloorDivBetween(base, Pow2(-shift)); base / Pow2(-shift))
    else base
  }

  /** Shifting up by n and back down by n restores any increment that did not overflow. */
  lemma ShiftUpThenDown(base: int, n: nat)
    requires IsU32(base) && IsU32(base * Pow2(n))
    ensures ShiftOctaves(ShiftOctaves(base, n), -(n as int)) == base
  {
    if n > 0 {
      DivModUnique(base * Pow2(n), Pow2(n), base, 0);
    }
  }

  /** The transposition cap of this calculator: at most 15 octaves either way. */
  function CappedShift(shift: int): (s: int)
    ensures -MAX_OCTAVE_SHIFT <= s <= MAX_OCTAVE_SHIFT
    ensures -MAX_OCTAVE_SHIFT <= shift <= MAX_OCTAVE_SHIFT ==> s == shift
    ensures shift > 0 <==> s > 0
    ensures shift < 0 <==> s < 0
  {
    Clamp(shift, -MAX_OCTAVE_SHIFT, MAX_OCTAVE_SHIFT)
  }

  /** Clamping an int64 sum into the uint32 range. */
  function SatU32(x: int): (r: int)
    ensures IsU32(r)
    ensures IsU32(x) ==> r == x
    ensures x < 0 ==> r == 0
    ensures x >= TWO32 ==> r == TWO32 - 1
  {
    if x < 0 then 0 else if x > 0xFFFF_FFFF then 0xFFFF_FFFF else x
  }

  /** The FM table index: |fm − centre|·size / centre as a uint16, capped at the mask. */
  function FmIndex(c: FastConfig, fmAdc: int): (i: int)
    requires ConfigOk(c) && FmActive(c)
    ensures 0 <= i <= c.fmMask && i < |c.fm.entries|
  {
    var i := U16((Abs(fmAdc - c.fmCenter) * c.fmSize) / c.fmCenter);
    if i > c.fmMask then c.fmMask else i
  }

  /** The FM stage: the table entry, negated below the centre, added and saturated. */
  function ApplyFm(c: FastConfig, base: int, fmAdc: int): (r: int)
    requires ConfigOk(c) && FmActive(c)
    ensures IsU32(r)
  {
    var amount := c.fm.entries[FmIndex(c, fmAdc)];
    var signed := if fmAdc - c.fmCenter < 0 then I32(-amount) else amount;
    SatU32(base + signed)
  }

  /** `getPhaseIncrementNoFM`. */
  function PhaseIncrementNoFm(c: FastConfig, vOctAdc: int, octaveShift: int): (r: int)
    requires ConfigOk(c)
    ensures IsU32(r)
  {
    ScaledAdcInTable(c, vOctAdc);
    var base := BaseIncrement(c.lut, ScaledAdc(c, vOctAdc));
    ShiftOctaves(base, CappedShift(octaveShift))
  }

  /** `getPhaseIncrement`: the same increment, then the FM stage when a table is installed. */
  function PhaseIncrement(c: FastConfig, vOctAdc: int, fmAdc: int, octaveShift: int): (r: int)
    requires ConfigOk(c)
    ensures IsU32(r)
    ensures !FmActive(c) ==> r == PhaseIncrementNoFm(c, vOctAdc, octaveShift)
    ensures FmActive(c) ==> r == ApplyFm(c, PhaseIncrementNoFm(c, vOctAdc, octaveShift), fmAdc)
  {
    var base := PhaseIncrementNoFm(c, vOctAdc, octaveShift);
    if FmActive(c) then ApplyFm(c, base, fmAdc) else base
  }

  /** At the FM centre the first table entry is added unsigned. */
  lemma FmAtCentre(c: FastConfig, base: int)
    requires ConfigOk(c) && FmActive(c)
    ensures ApplyFm(c, base, c.fmCenter) == SatU32(base + c.fm.entries[0])
  {
    var p := Abs(c.fmCenter - c.fmCenter) * c.fmSize;
    assert p == 0;
    DivModUnique(p, c.fmCenter, 0, 0);
    assert FmIndex(c, c.fmCenter) == 0;
  }

  /**
   * With non-negative table entries the modulation follows the sign of the
   * FM offset: at or above the centre the increment never drops, below it
   * the increment never rises.
   */
  lemma FmFollowsOffsetSign(c: FastConfig, base: int, fmAdc: int)
    requires ConfigOk(c) && FmActive(c) && IsU32(base)
    requires forall i :: 0 <= i < |c.fm.entries| ==> 0 <= c.fm.entries[i]
    ensures fmAdc >= c.fmCenter ==> ApplyFm(c, base, fmAdc) >= base
    ensures fmAdc < c.fmCenter ==> ApplyFm(c, base, fmAdc) <= base
  {
  }

  /** Both getters return the same increment when no FM table is installed. */
  lemma NoTableNoModulation(c: FastConfig, vOctAdc: int, fmAdc: int, octaveShift: int)
    requires ConfigOk(c) && c.fm == NoTable
    ensures PhaseIncrement(c, vOctAdc, fmAdc, octaveShift) == PhaseIncrementNoFm(c, vOctAdc, octaveShift)
  {
  }

  /** `FastFrequencyCalculator`. */
  class FastFrequencyCalculator {
    const vOctLUT: array<int>
    var adcToLutScale: int
    var adcOffset: int
    var adcRange: int
    var fmLUT: FmTable
    var fmLUTSize: int
    var fmLUTMask: int
    var fmCenterValue: int

    function Snapshot(): FastConfig
      reads this, vOctLUT
    {
      FastConfig(vOctLUT[..], adcOffset, adcRange, adcToLutScale, fmLUT, fmLUTSize, fmLUTMask, fmCenterValue)
    }

    /** The field types, and an installed FM table of the installed size. */
    ghost predicate Valid()
      reads this, vOctLUT
    {
      vOctLUT.Length == LUT_SIZE && AllU32(vOctLUT[..])
      && IsU16(adcOffset) && IsU16(adcRange) && IsU32(adcToLutScale)
      && IsU16(fmLUTSize) && IsU16(fmLUTMask) && IsU16(fmCenterValue)
      && (fmLUT.Table? && fmLUTSize > 0 ==> |fmLUT.entries| == fmLUTSize && fmLUTMask == fmLUTSize - 1
                                            && AllI32(fmLUT.entries))
    }

    /**
     * No FM table, size and mask 0, centre 2048. The other fields are
     * uninitialised in the source; here they start at 0, which `ConfigOk`
     * rejects, so the getters cannot be used before `Init`.
     */
    constructor()
      ensures Valid() && !ConfigOk(Snapshot())
      ensures fmLUT == NoTable && fmLUTSize == 0 && fmLUTMask == 0 && fmCenterValue == DEFAULT_FM_CENTER
    {
      vOctLUT := new int[LUT_SIZE](_ => 0);
      adcToLutScale := 0;
      adcOffset := 0;
      adcRange := 0;
      fmLUT := NoTable;
      fmLUTSize := 0;
      fmLUTMask := 0;
      fmCenterValue := DEFAULT_FM_CENTER;
    }

    /**
     * `init`: the range (0 replaced by 1), the offset, the scale and the FM
     * centre, and the table filled with the increments `increments[i]`
     * (what the float loop computes for entry i).
     */
    method Init(increments: seq<int>, adcMin: int, adcMax: int, fmCenter: int)
      requires Valid() && |increments| == LUT_SIZE && AllU32(increments)
      requires IsU16(adcMin) && IsU16(adcMax) && IsU16(fmCenter)
      modifies this, vOctLUT
      ensures Valid()
      ensures vOctLUT[..] == increments
      ensures adcRange == RangeOf(adcMin, adcMax) && adcOffset == adcMin
      ensures adcToLutScale == LutScale(adcRange) && fmCenterValue == fmCenter
      ensures fmLUT == old(fmLUT) && fmLUTSize == old(fmLUTSize) && fmLUTMask == old(fmLUTMask)
      ensures fmCenter > 0 ==> ConfigOk(Snapshot())
    {
      fmCenterValue := fmCenter;
      adcRange := U16(adcMax - adcMin);
      if adcRange == 0 {
        adcRange := 1;
      }
      adcOffset := adcMin;
      adcToLutScale := U32((LUT_SIZE * TWO16) / adcRange);
      for i := 0 to LUT_SIZE
        invariant vOctLUT[..i] == increments[..i]
        invariant adcRange == RangeOf(adcMin, adcMax) && adcOffset == adcMin
        invariant adcToLutScale == LutScale(adcRange) && fmCenterValue == fmCenter
        invariant fmLUT == old(fmLUT) && fmLUTSize == old(fmLUTSize) && fmLUTMask == old(fmLUTMask)
      {
        vOctLUT[i] := increments[i];
      }
      assert vOctLUT[..] == vOctLUT[..LUT_SIZE];
    }

    /** `setFMLUT`: a non-null table whose size passes the power-of-two test is installed with mask size − 1. */
    method SetFmLut(table: FmTable, size: bv16)
      requires Valid()
      requires table.Table? ==> |table.entries| == size as int && AllI32(table.entries)
      modifies this
      ensures Valid()
      ensures table.Table? && SizeTestPasses(size) ==>
        fmLUT == table && fmLUTSize == size as int && fmLUTMask == U16(size as int - 1)
      ensures !(table.Table? && SizeTestPasses(size)) ==>
        fmLUT == old(fmLUT) && fmLUTSize == old(fmLUTSize) && fmLUTMask == old(fmLUTMask)
      ensures adcToLutScale == old(adcToLutScale) && adcOffset == old(adcOffset)
      ensures adcRange == old(adcRange) && fmCenterValue == old(fmCenterValue)
      ensures ConfigOk(old(Snapshot())) && fmCenterValue > 0 ==> ConfigOk(Snapshot())
    {
      if table.Table? && SizeTestPasses(size) {
        fmLUT := table;
        fmLUTSize := size as int;
        fmLUTMask := U16(size as int - 1);
      }
    }
  }
}

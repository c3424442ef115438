/**
 * Xylem's `interp_sine_q15`: a 32-bit phase picks one of the 2048 Q15
 * entries of the sine table with its top 11 bits and interpolates
 * linearly towards the next entry, wrapping after the last, with the
 * remaining 21 bits. The table's contents are generated data, so here
 * they are a parameter: any 2048 int16 values.
 */
module SineTable {
  import opened IntArith

  const TABLE_SIZE: int := 2048
  /** The fractional bits below the index: `phase & 0x1FFFFF`. */
  const FRAC_ONE: int := 0x20_0000

  predicate TableOk(table: seq<int>)
  {
    |table| == TABLE_SIZE && forall i :: 0 <= i < |table| ==> IsI16(table[i])
  }

  /** `phase >> 21` for a uint32 phase: always a valid index. */
  function Index(phase: int): (i: int)
    requires IsU32(phase)
    ensures 0 <= i < TABLE_SIZE
  {
    DivBound(phase, FRAC_ONE, TABLE_SIZE);
    phase / FRAC_ONE
  }

  /** `(index + 1) & 0x7FF`: the following entry, 2047 wrapping to 0. */
  function NextIndex(i: int): (j: int)
    requires 0 <= i < TABLE_SIZE
    ensures 0 <= j < TABLE_SIZE
    ensures j == if i == TABLE_SIZE - 1 then 0 else i + 1
  {
    (i + 1) % TABLE_SIZE
  }

  /**
   * The whole computation: the difference of the two taps, its int32
   * product with the fraction (wrapping if it overflows), an arithmetic
   * shift right by 21, which floors, the int32 sum with the first tap and
   * the narrowing to int16.
   */
  function InterpSine(table: seq<int>, phase: int): int
    requires TableOk(table) && IsU32(phase)
  {
    var i := Index(phase);
    var frac := phase % FRAC_ONE;
    var y0 := table[i];
    var y1 := table[NextIndex(i)];
    Lerp(y0, y1, frac)
  }

  /** One interpolation step on the two taps and the 21-bit fraction. */
  function Lerp(y0: int, y1: int, frac: int): int
  {
    I16(I32(y0 + I32((y1 - y0) * frac) / FRAC_ONE))
  }

  /** The interpolation on values: between the taps, and moving towards the second as the fraction grows. */
  lemma LerpBetween(y0: int, y1: int, f: int, g: int)
    requires IsI16(y0) && IsI16(y1) && Abs(y1 - y0) < 1024
    requires 0 <= f <= g < FRAC_ONE
    ensures Min(y0, y1) <= Lerp(y0, y1, f) <= Max(y0, y1)
    ensures y0 <= y1 ==> Lerp(y0, y1, f) <= Lerp(y0, y1, g)
    ensures y1 <= y0 ==> Lerp(y0, y1, g) <= Lerp(y0, y1, f)
  {
    var diff := y1 - y0;
    MulMono(Abs(diff), f, 1023, FRAC_ONE);
    MulMono(Abs(diff), g, 1023, FRAC_ONE);
    if diff < 0 {
      assert diff * f == -(Abs(diff) * f);
      assert diff * g == -(Abs(diff) * g);
      MulLe(f, g, -diff);
      DivMonotone(diff * g, diff * f, FRAC_ONE);
    } else {
      MulLe(f, g, diff);
      DivMonotone(diff * f, diff * g, FRAC_ONE);
    }
    FractionBetween(diff, f, FRAC_ONE);
    FractionBetween(diff, g, FRAC_ONE);
  }

  /** The phase is the index and the fraction, so each phase names one point between two taps. */
  lemma PhaseSplits(phase: int)
    requires IsU32(phase)
    ensures phase == Index(phase) * FRAC_ONE + phase % FRAC_ONE
    ensures 0 <= phase % FRAC_ONE < FRAC_ONE
  {
  }

  /** A phase with no fractional part reads its table entry exactly. */
  lemma ZeroFractionIsExact(table: seq<int>, phase: int)
    requires TableOk(table) && IsU32(phase) && phase % FRAC_ONE == 0
    ensures InterpSine(table, phase) == table[phase / FRAC_ONE]
  {
  }

  /**
   * When neighbouring taps differ by less than 1024, so that the product
   * with a 21-bit fraction cannot overflow int32, the result lies between
   * the two taps.
   */
  lemma InterpolatesBetweenTaps(table: seq<int>, phase: int)
    requires TableOk(table) && IsU32(phase)
    requires Abs(table[NextIndex(Index(phase))] - table[Index(phase)]) < 1024
    ensures var y0 := table[Index(phase)]; var y1 := table[NextIndex(Index(phase))];
      Min(y0, y1) <= InterpSine(table, phase) <= Max(y0, y1)
  {
    var i := Index(phase);
    LerpBetween(table[i], table[NextIndex(i)], phase % FRAC_ONE, phase % FRAC_ONE);
  }

  /** Under the same bound, moving the fraction forward moves the result towards the second tap. */
  lemma MonotoneInFraction(table: seq<int>, phase: int, later: int)
    requires TableOk(table) && IsU32(phase) && IsU32(later)
    requires Index(later) == Index(phase) && phase <= later
    requires Abs(table[NextIndex(Index(phase))] - table[Index(phase)]) < 1024
    ensures var y0 := table[Index(phase)]; var y1 := table[NextIndex(Index(phase))];
      (y0 <= y1 ==> InterpSine(table, phase) <= InterpSine(table, later))
      && (y1 <= y0 ==> InterpSine(table, later) <= InterpSine(table, phase))
  {
    PhaseSplits(phase);
    PhaseSplits(later);
    var i := Index(phase);
    LerpBetween(table[i], table[NextIndex(i)], phase % FRAC_ONE, later % FRAC_ONE);
  }
}

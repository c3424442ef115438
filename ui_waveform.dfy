/**
 * The loop sampler's waveform view: after a load it shows the sample as
 * a min/max envelope, one column of the 256×64 gray panel per slice of
 * samples, scaled so the loudest sample reaches the edge, and any turn or
 * press of the encoder leaves it. The frame buffer is the one in `Gray4`;
 * sending it to the panel is outside the model.
 */
module UiWaveform {
  import opened IntArith
  import opened Wrappers
  import opened Gray4

  const W: int := 256
  const H: int := 64
  const MID: int := H / 2
  const SHADE_BACKGROUND: int := 0
  const SHADE_WAVEFORM: int := 12
  const SHADE_CENTERLINE: int := 6

  predicate SamplesOk(s: seq<int>)
  {
    forall i :: 0 <= i < |s| ==> IsI16(s[i])
  }

  /** The smallest value of a non-empty sequence. */
  function SeqMin(s: seq<int>): (r: int)
    requires |s| > 0
    ensures r in s && forall k :: 0 <= k < |s| ==> r <= s[k]
  {
    if |s| == 1 then s[0]
    else
      var m := SeqMin(s[..|s| - 1]);
      assert forall k :: 0 <= k < |s| - 1 ==> s[k] == s[..|s| - 1][k];
      if s[|s| - 1] < m then s[|s| - 1] else m
  }

  /** The largest value of a non-empty sequence. */
  function SeqMax(s: seq<int>): (r: int)
    requires |s| > 0
    ensures r in s && forall k :: 0 <= k < |s| ==> s[k] <= r
  {
    if |s| == 1 then s[0]
    else
      var m := SeqMax(s[..|s| - 1]);
      assert forall k :: 0 <= k < |s| - 1 ==> s[k] == s[..|s| - 1][k];
      if s[|s| - 1] > m then s[|s| - 1] else m
  }

  /** Extending a range by one sample folds that sample into its least and greatest. */
  lemma ExtendRange(samples: seq<int>, start: int, i: int)
    requires 0 <= start < i < |samples|
    ensures var m := SeqMin(samples[start..i]); var v := samples[i];
      SeqMin(samples[start..i + 1]) == if v < m then v else m
    ensures var m := SeqMax(samples[start..i]); var v := samples[i];
      SeqMax(samples[start..i + 1]) == if v > m then v else m
  {
    var r := samples[start..i + 1];
    assert r[..|r| - 1] == samples[start..i];
    assert r[|r| - 1] == samples[i];
  }

  /**
   * `find_min_max_range`: (0, 0) for an empty range, otherwise the least
   * and greatest of `samples[start..end)`, found from the first sample on.
   */
  method FindMinMaxRange(samples: seq<int>, start: int, end: int) returns (minOut: int, maxOut: int)
    requires 0 <= start && end <= |samples|
    ensures start >= end ==> minOut == 0 && maxOut == 0
    ensures start < end ==> minOut == SeqMin(samples[start..end]) && maxOut == SeqMax(samples[start..end])
  {
    if start >= end {
      minOut, maxOut := 0, 0;
    } else {
      var minVal := samples[start];
      var maxVal := samples[start];
      var i := start + 1;
      assert samples[start..i] == [samples[start]];
      while i < end
        invariant start + 1 <= i <= end
        invariant minVal == SeqMin(samples[start..i]) && maxVal == SeqMax(samples[start..i])
      {
        ExtendRange(samples, start, i);
        if samples[i] < minVal { minVal := samples[i]; }
        if samples[i] > maxVal { maxVal := samples[i]; }
        i := i + 1;
      }
      minOut, maxOut := minVal, maxVal;
    }
  }

  /**
   * The scan the drawing code repeats inline, for the whole sample and
   * for each column: starting from 32767 and -32768 it finds the least
   * and greatest of a non-empty range of int16 samples.
   */
  method Extent(samples: seq<int>, start: int, end: int) returns (lo: int, hi: int)
    requires SamplesOk(samples) && 0 <= start < end <= |samples|
    ensures lo == SeqMin(samples[start..end]) && hi == SeqMax(samples[start..end])
  {
    lo, hi := 32767, -32768;
    for i := start to end
      invariant i == start ==> lo == 32767 && hi == -32768
      invariant i > start ==> lo == SeqMin(samples[start..i]) && hi == SeqMax(samples[start..i])
    {
      var v := samples[i];
      if i > start {
        ExtendRange(samples, start, i);
      }
      if v < lo { lo := v; }
      if v > hi { hi := v; }
    }
  }

  /**
   * The scale: the larger of the greatest sample and minus the least, that
   * is the largest magnitude among the first n samples.
   */
  function Peak(samples: seq<int>, n: int): (p: int)
    requires 0 < n <= |samples|
    ensures forall i :: 0 <= i < n ==> -p <= samples[i] <= p
    ensures exists i :: 0 <= i < n && (samples[i] == p || samples[i] == -p)
  {
    Max(SeqMax(samples[..n]), -SeqMin(samples[..n]))
  }

  /**
   * The samples of column `x`: from ⌊x·n/256⌋ to ⌊(x+1)·n/256⌋, at least
   * one and no further than the end. (The source computes the bounds in
   * double precision, where `n / 256` and its multiples by a column index
   * are exact, so its `floor` is this integer division.)
   */
  function ColumnStart(x: int, n: int): int
    requires 0 <= x && 0 <= n
  {
    x * n / W
  }

  function ColumnEnd(x: int, n: int): int
    requires 0 <= x && 0 <= n
  {
    var start := ColumnStart(x, n);
    var end := (x + 1) * n / W;
    var widened := if end <= start then start + 1 else end;
    if widened > n then n else widened
  }

  /**
   * For a non-empty sample every column's range is non-empty and within
   * the sample, the first starts at 0, the last ends at the end, and each
   * starts no later than the previous one ends, so every sample lies in
   * some column; in particular the scan never stops early.
   */
  lemma ColumnsCover(x: int, n: int)
    requires 0 <= x < W && 0 < n
    ensures 0 <= ColumnStart(x, n) < ColumnEnd(x, n) <= n
    ensures x == 0 ==> ColumnStart(x, n) == 0
    ensures x == W - 1 ==> ColumnEnd(x, n) == n
    ensures x < W - 1 ==> ColumnStart(x + 1, n) <= ColumnEnd(x, n)
  {
    MulLe(x, W - 1, n);
    DivBound(x * n, W, n);
    MulLe(x + 1, W, n);
    DivBound((x + 1) * n, W, n + 1);
    MulLe(x, x + 1, n);
    DivMonotone(x * n, (x + 1) * n, W);
    if x == W - 1 {
      DivModUnique(W * n, W, n, 0);
    }
  }

  /**
   * The row of a value: `mid - v·32 / peak`, with C's truncating
   * division, clamped to the panel.
   */
  function RowOf(v: int, peak: int): (r: int)
    requires peak >= 1
    ensures 0 <= r < H
  {
    Clamp(MID - CDiv(v * (H / 2), peak), 0, H - 1)
  }

  /** A larger value is never drawn lower, whatever the scale, and zero sits on the middle row. */
  lemma RowOfMonotone(u: int, v: int, peak: int)
    requires peak >= 1 && u <= v
    ensures RowOf(v, peak) <= RowOf(u, peak)
    ensures RowOf(0, peak) == MID
  {
    CDivMonotone(u * (H / 2), v * (H / 2), peak);
  }

  /** C's division by a positive divisor is monotone in the dividend. */
  lemma CDivMonotone(a: int, b: int, d: int)
    requires d > 0 && a <= b
    ensures CDiv(a, d) <= CDiv(b, d)
  {
    if a >= 0 {
      DivMonotone(a, b, d);
    } else if b <= 0 {
      DivMonotone(-b, -a, d);
    } else {
      FloorDivBetween(-a, d);
      FloorDivBetween(b, d);
    }
  }

  /** The rows of column `x`: the top from its greatest sample, the bottom from its least. */
  function Column(samples: seq<int>, n: int, peak: int, x: int): (r: (int, int))
    requires SamplesOk(samples) && 0 < n <= |samples| && peak >= 1 && 0 <= x < W
  {
    ColumnsCover(x, n);
    var slice := samples[ColumnStart(x, n)..ColumnEnd(x, n)];
    (RowOf(SeqMax(slice), peak), RowOf(SeqMin(slice), peak))
  }

  /** At any scale the top of every column lies at or above its bottom. */
  lemma ColumnOrdered(samples: seq<int>, n: int, peak: int, x: int)
    requires SamplesOk(samples) && 0 < n <= |samples| && peak >= 1 && 0 <= x < W
    ensures Column(samples, n, peak, x).0 <= Column(samples, n, peak, x).1
  {
    ColumnsCover(x, n);
    var slice := samples[ColumnStart(x, n)..ColumnEnd(x, n)];
    assert SeqMin(slice) in slice;
    RowOfMonotone(SeqMin(slice), SeqMax(slice), peak);
  }

  /** One column drawn: a single pixel when its rows agree, else the column between them. */
  function DrawColumn(buf: seq<int>, x: int, yMin: int, yMax: int): (r: seq<int>)
    requires BufferOk(buf)
    ensures BufferOk(r)
  {
    if yMin == yMax then Plot(buf, x, yMin, SHADE_WAVEFORM) else VLine(buf, x, yMin, yMax, SHADE_WAVEFORM)
  }

  /** The first `cols` columns drawn, left to right. */
  function Envelope(buf: seq<int>, samples: seq<int>, n: int, peak: int, cols: int): (r: seq<int>)
    requires BufferOk(buf) && SamplesOk(samples) && 0 < n <= |samples| && peak >= 1 && 0 <= cols <= W
    ensures BufferOk(r)
  {
    if cols == 0 then buf
    else
      var c := Column(samples, n, peak, cols - 1);
      DrawColumn(Envelope(buf, samples, n, peak, cols - 1), cols - 1, c.0, c.1)
  }

  /**
   * What `waveform_draw` leaves in the buffer: black, with the centre
   * line alone for a missing, empty or silent sample, and otherwise the
   * envelope over all 256 columns.
   */
  function Image(samples: Option<seq<int>>, n: int): (r: seq<int>)
    requires samples.Some? ==> SamplesOk(samples.value) && 0 <= n <= |samples.value|
    ensures BufferOk(r)
  {
    if samples.None? || n == 0 || Peak(samples.value, n) < 1 then HLine(Cleared(SHADE_BACKGROUND), 0, W - 1, MID, SHADE_CENTERLINE)
    else Envelope(Cleared(SHADE_BACKGROUND), samples.value, n, Peak(samples.value, n), W)
  }

  /** Every column's top lies at or above its bottom. */
  predicate ColumnsOrdered(samples: seq<int>, n: int, peak: int)
    requires SamplesOk(samples) && 0 < n <= |samples| && peak >= 1
  {
    forall x :: 0 <= x < W ==> Column(samples, n, peak, x).0 <= Column(samples, n, peak, x).1
  }

  /** At any scale every column is ordered. */
  lemma ScaleOrdersColumns(samples: seq<int>, n: int, peak: int)
    requires SamplesOk(samples) && 0 < n <= |samples| && peak >= 1
    ensures ColumnsOrdered(samples, n, peak)
  {
    forall x | 0 <= x < W
      ensures Column(samples, n, peak, x).0 <= Column(samples, n, peak, x).1
    {
      ColumnOrdered(samples, n, peak, x);
    }
  }

  /** Columns `0 .. |rows| - 1` drawn, left to right, column `x` between the rows `rows[x]`. */
  function Strokes(buf: seq<int>, rows: seq<(int, int)>): (r: seq<int>)
    requires BufferOk(buf)
    ensures BufferOk(r)
  {
    if rows == [] then buf
    else
      var c := rows[|rows| - 1];
      DrawColumn(Strokes(buf, rows[..|rows| - 1]), |rows| - 1, c.0, c.1)
  }

  /** The rows of the first `cols` columns. */
  function ColumnRows(samples: seq<int>, n: int, peak: int, cols: int): (r: seq<(int, int)>)
    requires SamplesOk(samples) && 0 < n <= |samples| && peak >= 1 && 0 <= cols <= W
    ensures |r| == cols && forall x :: 0 <= x < cols ==> r[x] == Column(samples, n, peak, x)
  {
    seq(cols, x requires 0 <= x < cols => Column(samples, n, peak, x))
  }

  /** The envelope is the strokes of the columns' rows. */
  lemma {:induction false} EnvelopeIsStrokes(buf: seq<int>, samples: seq<int>, n: int, peak: int, cols: int)
    requires BufferOk(buf) && SamplesOk(samples) && 0 < n <= |samples| && peak >= 1 && 0 <= cols <= W
    ensures Envelope(buf, samples, n, peak, cols) == Strokes(buf, ColumnRows(samples, n, peak, cols))
  {
    if cols > 0 {
      EnvelopeIsStrokes(buf, samples, n, peak, cols - 1);
      var rows := ColumnRows(samples, n, peak, cols);
      assert rows[..cols - 1] == ColumnRows(samples, n, peak, cols - 1);
    }
  }

  /** Strokes over a black buffer, every one with its top at or above its bottom, light exactly the rows of each stroke in its column. */
  lemma {:induction false} StrokesPixels(rows: seq<(int, int)>, x2: int, y2: int)
    requires forall x :: 0 <= x < |rows| ==> rows[x].0 <= rows[x].1
    requires OnScreen(x2, y2)
    ensures Pixel(Strokes(Cleared(SHADE_BACKGROUND), rows), x2, y2)
      == if x2 < |rows| && rows[x2].0 <= y2 <= rows[x2].1 then SHADE_WAVEFORM else SHADE_BACKGROUND
  {
    if rows == [] {
      ClearedPixels(SHADE_BACKGROUND, x2, y2);
    } else {
      var init := rows[..|rows| - 1];
      StrokesPixels(init, x2, y2);
      var c := rows[|rows| - 1];
      DrawColumnPixels(Strokes(Cleared(SHADE_BACKGROUND), init), |rows| - 1, c.0, c.1, x2, y2);
    }
  }

  /** The envelope lights, in each drawn column, exactly the rows from its top to its bottom, over a black buffer. */
  lemma EnvelopePixels(samples: seq<int>, n: int, peak: int, cols: int, x2: int, y2: int)
    requires SamplesOk(samples) && 0 < n <= |samples| && peak >= 1 && 0 <= cols <= W
    requires ColumnsOrdered(samples, n, peak) && OnScreen(x2, y2)
    ensures Pixel(Envelope(Cleared(SHADE_BACKGROUND), samples, n, peak, cols), x2, y2)
      == if x2 < cols && Column(samples, n, peak, x2).0 <= y2 <= Column(samples, n, peak, x2).1
         then SHADE_WAVEFORM else SHADE_BACKGROUND
  {
    EnvelopeIsStrokes(Cleared(SHADE_BACKGROUND), samples, n, peak, cols);
    var rows := ColumnRows(samples, n, peak, cols);
    StrokesPixels(rows, x2, y2);
  }

  /** The image of a loud enough sample: in each column, exactly the rows between the column's top and bottom. */
  lemma ImagePixels(samples: seq<int>, n: int, x2: int, y2: int)
    requires SamplesOk(samples) && 0 < n <= |samples| && Peak(samples, n) >= 1 && OnScreen(x2, y2)
    ensures Pixel(Image(Some(samples), n), x2, y2)
      == if Column(samples, n, Peak(samples, n), x2).0 <= y2 <= Column(samples, n, Peak(samples, n), x2).1
         then SHADE_WAVEFORM else SHADE_BACKGROUND
  {
    ScaleOrdersColumns(samples, n, Peak(samples, n));
    EnvelopePixels(samples, n, Peak(samples, n), W, x2, y2);
  }

  /** A column drawn with its top at or above its bottom lights exactly its rows in that column. */
  lemma DrawColumnPixels(buf: seq<int>, x: int, yMin: int, yMax: int, x2: int, y2: int)
    requires BufferOk(buf) && yMin <= yMax && OnScreen(x2, y2)
    ensures Pixel(DrawColumn(buf, x, yMin, yMax), x2, y2)
      == if x2 == x && yMin <= y2 <= yMax then SHADE_WAVEFORM else Pixel(buf, x2, y2)
  {
    if yMin == yMax {
      PlotThenPixel(buf, x, yMin, SHADE_WAVEFORM, x2, y2);
    } else {
      VLinePixels(buf, x, yMin, yMax, SHADE_WAVEFORM, x2, y2);
    }
  }

  /** The rows the column loop computes for column `x` are those of `Column`, so one pass draws the next column. */
  lemma EnvelopeStep(buf: seq<int>, samples: seq<int>, n: int, peak: int, x: int, start: int, end: int)
    requires BufferOk(buf) && SamplesOk(samples) && 0 < n <= |samples| && peak >= 1 && 0 <= x < W
    requires start == x * n / W
    requires end == Min(if (x + 1) * n / W <= start then start + 1 else (x + 1) * n / W, n)
    ensures 0 <= start < end <= n
    ensures var c := (RowOf(SeqMax(samples[start..end]), peak), RowOf(SeqMin(samples[start..end]), peak));
      c == Column(samples, n, peak, x)
      && Envelope(buf, samples, n, peak, x + 1) == DrawColumn(Envelope(buf, samples, n, peak, x), x, c.0, c.1)
  {
    ColumnsCover(x, n);
  }

  /** Without a sample to draw the panel is black but for the middle row in the centre-line shade. */
  lemma CentreLinePixels(x2: int, y2: int)
    requires OnScreen(x2, y2)
    ensures Pixel(HLine(Cleared(SHADE_BACKGROUND), 0, W - 1, MID, SHADE_CENTERLINE), x2, y2)
      == if y2 == MID then SHADE_CENTERLINE else SHADE_BACKGROUND
  {
    HLinePixels(Cleared(SHADE_BACKGROUND), 0, W - 1, MID, SHADE_CENTERLINE, x2, y2);
    ClearedPixels(SHADE_BACKGROUND, x2, y2);
  }

  /** The view's statics: `s_samples`, `s_sampleCount`, `s_sampleRate` and `s_active`. */
  class WaveformView {
    var samples: Option<seq<int>>
    var sampleCount: int
    var sampleRate: int
    var active: bool

    ghost predicate Valid()
      reads this
    {
      IsU32(sampleCount) && IsU32(sampleRate)
      && (samples.Some? ==> SamplesOk(samples.value) && sampleCount <= |samples.value|)
    }

    constructor()
      ensures Valid() && samples.None? && sampleCount == 0 && sampleRate == 0 && !active
    {
      samples := None;
      sampleCount := 0;
      sampleRate := 0;
      active := false;
    }

    /** `waveform_init`: the sample recorded and the view active. */
    method Init(s: Option<seq<int>>, count: int, rate: int)
      requires IsU32(count) && IsU32(rate)
      requires s.Some? ==> SamplesOk(s.value) && count <= |s.value|
      modifies this
      ensures Valid() && samples == s && sampleCount == count && sampleRate == rate && active
    {
      samples := s;
      sampleCount := count;
      sampleRate := rate;
      active := true;
    }

    /** `waveform_is_active`. */
    function IsActive(): bool
      reads this
    {
      active
    }

    /** `waveform_exit`: inactive, with the sample kept. */
    method Exit()
      modifies this
      ensures !active && samples == old(samples) && sampleCount == old(sampleCount) && sampleRate == old(sampleRate)
    {
      active := false;
    }

    /** `waveform_on_turn`: a zero step keeps the view and reports it handled; any other step leaves it. */
    method OnTurn(inc: int) returns (handled: bool)
      modifies this
      ensures handled <==> inc == 0
      ensures active == (old(active) && inc == 0)
      ensures samples == old(samples) && sampleCount == old(sampleCount) && sampleRate == old(sampleRate)
    {
      if inc != 0 {
        Exit();
        return false;
      }
      return true;
    }

    /** `waveform_on_button`: a press always leaves the view. */
    method OnButton() returns (handled: bool)
      modifies this
      ensures !handled && !active
      ensures samples == old(samples) && sampleCount == old(sampleCount) && sampleRate == old(sampleRate)
    {
      Exit();
      return false;
    }

    /** `waveform_draw`. */
    method Draw(fb: Gray4Buffer)
      requires Valid() && fb.Valid()
      modifies fb.buffer
      ensures fb.Valid() && fb.buffer[..] == Image(samples, sampleCount)
    {
      fb.Clear(SHADE_BACKGROUND);
      if samples.None? || sampleCount == 0 {
        fb.DrawHLine(0, W - 1, MID, SHADE_CENTERLINE);
        return;
      }
      var s := samples.value;
      var n := sampleCount;
      var gmin, gmax := Extent(s, 0, n);
      var peak := gmax;
      if -gmin > peak { peak := -gmin; }
      assert peak == Peak(s, n);
      if peak < 1 {
        fb.DrawHLine(0, W - 1, MID, SHADE_CENTERLINE);
        return;
      }
      DrawColumns(fb, s, n, peak);
    }
  }

  /** The column loop of `waveform_draw`. */
  method DrawColumns(fb: Gray4Buffer, s: seq<int>, n: int, peak: int)
    requires fb.Valid() && SamplesOk(s) && 0 < n <= |s| && peak >= 1
    modifies fb.buffer
    ensures fb.Valid() && fb.buffer[..] == Envelope(old(fb.buffer[..]), s, n, peak, W)
  {
    for x := 0 to W
      invariant fb.Valid() && fb.buffer[..] == Envelope(old(fb.buffer[..]), s, n, peak, x)
    {
      var start := x * n / W;
      var end := (x + 1) * n / W;
      if end <= start { end := start + 1; }
      if end > n { end := n; }
      EnvelopeStep(old(fb.buffer[..]), s, n, peak, x, start, end);
      var cmin, cmax := Extent(s, start, end);
      var yMin := RowOf(cmax, peak);
      var yMax := RowOf(cmin, peak);
      if yMin == yMax {
        fb.SetPixel(x, yMin, SHADE_WAVEFORM);
      } else {
        fb.DrawVLine(x, yMin, yMax, SHADE_WAVEFORM);
      }
    }
  }
}

/**
 * The loop sampler's 4-bit grayscale frame buffer for its 256×64 SH1122
 * panel: 128 bytes per row, two pixels per byte, the even column in the
 * high nibble and the odd one in the low nibble. Shades above 15 are
 * clamped to 15, and anything drawn off the screen is dropped. The SPI
 * transfer of the buffer to the panel is outside the model.
 */
module Gray4 {
  import opened IntArith

  const WIDTH: int := 256
  const HEIGHT: int := 64
  const BYTES_PER_ROW: int := 128
  const BUFFER_BYTES: int := 8192

  predicate BufferOk(buf: seq<int>)
  {
    |buf| == BUFFER_BYTES && forall i :: 0 <= i < |buf| ==> IsU8(buf[i])
  }

  predicate OnScreen(x: int, y: int)
  {
    0 <= x < WIDTH && 0 <= y < HEIGHT
  }

  /** `if (shade > 15) shade = 15`. */
  function Shade(shade: int): (s: int)
    requires IsU8(shade)
    ensures 0 <= s <= 15 && (shade <= 15 ==> s == shade)
  {
    Min(shade, 15)
  }

  /** `y * 128 + x / 2`: the byte holding a pixel, always inside the buffer. */
  function ByteIndex(x: int, y: int): (i: int)
    requires OnScreen(x, y)
    ensures 0 <= i < BUFFER_BYTES
  {
    MulLe(y, HEIGHT - 1, BYTES_PER_ROW);
    y * BYTES_PER_ROW + x / 2
  }

  /** Two pixels share a byte exactly when they are the two halves of one column pair. */
  lemma ByteIndexShared(x: int, y: int, x2: int, y2: int)
    requires OnScreen(x, y) && OnScreen(x2, y2)
    ensures ByteIndex(x, y) == ByteIndex(x2, y2) <==> y == y2 && x / 2 == x2 / 2
  {
    if ByteIndex(x, y) == ByteIndex(x2, y2) {
      DivModUnique(ByteIndex(x, y), BYTES_PER_ROW, y, x / 2);
      DivModUnique(ByteIndex(x2, y2), BYTES_PER_ROW, y2, x2 / 2);
    }
  }

  /** `gray4_get_pixel`: the pixel's nibble, and 0 off the screen. */
  function Pixel(buf: seq<int>, x: int, y: int): (v: int)
    requires BufferOk(buf)
    ensures 0 <= v <= 15
  {
    if !OnScreen(x, y) then 0
    else
      var b := buf[ByteIndex(x, y)];
      if x % 2 == 1 then b % 16 else b / 16
  }

  /**
   * `gray4_set_pixel` on the buffer: `(b & 0xF0) | shade` for an odd
   * column, `(b & 0x0F) | (shade << 4)` for an even one, nothing off the
   * screen.
   */
  function Plot(buf: seq<int>, x: int, y: int, shade: int): (r: seq<int>)
    requires BufferOk(buf) && IsU8(shade)
    ensures BufferOk(r)
  {
    if !OnScreen(x, y) then buf
    else
      var i := ByteIndex(x, y);
      var s := Shade(shade);
      var b := buf[i];
      buf[i := if x % 2 == 1 then (b / 16) * 16 + s else s * 16 + b % 16]
  }

  /** Setting a pixel reads back as the clamped shade, leaves every other pixel alone, and off the screen does nothing. */
  lemma PlotThenPixel(buf: seq<int>, x: int, y: int, shade: int, x2: int, y2: int)
    requires BufferOk(buf) && IsU8(shade)
    ensures !OnScreen(x, y) ==> Plot(buf, x, y, shade) == buf
    ensures OnScreen(x, y) ==> Pixel(Plot(buf, x, y, shade), x, y) == Shade(shade)
    ensures (x2, y2) != (x, y) ==> Pixel(Plot(buf, x, y, shade), x2, y2) == Pixel(buf, x2, y2)
  {
    if OnScreen(x, y) {
      var b := buf[ByteIndex(x, y)];
      var s := Shade(shade);
      DivModUnique((b / 16) * 16 + s, 16, b / 16, s);
      DivModUnique(s * 16 + b % 16, 16, s, b % 16);
      if OnScreen(x2, y2) && (x2, y2) != (x, y) {
        ByteIndexShared(x, y, x2, y2);
        if ByteIndex(x, y) == ByteIndex(x2, y2) {
          assert x2 % 2 != x % 2 by {
            assert y == y2 && x / 2 == x2 / 2;
            assert x != x2;
            DivModUnique(x, 2, x / 2, x % 2);
            DivModUnique(x2, 2, x2 / 2, x2 % 2);
          }
        }
      }
    }
  }

  /** The line routines clamp the shade before setting pixels, which clamp it again to the same effect. */
  lemma PlotClamped(buf: seq<int>, x: int, y: int, shade: int)
    requires BufferOk(buf) && IsU8(shade)
    ensures Plot(buf, x, y, Shade(shade)) == Plot(buf, x, y, shade)
  {
  }

  lemma {:induction false} HSpanClamped(buf: seq<int>, y: int, lo: int, hi: int, shade: int)
    requires BufferOk(buf) && IsU8(shade)
    ensures HSpan(buf, y, lo, hi, Shade(shade)) == HSpan(buf, y, lo, hi, shade)
    decreases hi - lo
  {
    if hi >= lo {
      HSpanClamped(buf, y, lo, hi - 1, shade);
      PlotClamped(HSpan(buf, y, lo, hi - 1, shade), hi, y, shade);
    }
  }

  lemma {:induction false} VSpanClamped(buf: seq<int>, x: int, lo: int, hi: int, shade: int)
    requires BufferOk(buf) && IsU8(shade)
    ensures VSpan(buf, x, lo, hi, Shade(shade)) == VSpan(buf, x, lo, hi, shade)
    decreases hi - lo
  {
    if hi >= lo {
      VSpanClamped(buf, x, lo, hi - 1, shade);
      PlotClamped(VSpan(buf, x, lo, hi - 1, shade), x, hi, shade);
    }
  }

  /** `gray4_clear`: every byte `(shade << 4) | shade` of the clamped shade. */
  function Cleared(shade: int): (r: seq<int>)
    requires IsU8(shade)
    ensures BufferOk(r)
  {
    var s := Shade(shade);
    seq(BUFFER_BYTES, _ => s * 16 + s)
  }

  /** After a clear every pixel on the screen has the clamped shade. */
  lemma ClearedPixels(shade: int, x: int, y: int)
    requires IsU8(shade) && OnScreen(x, y)
    ensures Pixel(Cleared(shade), x, y) == Shade(shade)
  {
    var s := Shade(shade);
    DivModUnique(s * 16 + s, 16, s, s);
  }

  /** The pixels `(lo, y) … (hi, y)` set in order. */
  function HSpan(buf: seq<int>, y: int, lo: int, hi: int, shade: int): (r: seq<int>)
    requires BufferOk(buf) && IsU8(shade)
    ensures BufferOk(r)
    decreases hi - lo
  {
    if hi < lo then buf else Plot(HSpan(buf, y, lo, hi - 1, shade), hi, y, shade)
  }

  /** The pixels `(x, lo) … (x, hi)` set in order. */
  function VSpan(buf: seq<int>, x: int, lo: int, hi: int, shade: int): (r: seq<int>)
    requires BufferOk(buf) && IsU8(shade)
    ensures BufferOk(r)
    decreases hi - lo
  {
    if hi < lo then buf else Plot(VSpan(buf, x, lo, hi - 1, shade), x, hi, shade)
  }

  /** A horizontal span sets exactly its on-screen pixels. */
  lemma {:induction false} HSpanPixels(buf: seq<int>, y: int, lo: int, hi: int, shade: int, x2: int, y2: int)
    requires BufferOk(buf) && IsU8(shade)
    ensures Pixel(HSpan(buf, y, lo, hi, shade), x2, y2)
      == if y2 == y && lo <= x2 <= hi && OnScreen(x2, y2) then Shade(shade) else Pixel(buf, x2, y2)
    decreases hi - lo
  {
    if hi >= lo {
      HSpanPixels(buf, y, lo, hi - 1, shade, x2, y2);
      PlotThenPixel(HSpan(buf, y, lo, hi - 1, shade), hi, y, shade, x2, y2);
    }
  }

  /** A vertical span sets exactly its on-screen pixels. */
  lemma {:induction false} VSpanPixels(buf: seq<int>, x: int, lo: int, hi: int, shade: int, x2: int, y2: int)
    requires BufferOk(buf) && IsU8(shade)
    ensures Pixel(VSpan(buf, x, lo, hi, shade), x2, y2)
      == if x2 == x && lo <= y2 <= hi && OnScreen(x2, y2) then Shade(shade) else Pixel(buf, x2, y2)
    decreases hi - lo
  {
    if hi >= lo {
      VSpanPixels(buf, x, lo, hi - 1, shade, x2, y2);
      PlotThenPixel(VSpan(buf, x, lo, hi - 1, shade), x, hi, shade, x2, y2);
    }
  }

  /** The rows `y … y + rows - 1` each spanned from `x0` to `x1`. */
  function Rows(buf: seq<int>, x0: int, x1: int, y: int, rows: int, shade: int): (r: seq<int>)
    requires BufferOk(buf) && IsU8(shade)
    ensures BufferOk(r)
    decreases rows
  {
    if rows <= 0 then buf else HSpan(Rows(buf, x0, x1, y, rows - 1, shade), y + rows - 1, x0, x1, shade)
  }

  /** Filled rows set exactly the on-screen pixels of the rectangle. */
  lemma {:induction false} RowsPixels(buf: seq<int>, x0: int, x1: int, y: int, rows: int, shade: int, x2: int, y2: int)
    requires BufferOk(buf) && IsU8(shade)
    ensures Pixel(Rows(buf, x0, x1, y, rows, shade), x2, y2)
      == if x0 <= x2 <= x1 && y <= y2 < y + rows && OnScreen(x2, y2) then Shade(shade) else Pixel(buf, x2, y2)
    decreases rows
  {
    if rows > 0 {
      RowsPixels(buf, x0, x1, y, rows - 1, shade, x2, y2);
      HSpanPixels(Rows(buf, x0, x1, y, rows - 1, shade), y + rows - 1, x0, x1, shade, x2, y2);
    }
  }

  /** What `gray4_draw_hline` draws: nothing on an off-screen row, else the sorted ends clamped to the screen and the span between. */
  function HLine(buf: seq<int>, x0: int, x1: int, y: int, shade: int): (r: seq<int>)
    requires BufferOk(buf) && IsU8(shade)
    ensures BufferOk(r)
  {
    if !(0 <= y < HEIGHT) then buf
    else HSpan(buf, y, Max(Min(x0, x1), 0), Min(Max(x0, x1), WIDTH - 1), shade)
  }

  /** What `gray4_draw_vline` draws, the same for a column. */
  function VLine(buf: seq<int>, x: int, y0: int, y1: int, shade: int): (r: seq<int>)
    requires BufferOk(buf) && IsU8(shade)
    ensures BufferOk(r)
  {
    if !(0 <= x < WIDTH) then buf
    else VSpan(buf, x, Max(Min(y0, y1), 0), Min(Max(y0, y1), HEIGHT - 1), shade)
  }

  /** A horizontal line sets exactly the on-screen pixels between its ends, in either order, and leaves every other pixel. */
  lemma HLinePixels(buf: seq<int>, x0: int, x1: int, y: int, shade: int, x2: int, y2: int)
    requires BufferOk(buf) && IsU8(shade)
    ensures Pixel(HLine(buf, x0, x1, y, shade), x2, y2)
      == if y2 == y && Min(x0, x1) <= x2 <= Max(x0, x1) && OnScreen(x2, y2) then Shade(shade) else Pixel(buf, x2, y2)
  {
    if 0 <= y < HEIGHT {
      HSpanPixels(buf, y, Max(Min(x0, x1), 0), Min(Max(x0, x1), WIDTH - 1), shade, x2, y2);
    }
  }

  /** A vertical line sets exactly the on-screen pixels between its ends. */
  lemma VLinePixels(buf: seq<int>, x: int, y0: int, y1: int, shade: int, x2: int, y2: int)
    requires BufferOk(buf) && IsU8(shade)
    ensures Pixel(VLine(buf, x, y0, y1, shade), x2, y2)
      == if x2 == x && Min(y0, y1) <= y2 <= Max(y0, y1) && OnScreen(x2, y2) then Shade(shade) else Pixel(buf, x2, y2)
  {
    if 0 <= x < WIDTH {
      VSpanPixels(buf, x, Max(Min(y0, y1), 0), Min(Max(y0, y1), HEIGHT - 1), shade, x2, y2);
    }
  }

  /**
   * `gray4_draw_rect`: the top and bottom rows, then the left and right
   * columns, with the far edges `x + w - 1` and `y + h - 1` narrowed to
   * the int16 parameters of the line functions.
   */
  function Outline(buf: seq<int>, x: int, y: int, w: int, h: int, shade: int): (r: seq<int>)
    requires BufferOk(buf) && IsU8(shade)
    ensures BufferOk(r)
  {
    var right := I16(x + w - 1);
    var bottom := I16(y + h - 1);
    VLine(VLine(HLine(HLine(buf, x, right, y, shade), x, right, bottom, shade), x, y, bottom, shade), right, y, bottom, shade)
  }

  /**
   * A rectangle at least one pixel wide and high whose far edges fit in
   * int16 sets exactly the on-screen pixels of its border.
   */
  lemma OutlinePixels(buf: seq<int>, x: int, y: int, w: int, h: int, shade: int, x2: int, y2: int)
    requires BufferOk(buf) && IsU8(shade)
    requires w >= 1 && h >= 1 && IsI16(x + w - 1) && IsI16(y + h - 1)
    ensures Pixel(Outline(buf, x, y, w, h, shade), x2, y2)
      == if OnScreen(x2, y2) && x <= x2 < x + w && y <= y2 < y + h
           && (x2 == x || x2 == x + w - 1 || y2 == y || y2 == y + h - 1)
         then Shade(shade) else Pixel(buf, x2, y2)
  {
    var right := x + w - 1;
    var bottom := y + h - 1;
    assert I16(x + w - 1) == right && I16(y + h - 1) == bottom;
    var b1 := HLine(buf, x, right, y, shade);
    var b2 := HLine(b1, x, right, bottom, shade);
    var b3 := VLine(b2, x, y, bottom, shade);
    assert Outline(buf, x, y, w, h, shade) == VLine(b3, right, y, bottom, shade);
    HLinePixels(buf, x, right, y, shade, x2, y2);
    HLinePixels(b1, x, right, bottom, shade, x2, y2);
    VLinePixels(b2, x, y, bottom, shade, x2, y2);
    VLinePixels(b3, right, y, bottom, shade, x2, y2);
  }

  /**
   * The clipping of `gray4_fill_rect` along one axis: a negative start
   * moves to 0 and shrinks the size by the same amount (`w += x` on an
   * int16, so it is narrowed), then a size past the edge is cut there.
   */
  function ClipAxis(p: int, size: int, limit: int): (r: (int, int))
  {
    var p1 := if p < 0 then 0 else p;
    var s1 := if p < 0 then I16(size + p) else size;
    (p1, if p1 + s1 > limit then I16(limit - p1) else s1)
  }

  /** The two axes clipped independently, as `(x, y, w, h)`. */
  function FillClip(x: int, y: int, w: int, h: int): (r: (int, int, int, int))
  {
    var cx := ClipAxis(x, w, WIDTH);
    var cy := ClipAxis(y, h, HEIGHT);
    (cx.0, cy.0, cx.1, cy.1)
  }

  /** What `gray4_fill_rect` draws: nothing when the clipped size is empty, else each clipped row spanned. */
  function Filled(buf: seq<int>, x: int, y: int, w: int, h: int, shade: int): (r: seq<int>)
    requires BufferOk(buf) && IsU8(shade)
    ensures BufferOk(r)
  {
    var c := FillClip(x, y, w, h);
    if c.2 <= 0 || c.3 <= 0 then buf else Rows(buf, c.0, c.0 + c.2 - 1, c.1, c.3, shade)
  }

  /** A non-empty clip is filled row by row. */
  lemma FilledIsRows(buf: seq<int>, x: int, y: int, w: int, h: int, shade: int, cx: int, cy: int, cw: int, ch: int)
    requires BufferOk(buf) && IsU8(shade)
    requires (cx, cw) == ClipAxis(x, w, WIDTH) && (cy, ch) == ClipAxis(y, h, HEIGHT) && cw > 0 && ch > 0
    ensures Filled(buf, x, y, w, h, shade) == Rows(buf, cx, cx + cw - 1, cy, ch, shade)
  {
  }

  /** Whatever the size, the clipped span starts on the axis and ends by its edge. */
  lemma ClipAxisBounds(p: int, size: int, limit: int)
    requires IsI16(p) && IsI16(size) && 0 < limit < 32768
    ensures 0 <= ClipAxis(p, size, limit).0 && ClipAxis(p, size, limit).0 + ClipAxis(p, size, limit).1 <= limit
  {
  }

  /** For a non-negative size, the clipped span keeps exactly the part of the requested one on the axis. */
  lemma ClipAxisKeeps(p: int, size: int, limit: int, q: int)
    requires IsI16(p) && IsI16(size) && size >= 0 && 0 < limit < 32768 && 0 <= q < limit
    ensures var c := ClipAxis(p, size, limit);
      c.0 <= q < c.0 + c.1 <==> p <= q < p + size
  {
  }

  /**
   * For a non-negative size, filling sets exactly the on-screen pixels of
   * the rectangle and leaves every other pixel.
   */
  lemma FilledPixels(buf: seq<int>, x: int, y: int, w: int, h: int, shade: int, x2: int, y2: int)
    requires BufferOk(buf) && IsU8(shade)
    requires IsI16(x) && IsI16(y) && IsI16(w) && IsI16(h) && w >= 0 && h >= 0
    ensures Pixel(Filled(buf, x, y, w, h, shade), x2, y2)
      == if OnScreen(x2, y2) && x <= x2 < x + w && y <= y2 < y + h then Shade(shade) else Pixel(buf, x2, y2)
  {
    var cx, cy := ClipAxis(x, w, WIDTH), ClipAxis(y, h, HEIGHT);
    assert FillClip(x, y, w, h) == (cx.0, cy.0, cx.1, cy.1);
    if OnScreen(x2, y2) {
      ClipAxisKeeps(x, w, WIDTH, x2);
      ClipAxisKeeps(y, h, HEIGHT, y2);
    }
    if cx.1 > 0 && cy.1 > 0 {
      RowsPixels(buf, cx.0, cx.0 + cx.1 - 1, cy.0, cy.1, shade, x2, y2);
    } else if OnScreen(x2, y2) {
      assert !(x <= x2 < x + w && y <= y2 < y + h);
    }
  }

  /** The points of a path set in order. */
  function PlotAll(buf: seq<int>, path: seq<(int, int)>, shade: int): (r: seq<int>)
    requires BufferOk(buf) && IsU8(shade)
    ensures BufferOk(r)
  {
    if path == [] then buf
    else Plot(PlotAll(buf, path[..|path| - 1], shade), path[|path| - 1].0, path[|path| - 1].1, shade)
  }

  /** Each point of the path is one step from the previous one: each coordinate moves by 0 or by its direction. */
  predicate Steps(path: seq<(int, int)>, sx: int, sy: int)
  {
    forall k :: 0 < k < |path| ==> OneStep(path[k - 1], path[k], sx, sy)
  }

  predicate OneStep(a: (int, int), b: (int, int), sx: int, sy: int)
  {
    (b.0 - a.0 == 0 || b.0 - a.0 == sx) && (b.1 - a.1 == 0 || b.1 - a.1 == sy) && b != a
  }

  lemma StepsExtend(path: seq<(int, int)>, p: (int, int), sx: int, sy: int)
    requires Steps(path, sx, sy) && (path != [] ==> OneStep(path[|path| - 1], p, sx, sy))
    ensures Steps(path + [p], sx, sy)
  {
    var q := path + [p];
    forall k | 0 < k < |q|
      ensures OneStep(q[k - 1], q[k], sx, sy)
    {
      if k < |path| {
        assert q[k - 1] == path[k - 1] && q[k] == path[k];
      }
    }
  }

  /** Bresenham's direction in one coordinate: `(a < b) ? 1 : -1`. */
  function Dir(a: int, b: int): int
  {
    if a < b then 1 else -1
  }

  /**
   * The loop's invariant for a line from `(x0, y0)` to `(x1, y1)` at
   * `(x, y)`: each coordinate lies between its start and its end, and the
   * error term is `dx·(1 + j) - dy·(1 + i)` for the `i` and `j` steps taken.
   */
  predicate WalkOk(x0: int, y0: int, x1: int, y1: int, x: int, y: int, err: int)
  {
    var dx := Abs(x1 - x0);
    var dy := Abs(y1 - y0);
    dx > 0 && dy > 0
    && Abs(x - x0) <= dx && Abs(y - y0) <= dy
    && (x0 < x1 ==> x0 <= x) && (x1 < x0 ==> x <= x0)
    && (y0 < y1 ==> y0 <= y) && (y1 < y0 ==> y <= y0)
    && err == dx * (1 + Abs(y - y0)) - dy * (1 + Abs(x - x0))
  }

  /** The loop starts at `(x0, y0)` with `err = dx - dy`. */
  lemma WalkStarts(x0: int, y0: int, x1: int, y1: int)
    requires x0 != x1 && y0 != y1
    ensures WalkOk(x0, y0, x1, y1, x0, y0, Abs(x1 - x0) - Abs(y1 - y0))
  {
  }

  /** One pass of the loop body after the pixel is set: `e2 = 2·err`, then the x move and the y move. */
  function WalkStep(x0: int, y0: int, x1: int, y1: int, x: int, y: int, err: int): (r: (int, int, int))
  {
    var dx: int := Abs(x1 - x0);
    var dy: int := Abs(y1 - y0);
    var e2 := 2 * err;
    var (x', err') := if e2 > -dy then (x + Dir(x0, x1), err - dy) else (x, err);
    if e2 < dx then (x', y + Dir(y0, y1), err' + dx) else (x', y, err')
  }

  /**
   * Before the end, a pass keeps the invariant, moves one step towards
   * the end in at least one coordinate, and never past it.
   */
  lemma WalkStepOk(x0: int, y0: int, x1: int, y1: int, x: int, y: int, err: int)
    requires WalkOk(x0, y0, x1, y1, x, y, err) && (x, y) != (x1, y1)
    ensures var (x', y', err') := WalkStep(x0, y0, x1, y1, x, y, err);
      WalkOk(x0, y0, x1, y1, x', y', err')
      && OneStep((x, y), (x', y'), Dir(x0, x1), Dir(y0, y1))
      && Abs(x1 - x') + Abs(y1 - y') < Abs(x1 - x) + Abs(y1 - y)
  {
    var dx: int := Abs(x1 - x0);
    var dy: int := Abs(y1 - y0);
    var i := Abs(x - x0);
    var j := Abs(y - y0);
    BresenhamStep(dx, dy, i, j, err);
    var mx := 2 * err > -dy;
    var my := 2 * err < dx;
    ErrAfterStep(dx, dy, i, j, err, mx, my);
  }

  /** At most one coordinate has reached its end, so at least one moves, and neither moves past its end. */
  lemma BresenhamStep(dx: int, dy: int, i: int, j: int, err: int)
    requires dx > 0 && dy > 0 && 0 <= i <= dx && 0 <= j <= dy && !(i == dx && j == dy)
    requires err == dx * (1 + j) - dy * (1 + i)
    ensures 2 * err > -dy || 2 * err < dx
    ensures 2 * err > -dy ==> i < dx
    ensures 2 * err < dx ==> j < dy
  {
    if i == dx {
      MulLe(1 + j, dy, dx);
    }
    if j == dy {
      MulLe(1 + i, dx, dy);
    }
  }

  lemma ErrAfterStep(dx: int, dy: int, i: int, j: int, err: int, mx: bool, my: bool)
    requires err == dx * (1 + j) - dy * (1 + i)
    ensures (if my then (if mx then err - dy else err) + dx else (if mx then err - dy else err))
      == dx * (1 + (if my then j + 1 else j)) - dy * (1 + (if mx then i + 1 else i))
  {
  }

  /**
   * Bresenham's error term stays within `[-3·dy/2, 3·dx/2]`: one pass adds
   * `dx`, subtracts `dy`, or both, and only when `2·err` is on the side
   * that keeps it in range.
   */
  predicate ErrInRange(dx: int, dy: int, err: int)
  {
    -3 * dy <= 2 * err <= 3 * dx
  }

  /** The error term starts in range, and a pass keeps it there. */
  lemma WalkErrStays(x0: int, y0: int, x1: int, y1: int, x: int, y: int, err: int)
    requires x0 != x1 && y0 != y1
    ensures ErrInRange(Abs(x1 - x0), Abs(y1 - y0), Abs(x1 - x0) - Abs(y1 - y0))
    ensures ErrInRange(Abs(x1 - x0), Abs(y1 - y0), err) ==>
      ErrInRange(Abs(x1 - x0), Abs(y1 - y0), WalkStep(x0, y0, x1, y1, x, y, err).2)
  {
  }

  /**
   * The loop body as written: `dx`, `dy`, `err`, `e2 = 2 * err` and both
   * coordinates are `int16_t`, so every assignment narrows to 16 bits.
   */
  function WalkStepAsWritten(x0: int, y0: int, x1: int, y1: int, x: int, y: int, err: int): (r: (int, int, int))
    ensures IsI16(r.2)
  {
    var dx := I16(Abs(x1 - x0));
    var dy := I16(Abs(y1 - y0));
    var e2 := I16(2 * err);
    var (x', err') := if e2 > -dy then (I16(x + Dir(x0, x1)), I16(err - dy)) else (x, err);
    if e2 < dx then (x', I16(y + Dir(y0, y1)), I16(err' + dx)) else (x', y, I16(err'))
  }

  /**
   * For int16 ends at most 8191 apart in each coordinate, the loop body as
   * written computes the same pass as exact arithmetic on every state the
   * walk reaches: no narrowing changes a value.
   */
  lemma WalkStepAsWrittenAgrees(x0: int, y0: int, x1: int, y1: int, x: int, y: int, err: int)
    requires IsI16(x0) && IsI16(y0) && IsI16(x1) && IsI16(y1)
    requires Abs(x1 - x0) <= 8191 && Abs(y1 - y0) <= 8191
    requires WalkOk(x0, y0, x1, y1, x, y, err) && ErrInRange(Abs(x1 - x0), Abs(y1 - y0), err)
    requires (x, y) != (x1, y1)
    ensures WalkStepAsWritten(x0, y0, x1, y1, x, y, err) == WalkStep(x0, y0, x1, y1, x, y, err)
  {
    WalkStepOk(x0, y0, x1, y1, x, y, err);
  }

  /**
   * A line from (0, 0) to (20000, 1): `2 * err` wraps to -25538 on the first
   * pass, so the walk as written steps in y before x, and on the second pass
   * it steps past the end row to y = 2, outside the line's bounding box.
   * The exact walk keeps to the box and first steps in x.
   */
  lemma LongLineLeavesBox()
    ensures WalkStepAsWritten(0, 0, 20000, 1, 0, 0, 19999) == (0, 1, -25537)
    ensures WalkStepAsWritten(0, 0, 20000, 1, 0, 1, -25537) == (1, 2, -5538)
    ensures !WalkOk(0, 0, 20000, 1, 1, 2, -5538)
    ensures WalkStep(0, 0, 20000, 1, 0, 0, 19999) == (1, 0, 19998)
  {
    assert I16(39998) == -25538;
    assert I16(39999) == -25537;
    assert I16(-51074) == 14462;
    assert I16(-25538) == -25538;
    assert I16(-5538) == -5538;
  }

  /** The frame buffer, `gray4_buffer`. */
  class Gray4Buffer {
    const buffer: array<int>

    ghost predicate Valid()
      reads this, buffer
    {
      BufferOk(buffer[..])
    }

    /** The zero-initialised static buffer. */
    constructor()
      ensures Valid() && fresh(buffer) && buffer[..] == seq(BUFFER_BYTES, _ => 0)
    {
      buffer := new int[BUFFER_BYTES](_ => 0);
    }

    /** `gray4_get_pixel`. */
    function GetPixel(x: int, y: int): (v: int)
      requires Valid()
      reads this, buffer
      ensures v == Pixel(buffer[..], x, y)
    {
      if x < 0 || x >= WIDTH || y < 0 || y >= HEIGHT then 0
      else
        var b := buffer[ByteIndex(x, y)];
        if x % 2 == 1 then b % 16 else b / 16
    }

    /** `gray4_clear`. */
    method Clear(shade: int)
      requires Valid() && IsU8(shade)
      modifies buffer
      ensures Valid() && buffer[..] == Cleared(shade)
    {
      var s := Shade(shade);
      for i := 0 to BUFFER_BYTES
        invariant forall k :: 0 <= k < i ==> buffer[k] == s * 16 + s
      {
        buffer[i] := s * 16 + s;
      }
    }

    /** `gray4_set_pixel`. */
    method SetPixel(x: int, y: int, shade: int)
      requires Valid() && IsU8(shade)
      modifies buffer
      ensures Valid() && buffer[..] == Plot(old(buffer[..]), x, y, shade)
    {
      if x < 0 || x >= WIDTH || y < 0 || y >= HEIGHT {
        return;
      }
      var s := Shade(shade);
      var i := ByteIndex(x, y);
      var b := buffer[i];
      if x % 2 == 1 {
        buffer[i] := (b / 16) * 16 + s;
      } else {
        buffer[i] := s * 16 + b % 16;
      }
    }

    /**
     * `gray4_draw_hline`: nothing for an off-screen row; otherwise the
     * endpoints sorted, clamped to the screen, and the span between set.
     */
    method DrawHLine(x0: int, x1: int, y: int, shade: int)
      requires Valid() && IsU8(shade)
      modifies buffer
      ensures Valid() && buffer[..] == HLine(old(buffer[..]), x0, x1, y, shade)
    {
      if y < 0 || y >= HEIGHT {
        return;
      }
      var s := Shade(shade);
      var lo, hi := x0, x1;
      if lo > hi {
        lo, hi := x1, x0;
      }
      if lo < 0 { lo := 0; }
      if hi >= WIDTH { hi := WIDTH - 1; }
      SpanRow(lo, hi, y, s);
      HSpanClamped(old(buffer[..]), y, lo, hi, shade);
    }

    /** The pixel loop of `gray4_draw_hline` between already clamped ends. */
    method SpanRow(lo: int, hi: int, y: int, shade: int)
      requires Valid() && IsU8(shade)
      modifies buffer
      ensures Valid() && buffer[..] == HSpan(old(buffer[..]), y, lo, hi, shade)
    {
      var x := lo;
      while x <= hi
        invariant Valid() && (lo <= hi ==> lo <= x <= hi + 1) && (hi < lo ==> x == lo)
        invariant buffer[..] == HSpan(old(buffer[..]), y, lo, x - 1, shade)
        decreases hi - x
      {
        SetPixel(x, y, shade);
        x := x + 1;
      }
    }

    /** `gray4_draw_vline`, the same for a column. */
    method DrawVLine(x: int, y0: int, y1: int, shade: int)
      requires Valid() && IsU8(shade)
      modifies buffer
      ensures Valid() && buffer[..] == VLine(old(buffer[..]), x, y0, y1, shade)
    {
      if x < 0 || x >= WIDTH {
        return;
      }
      var s := Shade(shade);
      var lo, hi := y0, y1;
      if lo > hi {
        lo, hi := y1, y0;
      }
      if lo < 0 { lo := 0; }
      if hi >= HEIGHT { hi := HEIGHT - 1; }
      SpanColumn(x, lo, hi, s);
      VSpanClamped(old(buffer[..]), x, lo, hi, shade);
    }

    /** The pixel loop of `gray4_draw_vline` between already clamped ends. */
    method SpanColumn(x: int, lo: int, hi: int, shade: int)
      requires Valid() && IsU8(shade)
      modifies buffer
      ensures Valid() && buffer[..] == VSpan(old(buffer[..]), x, lo, hi, shade)
    {
      var y := lo;
      while y <= hi
        invariant Valid() && (lo <= hi ==> lo <= y <= hi + 1) && (hi < lo ==> y == lo)
        invariant buffer[..] == VSpan(old(buffer[..]), x, lo, y - 1, shade)
        decreases hi - y
      {
        SetPixel(x, y, shade);
        y := y + 1;
      }
    }

    /**
     * `gray4_draw_line`: a row or a column goes to the line routines;
     * otherwise Bresenham's walk from `(x0, y0)` to `(x1, y1)`, which
     * ends, sets its first point first and its last point last, and
     * moves one step at a time towards the end.
     */
    method DrawLine(x0: int, y0: int, x1: int, y1: int, shade: int) returns (ghost path: seq<(int, int)>)
      requires Valid() && IsU8(shade)
      modifies buffer
      ensures Valid()
      ensures y0 == y1 ==> buffer[..] == HLine(old(buffer[..]), x0, x1, y0, shade)
      ensures y0 != y1 && x0 == x1 ==> buffer[..] == VLine(old(buffer[..]), x0, y0, y1, shade)
      ensures y0 != y1 && x0 != x1 ==>
        |path| > 0 && path[0] == (x0, y0) && path[|path| - 1] == (x1, y1)
        && Steps(path, if x0 < x1 then 1 else -1, if y0 < y1 then 1 else -1)
        && buffer[..] == PlotAll(old(buffer[..]), path, shade)
    {
      path := [];
      if y0 == y1 {
        DrawHLine(x0, x1, y0, shade);
        return;
      }
      if x0 == x1 {
        DrawVLine(x0, y0, y1, shade);
        return;
      }
      path := Walk(x0, y0, x1, y1, shade);
    }

    /** Bresenham's loop of `gray4_draw_line`, for a line that is neither a row nor a column. */
    method Walk(x0: int, y0: int, x1: int, y1: int, shade: int) returns (ghost path: seq<(int, int)>)
      requires Valid() && IsU8(shade) && x0 != x1 && y0 != y1
      modifies buffer
      ensures Valid()
      ensures |path| > 0 && path[0] == (x0, y0) && path[|path| - 1] == (x1, y1)
      ensures Steps(path, if x0 < x1 then 1 else -1, if y0 < y1 then 1 else -1)
      ensures buffer[..] == PlotAll(old(buffer[..]), path, shade)
    {
      var dx: int := Abs(x1 - x0);
      var dy: int := Abs(y1 - y0);
      var err := dx - dy;
      var x, y := x0, y0;
      WalkStarts(x0, y0, x1, y1);
      path := [];
      while true
        invariant Valid() && WalkOk(x0, y0, x1, y1, x, y, err)
        invariant buffer[..] == PlotAll(old(buffer[..]), path, shade)
        invariant path == [] ==> (x, y) == (x0, y0)
        invariant path != [] ==> path[0] == (x0, y0) && OneStep(path[|path| - 1], (x, y), Dir(x0, x1), Dir(y0, y1))
        invariant Steps(path, Dir(x0, x1), Dir(y0, y1))
        decreases Abs(x1 - x) + Abs(y1 - y)
      {
        SetPixel(x, y, shade);
        StepsExtend(path, (x, y), Dir(x0, x1), Dir(y0, y1));
        ghost var before := path;
        path := path + [(x, y)];
        assert path[..|path| - 1] == before;
        if x == x1 && y == y1 {
          break;
        }
        WalkStepOk(x0, y0, x1, y1, x, y, err);
        var next := WalkStep(x0, y0, x1, y1, x, y, err);
        x, y, err := next.0, next.1, next.2;
      }
    }

    /** `gray4_draw_rect`. */
    method DrawRect(x: int, y: int, w: int, h: int, shade: int)
      requires Valid() && IsU8(shade) && IsI16(x) && IsI16(y) && IsI16(w) && IsI16(h)
      modifies buffer
      ensures Valid() && buffer[..] == Outline(old(buffer[..]), x, y, w, h, shade)
    {
      var right := I16(x + w - 1);
      var bottom := I16(y + h - 1);
      DrawHLine(x, right, y, shade);
      DrawHLine(x, right, bottom, shade);
      DrawVLine(x, y, bottom, shade);
      DrawVLine(right, y, bottom, shade);
    }

    /** `gray4_fill_rect`: the clipping, then one row span per row of the clipped rectangle. */
    method FillRect(x: int, y: int, w: int, h: int, shade: int)
      requires Valid() && IsU8(shade) && IsI16(x) && IsI16(y) && IsI16(w) && IsI16(h)
      modifies buffer
      ensures Valid() && buffer[..] == Filled(old(buffer[..]), x, y, w, h, shade)
    {
      var cx, cy, cw, ch := x, y, w, h;
      if cx < 0 { cw := I16(cw + cx); cx := 0; }
      if cy < 0 { ch := I16(ch + cy); cy := 0; }
      if cx + cw > WIDTH { cw := I16(WIDTH - cx); }
      if cy + ch > HEIGHT { ch := I16(HEIGHT - cy); }
      assert (cx, cw) == ClipAxis(x, w, WIDTH);
      assert (cy, ch) == ClipAxis(y, h, HEIGHT);
      if cw <= 0 || ch <= 0 {
        return;
      }
      ClipAxisBounds(x, w, WIDTH);
      ClipAxisBounds(y, h, HEIGHT);
      ghost var start := buffer[..];
      FilledIsRows(start, x, y, w, h, shade, cx, cy, cw, ch);
      FillRows(cx, cy, cw, ch, shade);
    }

    /** The row loop of `gray4_fill_rect`, over an already clipped rectangle. */
    method FillRows(x: int, y: int, w: int, h: int, shade: int)
      requires Valid() && IsU8(shade)
      requires 0 <= x && x + w <= WIDTH && 0 <= y && y + h <= HEIGHT && w > 0 && h > 0
      modifies buffer
      ensures Valid() && buffer[..] == Rows(old(buffer[..]), x, x + w - 1, y, h, shade)
    {
      var row := 0;
      while row < h
        invariant Valid() && 0 <= row <= h
        invariant buffer[..] == Rows(old(buffer[..]), x, x + w - 1, y, row, shade)
      {
        ghost var before := buffer[..];
        DrawHLine(x, x + w - 1, y + row, shade);
        assert Max(Min(x, x + w - 1), 0) == x && Min(Max(x, x + w - 1), WIDTH - 1) == x + w - 1;
        row := row + 1;
      }
    }
  }
}

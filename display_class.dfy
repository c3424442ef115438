/**
 * `DisplayClass`, the loop sampler's other text front end for the SH1122
 * panel: the same twenty-line log and seven-line page, a redraw flag, and
 * scrolling that wraps back to the top when it runs past the last page.
 * The u8g2 object is modelled only as present or not; `update` returns
 * the rows and the scroll bar it would draw. The reset pulse, the SPI set
 * up and the serial echo of each line are outside the model.
 */
module Display {
  import opened IntArith
  import opened Wrappers
  import opened LineLog

  const DISPLAY_WIDTH: int := 256
  const DISPLAY_HEIGHT: int := 64
  const LINE_HEIGHT: int := 8
  const FONT_START_Y: int := 10
  const SCROLL_DELAY_MS: int := 500

  /** One `drawStr` of a log row: its baseline and its text. */
  datatype Row = Row(y: int, text: string)

  /** What `update` draws: the page's rows and, for a log longer than a page, the scroll bar's top and height. */
  datatype Frame = Frame(rows: seq<Row>, bar: Option<(int, int)>)

  /**
   * The scroll bar of `update`: its height is a page's share of the
   * inner 60 pixels, at least 2, and its top moves down in proportion to
   * the offset. For a log longer than a page and an offset within the
   * scroll range, the bar lies inside the two-pixel border.
   */
  function ScrollBar(count: int, offset: int): (r: (int, int))
    requires PAGE < count <= MAX_LINES && 0 <= offset <= count - PAGE
    ensures 2 <= r.1 && 2 <= r.0 && r.0 + r.1 <= DISPLAY_HEIGHT - 2
  {
    var barHeight := Max(2, (PAGE * (DISPLAY_HEIGHT - 4)) / count);
    ScrollBarFits(count, offset, barHeight);
    (2 + (offset * (DISPLAY_HEIGHT - 4 - barHeight)) / (count - PAGE), barHeight)
  }

  /** The arithmetic behind the bar's placement: the height fits the inner 60 pixels, and the proportional top leaves room for it. */
  lemma ScrollBarFits(count: int, offset: int, barHeight: int)
    requires PAGE < count <= MAX_LINES && 0 <= offset <= count - PAGE
    requires barHeight == Max(2, (PAGE * (DISPLAY_HEIGHT - 4)) / count)
    ensures 2 <= barHeight <= DISPLAY_HEIGHT - 4
    ensures 0 <= (offset * (DISPLAY_HEIGHT - 4 - barHeight)) / (count - PAGE) <= DISPLAY_HEIGHT - 4 - barHeight
  {
    MulLe(8, count, DISPLAY_HEIGHT - 3);
    DivBound(PAGE * (DISPLAY_HEIGHT - 4), count, DISPLAY_HEIGHT - 3);
    var room := DISPLAY_HEIGHT - 4 - barHeight;
    var t := offset * room;
    MulLe(0, offset, room);
    MulLe(offset, count - PAGE, room);
    assert (count - PAGE) * (room + 1) == (count - PAGE) * room + (count - PAGE);
    DivBound(t, count - PAGE, room + 1);
  }

  /** At the top of the scroll range the bar is at the top, and at the bottom it touches the bottom border. */
  lemma ScrollBarEnds(count: int)
    requires PAGE < count <= MAX_LINES
    ensures ScrollBar(count, 0).0 == 2
    ensures ScrollBar(count, count - PAGE).0 + ScrollBar(count, count - PAGE).1 == DISPLAY_HEIGHT - 2
  {
    var h := ScrollBar(count, 0).1;
    assert (count - PAGE) * (DISPLAY_HEIGHT - 4 - h) / (count - PAGE) == DISPLAY_HEIGHT - 4 - h by {
      DivModUnique((count - PAGE) * (DISPLAY_HEIGHT - 4 - h), count - PAGE, DISPLAY_HEIGHT - 4 - h, 0);
    }
  }

  /** The rows of a page with their baselines, 8 pixels apart from 10. */
  function Rows(page: seq<string>): (r: seq<Row>)
    ensures |r| == |page|
    ensures forall k :: 0 <= k < |r| ==> r[k] == Row(FONT_START_Y + k * LINE_HEIGHT, page[k])
  {
    seq(|page|, k requires 0 <= k < |page| => Row(FONT_START_Y + k * LINE_HEIGHT, page[k]))
  }

  class DisplayClass {
    /** Whether `u8g2` has been created by `begin`. */
    var attached: bool
    /** `displayLines`. */
    const displayLines: array<string>
    var lineCount: int
    var scrollOffset: int
    var needsRedraw: bool
    var lastScrollTime: int
    var autoScrollEnabled: bool

    ghost predicate Valid()
      reads this, displayLines
    {
      LinesOk(displayLines[..], lineCount) && OffsetOk(lineCount, scrollOffset) && IsU32(lastScrollTime)
    }

    /** The constructor's initialiser list; the `String` rows start empty. */
    constructor()
      ensures Valid() && fresh(displayLines) && displayLines[..] == Blank()
      ensures !attached && lineCount == 0 && scrollOffset == 0 && needsRedraw
      ensures lastScrollTime == 0 && autoScrollEnabled
    {
      attached := false;
      displayLines := new string[MAX_LINES](_ => "");
      lineCount := 0;
      scrollOffset := 0;
      needsRedraw := true;
      lastScrollTime := 0;
      autoScrollEnabled := true;
    }

    /** `begin`: the panel object created, then the log cleared; allocation is taken to succeed. */
    method Begin() returns (ok: bool)
      requires Valid()
      modifies this, displayLines
      ensures Valid() && ok && attached
      ensures displayLines[..] == Blank() && lineCount == 0 && scrollOffset == 0 && needsRedraw
      ensures lastScrollTime == old(lastScrollTime) && autoScrollEnabled == old(autoScrollEnabled)
    {
      attached := true;
      Clear();
      ok := true;
    }

    /** `addLine`: the line pushed onto the log, and a redraw requested. */
    method AddLine(line: string)
      requires Valid()
      modifies this, displayLines
      ensures Valid() && (displayLines[..], lineCount) == Push(old(displayLines[..]), old(lineCount), line)
      ensures needsRedraw && attached == old(attached) && scrollOffset == old(scrollOffset)
      ensures lastScrollTime == old(lastScrollTime) && autoScrollEnabled == old(autoScrollEnabled)
    {
      PushAppends(displayLines[..], lineCount, line);
      if lineCount < MAX_LINES {
        displayLines[lineCount] := line;
        lineCount := lineCount + 1;
      } else {
        ShiftUp();
        displayLines[MAX_LINES - 1] := line;
        assert displayLines[..] == old(displayLines[..])[1..] + [line];
      }
      needsRedraw := true;
    }

    /** The shift loop of `addLine`: each row takes the one below it, so the last one is left as it was. */
    method ShiftUp()
      requires displayLines.Length == MAX_LINES
      modifies displayLines
      ensures displayLines[..] == old(displayLines[..])[1..] + [old(displayLines[MAX_LINES - 1])]
    {
      for i := 0 to MAX_LINES - 1
        invariant forall k :: 0 <= k < i ==> displayLines[k] == old(displayLines[k + 1])
        invariant forall k :: i <= k < MAX_LINES ==> displayLines[k] == old(displayLines[k])
      {
        displayLines[i] := displayLines[i + 1];
      }
      assert displayLines[..] == old(displayLines[..])[1..] + [old(displayLines[MAX_LINES - 1])];
    }

    /** `clear`: at the top, every row empty, a redraw requested. */
    method Clear()
      requires Valid()
      modifies this, displayLines
      ensures Valid() && displayLines[..] == Blank() && lineCount == 0 && scrollOffset == 0 && needsRedraw
      ensures attached == old(attached) && lastScrollTime == old(lastScrollTime)
      ensures autoScrollEnabled == old(autoScrollEnabled)
    {
      lineCount := 0;
      scrollOffset := 0;
      needsRedraw := true;
      for i := 0 to MAX_LINES
        modifies displayLines
        invariant forall k :: 0 <= k < i ==> displayLines[k] == ""
      {
        displayLines[i] := "";
      }
      assert displayLines[..] == Blank();
    }

    /**
     * `update`: nothing without the panel; otherwise the page's rows and,
     * for a log longer than a page, the scroll bar; afterwards no redraw
     * is pending.
     */
    method Update() returns (frame: Option<Frame>)
      requires Valid()
      modifies this
      ensures Valid() && attached == old(attached) && lineCount == old(lineCount) && scrollOffset == old(scrollOffset)
      ensures lastScrollTime == old(lastScrollTime) && autoScrollEnabled == old(autoScrollEnabled)
      ensures !attached ==> frame.None? && needsRedraw == old(needsRedraw)
      ensures attached ==> (!needsRedraw && frame.Some?
        && frame.value.rows == Rows(Window(displayLines[..], lineCount, scrollOffset))
        && frame.value.bar == if lineCount > PAGE then Some(ScrollBar(lineCount, scrollOffset)) else None)
    {
      if !attached {
        return None;
      }
      var displayStart := scrollOffset;
      var displayEnd := Min(displayStart + PAGE, lineCount);
      var rows: seq<Row> := [];
      for i := displayStart to displayEnd
        invariant rows == Rows(displayLines[displayStart..i])
      {
        rows := rows + [Row(FONT_START_Y + (i - displayStart) * LINE_HEIGHT, displayLines[i])];
      }
      var bar: Option<(int, int)> := None;
      if lineCount > PAGE {
        bar := Some(ScrollBar(lineCount, scrollOffset));
      }
      needsRedraw := false;
      frame := Some(Frame(rows, bar));
    }

    /**
     * `handleScroll`: with auto-scroll on, more than a page of lines and
     * more than 500 ms (uint32) since the last step, the page moves down
     * one row, wrapping back to the top past the last page.
     */
    method HandleScroll(currentTime: int)
      requires Valid() && IsU32(currentTime)
      modifies this
      ensures Valid() && attached == old(attached) && lineCount == old(lineCount)
      ensures autoScrollEnabled == old(autoScrollEnabled)
      ensures !autoScrollEnabled || lineCount <= PAGE || Since(currentTime, old(lastScrollTime)) <= SCROLL_DELAY_MS ==>
        scrollOffset == old(scrollOffset) && needsRedraw == old(needsRedraw) && lastScrollTime == old(lastScrollTime)
      ensures autoScrollEnabled && lineCount > PAGE && Since(currentTime, old(lastScrollTime)) > SCROLL_DELAY_MS ==>
        scrollOffset == (if old(scrollOffset) + 1 > lineCount - PAGE then 0 else old(scrollOffset) + 1)
        && needsRedraw && lastScrollTime == currentTime
    {
      if !autoScrollEnabled || lineCount <= PAGE {
        return;
      }
      if Since(currentTime, lastScrollTime) > SCROLL_DELAY_MS {
        scrollOffset := scrollOffset + 1;
        if scrollOffset > lineCount - PAGE {
          scrollOffset := 0;
        }
        needsRedraw := true;
        lastScrollTime := currentTime;
      }
    }

    /** `scrollUp`: one row up, never above the top. */
    method ScrollUp()
      requires Valid()
      modifies this
      ensures Valid() && attached == old(attached) && lineCount == old(lineCount)
      ensures scrollOffset == Max(old(scrollOffset) - 1, 0)
      ensures needsRedraw == (old(needsRedraw) || old(scrollOffset) > 0)
      ensures lastScrollTime == old(lastScrollTime) && autoScrollEnabled == old(autoScrollEnabled)
    {
      if scrollOffset > 0 {
        scrollOffset := scrollOffset - 1;
        needsRedraw := true;
      }
    }

    /** `scrollDown`: one row down, never past the last page. */
    method ScrollDown()
      requires Valid()
      modifies this
      ensures Valid() && attached == old(attached) && lineCount == old(lineCount)
      ensures old(scrollOffset) < lineCount - PAGE ==> scrollOffset == old(scrollOffset) + 1 && needsRedraw
      ensures old(scrollOffset) >= lineCount - PAGE ==> scrollOffset == old(scrollOffset) && needsRedraw == old(needsRedraw)
      ensures lastScrollTime == old(lastScrollTime) && autoScrollEnabled == old(autoScrollEnabled)
    {
      if scrollOffset < lineCount - PAGE {
        scrollOffset := scrollOffset + 1;
        needsRedraw := true;
      }
    }

    /** `scrollToTop`. */
    method ScrollToTop()
      requires Valid()
      modifies this
      ensures Valid() && scrollOffset == 0 && needsRedraw
      ensures attached == old(attached) && lineCount == old(lineCount)
      ensures lastScrollTime == old(lastScrollTime) && autoScrollEnabled == old(autoScrollEnabled)
    {
      scrollOffset := 0;
      needsRedraw := true;
    }

    /** `scrollToBottom`: to the last page, when there is more than one page. */
    method ScrollToBottom()
      requires Valid()
      modifies this
      ensures Valid() && attached == old(attached) && lineCount == old(lineCount)
      ensures lineCount > PAGE ==> scrollOffset == lineCount - PAGE && needsRedraw
      ensures lineCount <= PAGE ==> scrollOffset == old(scrollOffset) && needsRedraw == old(needsRedraw)
      ensures lastScrollTime == old(lastScrollTime) && autoScrollEnabled == old(autoScrollEnabled)
    {
      if lineCount > PAGE {
        scrollOffset := lineCount - PAGE;
        needsRedraw := true;
      }
    }

    /** `setAutoScroll`. */
    method SetAutoScroll(enabled: bool)
      requires Valid()
      modifies this
      ensures Valid() && autoScrollEnabled == enabled
      ensures attached == old(attached) && lineCount == old(lineCount) && scrollOffset == old(scrollOffset)
      ensures needsRedraw == old(needsRedraw) && lastScrollTime == old(lastScrollTime)
    {
      autoScrollEnabled := enabled;
    }
  }
}

/**
 * The loop sampler's text log view: twenty character rows of 42
 * characters and a NUL, a line count, a scroll offset, a dirty flag that
 * asks for a redraw, and the auto-scroll switch and timestamp. Drawing
 * with u8g2 is outside the model; a redraw returns the rows it would draw.
 */
module DisplayViews {
  import opened IntArith
  import opened Wrappers
  import opened CStrings
  import opened LineLog

  /** `MAX_LINE_CHARS`: a row holds this many characters and its NUL. */
  const MAX_LINE_CHARS: nat := 42
  /** `SCROLL_DELAY_MS`. */
  const SCROLL_DELAY_MS: int := 500

  /** The file's static state, `s_lines` to `s_last_scroll`. */
  class LogView {
    /** `s_lines`, each row read as the C string it holds. */
    const lines: array<string>
    var lineCount: int
    var scrollOffset: int
    var dirty: bool
    var autoScroll: bool
    var lastScroll: int

    ghost predicate Valid()
      reads this, lines
    {
      LinesOk(lines[..], lineCount) && OffsetOk(lineCount, scrollOffset) && IsU32(lastScroll)
      && forall i :: 0 <= i < MAX_LINES ==> |lines[i]| <= MAX_LINE_CHARS
    }

    /** The static initialisers: empty rows, at the top, dirty, auto-scrolling. */
    constructor()
      ensures Valid() && fresh(lines) && lines[..] == Blank()
      ensures lineCount == 0 && scrollOffset == 0 && dirty && autoScroll && lastScroll == 0
    {
      lines := new string[MAX_LINES](_ => "");
      lineCount := 0;
      scrollOffset := 0;
      dirty := true;
      autoScroll := true;
      lastScroll := 0;
    }

    /** `view_clear_log`: every row emptied, at the top, dirty. */
    method ClearLog()
      requires Valid()
      modifies this, lines
      ensures Valid() && lines[..] == Blank() && lineCount == 0 && scrollOffset == 0 && dirty
      ensures autoScroll == old(autoScroll) && lastScroll == old(lastScroll)
    {
      for i := 0 to MAX_LINES
        modifies lines
        invariant forall k :: 0 <= k < i ==> lines[k] == ""
      {
        lines[i] := "";
      }
      assert lines[..] == Blank();
      lineCount := 0;
      scrollOffset := 0;
      dirty := true;
    }

    /**
     * `view_print_line`: nothing for a null pointer; otherwise the line,
     * cut to 42 characters, pushed onto the log, and the view dirty.
     */
    method PrintLine(s: Option<string>)
      requires Valid()
      modifies this, lines
      ensures Valid()
      ensures s.None? ==> lines[..] == old(lines[..]) && lineCount == old(lineCount) && dirty == old(dirty)
      ensures s.Some? ==>
        (lines[..], lineCount) == Push(old(lines[..]), old(lineCount), Truncated(s.value, MAX_LINE_CHARS)) && dirty
      ensures scrollOffset == old(scrollOffset) && autoScroll == old(autoScroll) && lastScroll == old(lastScroll)
    {
      if s.None? {
        return;
      }
      var row := Truncated(s.value, MAX_LINE_CHARS);
      PushAppends(lines[..], lineCount, row);
      if lineCount < MAX_LINES {
        var idx := lineCount;
        lineCount := lineCount + 1;
        lines[idx] := row;
      } else {
        ShiftUp();
        lines[MAX_LINES - 1] := row;
        assert lines[..] == old(lines[..])[1..] + [row];
      }
      dirty := true;
    }

    /** The `memcpy` loop: each row copied over the one above it, so the last one is left as it was. */
    method ShiftUp()
      requires lines.Length == MAX_LINES
      modifies lines
      ensures lines[..] == old(lines[..])[1..] + [old(lines[MAX_LINES - 1])]
    {
      for i := 1 to MAX_LINES
        invariant forall k :: 0 <= k < i - 1 ==> lines[k] == old(lines[k + 1])
        invariant forall k :: i - 1 <= k < MAX_LINES ==> lines[k] == old(lines[k])
      {
        lines[i - 1] := lines[i];
      }
      assert lines[..] == old(lines[..])[1..] + [old(lines[MAX_LINES - 1])];
    }

    /**
     * `view_redraw_log`: the rows from the offset, at most a screen of
     * them, in order; afterwards the view is clean.
     */
    method RedrawLog() returns (shown: seq<string>)
      requires Valid()
      modifies this
      ensures Valid() && shown == Window(lines[..], lineCount, scrollOffset) && !dirty
      ensures lineCount == old(lineCount) && scrollOffset == old(scrollOffset)
      ensures autoScroll == old(autoScroll) && lastScroll == old(lastScroll)
    {
      var start := scrollOffset;
      var end := if start + PAGE <= lineCount then start + PAGE else lineCount;
      shown := [];
      for i := start to end
        invariant shown == lines[start..i]
      {
        shown := shown + [lines[i]];
      }
      dirty := false;
    }

    /** `view_set_auto_scroll`. */
    method SetAutoScroll(enabled: bool)
      requires Valid()
      modifies this
      ensures Valid() && autoScroll == enabled
      ensures lineCount == old(lineCount) && scrollOffset == old(scrollOffset)
      ensures dirty == old(dirty) && lastScroll == old(lastScroll)
    {
      autoScroll := enabled;
    }

    /**
     * `view_handle_scroll`: with auto-scroll on and at least 500 ms
     * (uint32, wrapping) since the last tick, the tick is taken, and the
     * page moves down one row while a whole page still lies below it.
     */
    method HandleScroll(now: int)
      requires Valid() && IsU32(now)
      modifies this
      ensures Valid() && lineCount == old(lineCount) && autoScroll == old(autoScroll)
      ensures !old(autoScroll) || Since(now, old(lastScroll)) < SCROLL_DELAY_MS ==>
        scrollOffset == old(scrollOffset) && dirty == old(dirty) && lastScroll == old(lastScroll)
      ensures old(autoScroll) && Since(now, old(lastScroll)) >= SCROLL_DELAY_MS ==>
        lastScroll == now
        && (if lineCount > PAGE && old(scrollOffset) + PAGE < lineCount
            then scrollOffset == old(scrollOffset) + 1 && dirty
            else scrollOffset == old(scrollOffset) && dirty == old(dirty))
    {
      if autoScroll {
        if Since(now, lastScroll) < SCROLL_DELAY_MS {
          return;
        }
        lastScroll := now;
        if lineCount > PAGE {
          if scrollOffset + PAGE < lineCount {
            scrollOffset := scrollOffset + 1;
            dirty := true;
          }
        }
      }
    }

    /** `view_needs_redraw`. */
    function NeedsRedraw(): bool
      reads this
    {
      dirty
    }

    /** `view_flush_if_dirty`: a redraw only when the view is dirty. */
    method FlushIfDirty() returns (shown: Option<seq<string>>)
      requires Valid()
      modifies this
      ensures Valid() && !dirty
      ensures old(dirty) <==> shown.Some?
      ensures shown.Some? ==> shown.value == Window(lines[..], lineCount, scrollOffset)
      ensures lineCount == old(lineCount) && scrollOffset == old(scrollOffset)
      ensures autoScroll == old(autoScroll) && lastScroll == old(lastScroll)
    {
      if !dirty {
        return None;
      }
      var rows := RedrawLog();
      shown := Some(rows);
    }

    /**
     * `view_show_status`: the title and the second line, each only if
     * present, drawn over the log; the view counts as clean, so the log
     * is not redrawn over the card until it changes.
     */
    method ShowStatus(title: Option<string>, line2: Option<string>) returns (drawn: seq<string>)
      requires Valid()
      modifies this
      ensures Valid() && !dirty
      ensures drawn == (if title.Some? then [CStr(title.value)] else []) + (if line2.Some? then [CStr(line2.value)] else [])
      ensures lineCount == old(lineCount) && scrollOffset == old(scrollOffset)
      ensures autoScroll == old(autoScroll) && lastScroll == old(lastScroll)
    {
      drawn := [];
      if title.Some? {
        drawn := drawn + [CStr(title.value)];
      }
      if line2.Some? {
        drawn := drawn + [CStr(line2.value)];
      }
      dirty := false;
    }
  }
}

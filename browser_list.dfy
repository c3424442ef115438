/**
 * What the two loop-sampler file browsers share: the calls they make on
 * the text log view, the selection clamp that keeps the selected file on
 * the page, and the rows of the paged list. Each front end fixes its own
 * page height for the clamp and its own footer buffer; the rows are
 * formatted the same way by both.
 */
module BrowserList {
  import opened IntArith
  import opened Wrappers
  import opened CStrings
  import opened StorageLoader
  import opened LineLog
  import UiWaveform

  /**
   * One call on the text log view (`view_set_auto_scroll`,
   * `view_clear_log`, `view_print_line`, `view_flush_if_dirty`), a call of
   * the application's loader with a path, or a `delay` of some milliseconds.
   * A browser operation returns the calls it makes, in order.
   */
  datatype ViewCall = SetAutoScroll(on: bool) | ClearLog | PrintLine(text: string) | Flush
                    | Load(path: string) | Pause(ms: int)

  /**
   * A sample as the loader leaves it: int16 values, at least `n` of them,
   * and `n` a uint32 small enough that `n` int16 values fit a 32-bit
   * address space.
   */
  predicate AudioOk(audio: Option<seq<int>>, n: int)
  {
    0 <= n < TWO31 && (audio.Some? ==> UiWaveform.SamplesOk(audio.value) && n <= |audio.value|)
  }

  /** `line[64]`: a list row holds this many characters and its NUL. */
  const LINE_CHARS: nat := 63
  /** `sizeStr[16]`. */
  const SIZE_CHARS: nat := 15

  /** The shown status line: cleared log, the message, flushed (`render_status_line`). */
  function StatusLine(msg: string): seq<ViewCall>
  {
    [ClearLog, PrintLine(msg), Flush]
  }

  /**
   * A load as both front ends show it: the log cleared, `"Loading: %s"`
   * in a 64-byte line, the loader called with the path, and the outcome.
   */
  function LoadCalls(path: string, ok: bool): seq<ViewCall>
  {
    [ClearLog, PrintLine(Clipped("Loading: " + CStr(path), LINE_CHARS)), Flush, Load(path),
     PrintLine(if ok then "\U{2713} Loaded" else "\U{2717} Load failed"), Flush]
  }

  /**
   * The selection invariant for a page of `visible` rows: with no files
   * the selection and the top are 0; otherwise the selection is a file and
   * lies on the page starting at the top.
   */
  predicate PageOk(count: int, sel: int, top: int, visible: int)
  {
    if count <= 0 then sel == 0 && top == 0 else 0 <= top <= sel < top + visible && sel < count
  }

  /**
   * A turn of `inc` detents over a non-empty list: the selection moves by
   * `inc`, clamped to the list; only when it moved is the top pulled up
   * to it or down so that it is the last row of the page.
   */
  function Select(count: int, sel: int, top: int, inc: int, visible: int): (r: (int, int))
    requires count > 0 && visible >= 1 && PageOk(count, sel, top, visible)
    ensures PageOk(count, r.0, r.1, visible)
    ensures r.0 == Clamp(sel + inc, 0, count - 1)
  {
    var next := if sel + inc < 0 then 0 else if sel + inc >= count then count - 1 else sel + inc;
    if next == sel then (sel, top)
    else
      var t := if next < top then next else top;
      (next, if next >= t + visible then next - (visible - 1) else t)
  }

  /**
   * The page moves as little as it can: no other top that keeps the new
   * selection on the page lies closer to the old top.
   */
  lemma SelectScrollsLeast(count: int, sel: int, top: int, inc: int, visible: int, other: int)
    requires count > 0 && visible >= 1 && PageOk(count, sel, top, visible)
    requires PageOk(count, Select(count, sel, top, inc, visible).0, other, visible)
    ensures Abs(Select(count, sel, top, inc, visible).1 - top) <= Abs(other - top)
  {
  }

  /** Where the list on the screen stops: seven rows from the top, or the end of the list, whichever comes first. */
  function PageEnd(count: int, top: int): (e: int)
    ensures e <= count && e <= top + PAGE
    ensures e == count || e == top + PAGE
  {
    if top + PAGE <= count then top + PAGE else count
  }

  /**
   * `"%c %s (%s)"` in a 64-byte line: the marker, a space, the name, and
   * the size text in parentheses, cut to 63 characters.
   */
  function Row(name: string, size: string, selected: bool): string
  {
    Clipped([if selected then '>' else ' ', ' '] + CStr(name) + " (" + Truncated(size, SIZE_CHARS) + ")", LINE_CHARS)
  }

  /**
   * A row fits its line, starts with the marker and a space, and then
   * shows the name, or as much of it as fits.
   */
  lemma RowShows(name: string, size: string, selected: bool)
    ensures var r := Row(name, size, selected);
      NUL !in r && 2 <= |r| <= LINE_CHARS
      && r[0] == (if selected then '>' else ' ') && r[1] == ' '
      && var shown := Min(|CStr(name)|, LINE_CHARS - 2);
         2 + shown <= |r| && r[2..2 + shown] == CStr(name)[..shown]
  {
    var m := if selected then '>' else ' ';
    var nm := CStr(name);
    var t := Truncated(size, SIZE_CHARS);
    var text := [m, ' '] + nm + " (" + t + ")";
    assert NUL !in text;
    var r := Clipped(text, LINE_CHARS);
    assert forall i :: 0 <= i < |r| ==> r[i] == text[i];
    assert forall i :: 0 <= i < |nm| ==> text[2 + i] == nm[i];
    var shown := Min(|nm|, LINE_CHARS - 2);
    assert r[2..2 + shown] == nm[..shown];
  }

  /** The row of file `i`, its size written by `sizeText` (`sd_format_size`). */
  function FileRow(idx: FileIndex, i: int, sel: int, sizeText: int -> string): string
    requires |idx.names| == |idx.sizes| && 0 <= i < idx.Count()
  {
    Row(idx.names[i], sizeText(idx.sizes[i]), i == sel)
  }

  /** The rows of files `top` up to `end`, printed in order. */
  function RowCalls(idx: FileIndex, top: int, end: int, sel: int, sizeText: int -> string): (r: seq<ViewCall>)
    requires |idx.names| == |idx.sizes| && 0 <= top <= end <= idx.Count()
    ensures |r| == end - top
    decreases end - top
  {
    if end == top then []
    else RowCalls(idx, top, end - 1, sel, sizeText) + [PrintLine(FileRow(idx, end - 1, sel, sizeText))]
  }

  /** The row loop of both `browser_render_sample_list`s: one line per file from `top` up to `end`. */
  method PrintRows(idx: FileIndex, top: int, end: int, sel: int, sizeText: int -> string) returns (calls: seq<ViewCall>)
    requires |idx.names| == |idx.sizes| && 0 <= top <= end <= idx.Count()
    ensures calls == RowCalls(idx, top, end, sel, sizeText)
  {
    calls := [];
    for i := top to end
      invariant calls == RowCalls(idx, top, i, sel, sizeText)
    {
      calls := calls + [PrintLine(Row(idx.names[i], sizeText(idx.sizes[i]), i == sel))];
    }
  }

  /** The `k`-th printed row is file `top + k`. */
  lemma {:induction false} RowCallsAt(idx: FileIndex, top: int, end: int, sel: int, sizeText: int -> string, k: int)
    requires |idx.names| == |idx.sizes| && 0 <= top <= end <= idx.Count() && 0 <= k < end - top
    ensures RowCalls(idx, top, end, sel, sizeText)[k] == PrintLine(FileRow(idx, top + k, sel, sizeText))
    decreases end - top
  {
    if k < end - 1 - top {
      RowCallsAt(idx, top, end - 1, sel, sizeText, k);
    }
  }

  /**
   * With the selection invariant for a page of at most seven rows, the
   * list shows a full page or the rest of the list, file by file from the
   * top, and exactly one row carries the marker: the selected file's.
   */
  lemma ListShowsSelection(idx: FileIndex, top: int, sel: int, visible: int, sizeText: int -> string)
    requires |idx.names| == |idx.sizes| && idx.Count() > 0 && 1 <= visible <= PAGE
    requires PageOk(idx.Count(), sel, top, visible)
    ensures var rows := RowCalls(idx, top, PageEnd(idx.Count(), top), sel, sizeText);
      |rows| == Min(PAGE, idx.Count() - top) && 0 <= sel - top < |rows|
      && forall k :: 0 <= k < |rows| ==>
           rows[k] == PrintLine(FileRow(idx, top + k, sel, sizeText))
           && (rows[k].text[0] == '>' <==> top + k == sel)
  {
    var rows := RowCalls(idx, top, PageEnd(idx.Count(), top), sel, sizeText);
    forall k | 0 <= k < |rows|
      ensures rows[k] == PrintLine(FileRow(idx, top + k, sel, sizeText))
      ensures rows[k].text[0] == '>' <==> top + k == sel
    {
      RowCallsAt(idx, top, PageEnd(idx.Count(), top), sel, sizeText, k);
      RowShows(idx.names[top + k], sizeText(idx.sizes[top + k]), top + k == sel);
    }
  }

  /** An element of the middle part of `head + body + tail`. */
  lemma FramedAt<T>(head: seq<T>, body: seq<T>, tail: seq<T>, k: int)
    requires 0 <= k < |body|
    ensures (head + body + tail)[|head| + k] == body[k]
  {
  }

  /** `"%d/%d"` in a buffer of `cap` characters and a NUL: the selection's position, from one. */
  function Footer(sel: int, count: int, cap: nat): string
  {
    Clipped(FormatInt(sel + 1) + "/" + FormatInt(count), cap)
  }

  /**
   * The footer fits its buffer, and whenever the two numbers do it is
   * the selection's position, a slash and the count, which read back.
   */
  lemma FooterReadsBack(sel: int, count: int, cap: nat)
    requires sel >= 0 && count >= 0
    ensures var r := Footer(sel, count, cap);
      |r| <= cap && NUL !in r
      && (|FormatInt(sel + 1)| + 1 + |FormatInt(count)| <= cap ==>
            r == FormatInt(sel + 1) + "/" + FormatInt(count)
            && DigitsValue(r[..|FormatInt(sel + 1)|]) == sel + 1
            && DigitsValue(r[|FormatInt(sel + 1)| + 1..]) == count)
  {
    var a, b := FormatInt(sel + 1), FormatInt(count);
    var text := a + "/" + b;
    assert NUL !in text;
    if |a| + 1 + |b| <= cap {
      assert text[..|a|] == a && text[|a| + 1..] == b;
      FormatIntRoundTrip(sel + 1, sel + 1);
      FormatIntRoundTrip(count, count);
    }
  }
}

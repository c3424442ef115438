/**
 * The loop sampler's single-file display front end: a file browser over
 * the card's index and a waveform view, run as a four-state machine.
 * A button press in the browser captures the selected file and moves to
 * LOADING; the next tick loads it and, when a sample arrived, waits a
 * second in DELAY before drawing it; any input in the waveform view goes
 * back to the browser. The text log calls are returned as a trace; the
 * loader's result, the loaded sample, the clock and the card's directory
 * are parameters.
 */
module UiDisplay {
  import opened IntArith
  import opened Wrappers
  import opened CStrings
  import opened StorageLoader
  import opened LineLog
  import opened BrowserList
  import opened Gray4
  import UiWaveform

  /** `DisplayState`. */
  datatype DisplayState = Browser | Loading | DelayToWaveform | Waveform

  /** `visible`: the page height the selection is kept within. */
  const VISIBLE: int := 7
  /** `title[40]` and `footer[16]`. */
  const TITLE_CHARS: nat := 39
  const FOOTER_CHARS: nat := 15
  /** Milliseconds between the load and the waveform. */
  const DELAY_MS: int := 1000
  /** The strided peak scan looks at about this many samples. */
  const SCAN_SAMPLES: int := 4096
  /** The least vertical scale. */
  const MIN_PEAK: int := 128

  /**
   * `"Files on SD (%d)"` in a 40-byte buffer: as much of the text as fits
   * beside the terminator, all of it when it does.
   */
  function Title(count: int): (t: string)
    ensures |t| <= TITLE_CHARS && NUL !in t
    ensures var full := "Files on SD (" + FormatInt(count) + ")";
      |t| <= |full| && t == full[..|t|] && (|full| <= TITLE_CHARS ==> t == full)
  {
    Clipped("Files on SD (" + FormatInt(count) + ")", TITLE_CHARS)
  }

  /** `browser_render_sample_list`: auto-scroll off, the title, the page of rows, the footer, a flush. */
  function Listing(idx: FileIndex, top: int, sel: int, sizeText: int -> string): seq<ViewCall>
    requires |idx.names| == |idx.sizes| && PageOk(idx.Count(), sel, top, VISIBLE)
  {
    [SetAutoScroll(false), ClearLog, PrintLine(Title(idx.Count()))]
    + RowCalls(idx, top, PageEnd(idx.Count(), top), sel, sizeText)
    + [PrintLine(Footer(sel, idx.Count(), FOOTER_CHARS)), Flush]
  }

  /**
   * The listing stops auto-scrolling, clears the log and prints the
   * title, one row per file on the page, and then the footer, and
   * flushes; an empty index shows the title and the footer only.
   */
  lemma ListingShape(idx: FileIndex, top: int, sel: int, sizeText: int -> string)
    requires |idx.names| == |idx.sizes| && PageOk(idx.Count(), sel, top, VISIBLE)
    ensures var r := Listing(idx, top, sel, sizeText);
      |r| == (if idx.Count() == 0 then 0 else Min(PAGE, idx.Count() - top)) + 5
      && r[..3] == [SetAutoScroll(false), ClearLog, PrintLine(Title(idx.Count()))]
      && r[|r| - 2] == PrintLine(Footer(sel, idx.Count(), FOOTER_CHARS)) && r[|r| - 1] == Flush
  {
    var head := [SetAutoScroll(false), ClearLog, PrintLine(Title(idx.Count()))];
    var rows := RowCalls(idx, top, PageEnd(idx.Count(), top), sel, sizeText);
    var tail := [PrintLine(Footer(sel, idx.Count(), FOOTER_CHARS)), Flush];
    assert (head + rows + tail)[..3] == head;
    if idx.Count() > 0 {
      ListShowsSelection(idx, top, sel, VISIBLE, sizeText);
    }
  }

  /** Between the header lines and the footer, row k shows file top + k, marked exactly when selected. */
  lemma ListingRows(idx: FileIndex, top: int, sel: int, sizeText: int -> string)
    requires |idx.names| == |idx.sizes| && idx.Count() > 0 && PageOk(idx.Count(), sel, top, VISIBLE)
    ensures var r := Listing(idx, top, sel, sizeText);
      forall k :: 3 <= k < |r| - 2 ==>
        r[k] == PrintLine(FileRow(idx, top + k - 3, sel, sizeText))
        && (r[k].text[0] == '>' <==> top + k - 3 == sel)
  {
    var head := [SetAutoScroll(false), ClearLog, PrintLine(Title(idx.Count()))];
    var rows := RowCalls(idx, top, PageEnd(idx.Count(), top), sel, sizeText);
    var tail := [PrintLine(Footer(sel, idx.Count(), FOOTER_CHARS)), Flush];
    var r := head + rows + tail;
    assert Listing(idx, top, sel, sizeText) == r;
    ListShowsSelection(idx, top, sel, VISIBLE, sizeText);
    forall k | 3 <= k < |r| - 2
      ensures r[k] == rows[k - 3]
    {
      FramedAt(head, rows, tail, k - 3);
    }
  }


  /** `(int16_t)-v` for a negative sample, else the sample: the magnitude, with -32768 staying negative. */
  function Magnitude(v: int): (r: int)
    requires IsI16(v)
    ensures IsI16(r) && (v > -TWO15 ==> r == Abs(v)) && (v == -TWO15 ==> r == v)
  {
    if v < 0 then I16(-v) else v
  }

  /** `step`: every sample for up to 4096 of them, else every `n / 4096`-th. */
  function Stride(n: int): (r: int)
    requires 0 <= n
    ensures r >= 1 && (n <= SCAN_SAMPLES ==> r == 1)
  {
    if n > SCAN_SAMPLES then n / SCAN_SAMPLES else 1
  }

  /** The greatest magnitude at `i`, `i + step`, … below `n`, and 1 when there are none. */
  function ScanFrom(s: seq<int>, n: int, step: int, i: int): (r: int)
    requires UiWaveform.SamplesOk(s) && 0 <= n <= |s| && step >= 1 && 0 <= i
    ensures 1 <= r < TWO15
    decreases n - i
  {
    if i >= n then 1 else Max(Magnitude(s[i]), ScanFrom(s, n, step, i + step))
  }

  /** The vertical scale `waveform_draw` finds: the scan's greatest magnitude, but at least 128. */
  function ScanPeak(s: seq<int>, n: int): (r: int)
    requires UiWaveform.SamplesOk(s) && 0 <= n <= |s|
    ensures MIN_PEAK <= r < TWO15
  {
    Max(MIN_PEAK, ScanFrom(s, n, Stride(n), 0))
  }

  /** Every sample the scan visits, other than -32768, lies within what it returns. */
  lemma {:induction false} ScanFromCovers(s: seq<int>, n: int, step: int, i: int, m: nat)
    requires UiWaveform.SamplesOk(s) && 0 <= n <= |s| && step >= 1 && 0 <= i && i + m * step < n
    ensures Magnitude(s[i + m * step]) <= ScanFrom(s, n, step, i)
    decreases m
  {
    if m > 0 {
      assert i + m * step == (i + step) + (m - 1) * step;
      ScanFromCovers(s, n, step, i + step, m - 1);
    }
  }

  /** What the scan returns is 1 or the magnitude of a sample it visits. */
  lemma {:induction false} ScanFromAttained(s: seq<int>, n: int, step: int, i: int)
    requires UiWaveform.SamplesOk(s) && 0 <= n <= |s| && step >= 1 && 0 <= i
    ensures ScanFrom(s, n, step, i) == 1
      || exists j :: i <= j < n && (j - i) % step == 0 && ScanFrom(s, n, step, i) == Magnitude(s[j])
    decreases n - i
  {
    if i < n {
      ScanFromAttained(s, n, step, i + step);
      if ScanFrom(s, n, step, i) != Magnitude(s[i]) && ScanFrom(s, n, step, i) != 1 {
        var j :| i + step <= j < n && (j - (i + step)) % step == 0 && ScanFrom(s, n, step, i + step) == Magnitude(s[j]);
        assert (j - i) % step == 0 by {
          DivModUnique(j - i, step, (j - (i + step)) / step + 1, 0);
        }
      }
    }
  }

  /**
   * The scale lies within int16 and is at least 128; every `Stride(n)`-th
   * sample other than -32768 lies within it; and above 128 it is the
   * magnitude of one of them. For up to 4096 samples that is every sample.
   */
  lemma ScanPeakBounds(s: seq<int>, n: int, m: nat)
    requires UiWaveform.SamplesOk(s) && 0 <= n <= |s| && m * Stride(n) < n && s[m * Stride(n)] > -TWO15
    ensures Abs(s[m * Stride(n)]) <= ScanPeak(s, n)
    ensures ScanPeak(s, n) == MIN_PEAK
      || exists j :: 0 <= j < n && j % Stride(n) == 0 && ScanPeak(s, n) == Magnitude(s[j])
  {
    ScanFromCovers(s, n, Stride(n), 0, m);
    ScanFromAttained(s, n, Stride(n), 0);
  }

  /** The peak scan: every `step`-th sample's magnitude, the largest kept, at least 128. */
  method LightPeak(s: seq<int>, n: int) returns (peak: int)
    requires UiWaveform.SamplesOk(s) && 0 <= n <= |s| && n < TWO31
    ensures peak == ScanPeak(s, n)
  {
    var step := if n > SCAN_SAMPLES then n / SCAN_SAMPLES else 1;
    var maxabs := 1;
    var i := 0;
    while i < n
      invariant 0 <= i && 1 <= maxabs && Max(maxabs, ScanFrom(s, n, step, i)) == ScanFrom(s, n, step, 0)
      decreases n - i
    {
      var v := s[i];
      var a := if v < 0 then I16(-v) else v;
      if a > maxabs {
        maxabs := a;
      }
      i := i + step;
    }
    peak := if maxabs < MIN_PEAK then MIN_PEAK else maxabs;
  }

  /**
   * What this `waveform_draw` leaves in the buffer: black with the centre
   * line for a missing or empty sample, otherwise the envelope over all
   * 256 columns at the scanned scale.
   */
  function DisplayImage(samples: Option<seq<int>>, n: int): (r: seq<int>)
    requires AudioOk(samples, n)
    ensures BufferOk(r)
  {
    if samples.None? || n == 0
    then HLine(Cleared(UiWaveform.SHADE_BACKGROUND), 0, UiWaveform.W - 1, UiWaveform.MID, UiWaveform.SHADE_CENTERLINE)
    else UiWaveform.Envelope(Cleared(UiWaveform.SHADE_BACKGROUND), samples.value, n, ScanPeak(samples.value, n), UiWaveform.W)
  }

  /**
   * The drawn image, pixel by pixel: the centre row alone when there is
   * nothing to draw; otherwise in each column exactly the rows between the
   * column's top and bottom at the scanned scale.
   */
  lemma DisplayImagePixels(samples: Option<seq<int>>, n: int, x: int, y: int)
    requires AudioOk(samples, n) && OnScreen(x, y)
    ensures samples.None? || n == 0 ==>
      Pixel(DisplayImage(samples, n), x, y) == if y == UiWaveform.MID then UiWaveform.SHADE_CENTERLINE else UiWaveform.SHADE_BACKGROUND
    ensures samples.Some? && n > 0 ==>
      var c := UiWaveform.Column(samples.value, n, ScanPeak(samples.value, n), x);
      Pixel(DisplayImage(samples, n), x, y) == if c.0 <= y <= c.1 then UiWaveform.SHADE_WAVEFORM else UiWaveform.SHADE_BACKGROUND
  {
    if samples.None? || n == 0 {
      UiWaveform.CentreLinePixels(x, y);
    } else {
      UiWaveform.ScaleOrdersColumns(samples.value, n, ScanPeak(samples.value, n));
      UiWaveform.EnvelopePixels(samples.value, n, ScanPeak(samples.value, n), UiWaveform.W, x, y);
    }
  }

  /** The file's statics: the browser's index and page, the loader, the pending file, the sample, the state and the deadline. */
  class Screen {
    var idx: FileIndex
    var sel: int
    var top: int
    /** `s_load != 0`. */
    var hasLoader: bool
    var pendingIdx: int
    var samples: Option<seq<int>>
    var sampleCount: int
    var sampleRate: int
    var state: DisplayState
    var deadline: int
    /** `sd_format_size`, which is not part of this model. */
    const sizeText: int -> string

    /**
     * The machine's invariant: the index is well formed, the selection
     * is on the page, LOADING always has a loader and a file to load, and
     * the sample is well formed.
     */
    ghost predicate Valid()
      reads this
    {
      IndexOk(idx) && PageOk(idx.Count(), sel, top, VISIBLE)
      && (state == Loading ==> hasLoader && 0 <= pendingIdx < idx.Count())
      && AudioOk(samples, sampleCount) && IsU32(sampleRate) && IsU32(deadline)
    }

    /** The static initialisers: an empty index, no loader, no sample, in the browser. */
    constructor(sizeText: int -> string)
      ensures Valid() && this.sizeText == sizeText
      ensures idx == FileIndex([], []) && sel == 0 && top == 0 && !hasLoader && pendingIdx == -1
      ensures samples.None? && sampleCount == 0 && sampleRate == 0 && state == Browser && deadline == 0
    {
      idx := FileIndex([], []);
      sel := 0;
      top := 0;
      hasLoader := false;
      pendingIdx := -1;
      samples := None;
      sampleCount := 0;
      sampleRate := 0;
      state := Browser;
      deadline := 0;
      this.sizeText := sizeText;
    }

    /** `display_state`. */
    function CurrentState(): DisplayState
      reads this
    {
      state
    }

    /** `waveform_is_active`. */
    function WaveformIsActive(): bool
      reads this
    {
      state == Waveform
    }

    /** `browser_render_sample_list`. */
    method RenderSampleList() returns (calls: seq<ViewCall>)
      requires Valid()
      ensures calls == Listing(idx, top, sel, sizeText)
    {
      var end := if top + VISIBLE <= idx.Count() then top + VISIBLE else idx.Count();
      var rows := PrintRows(idx, top, end, sel, sizeText);
      calls := [SetAutoScroll(false), ClearLog, PrintLine(Title(idx.Count()))] + rows
        + [PrintLine(Footer(sel, idx.Count(), FOOTER_CHARS)), Flush];
    }

    /** `waveform_init`: the sample recorded, nothing else changed. */
    method WaveformInit(audio: Option<seq<int>>, count: int, rate: int)
      requires Valid() && AudioOk(audio, count) && IsU32(rate)
      modifies this
      ensures Valid() && samples == audio && sampleCount == count && sampleRate == rate
      ensures idx == old(idx) && sel == old(sel) && top == old(top) && hasLoader == old(hasLoader)
      ensures pendingIdx == old(pendingIdx) && state == old(state) && deadline == old(deadline)
    {
      samples := audio;
      sampleCount := count;
      sampleRate := rate;
    }

    /** `waveform_draw`: the buffer cleared and the sample drawn at the scanned scale. */
    method WaveformDraw(fb: Gray4Buffer)
      requires Valid() && fb.Valid()
      modifies fb.buffer
      ensures fb.Valid() && fb.buffer[..] == DisplayImage(samples, sampleCount)
    {
      fb.Clear(UiWaveform.SHADE_BACKGROUND);
      if samples.None? || sampleCount == 0 {
        fb.DrawHLine(0, UiWaveform.W - 1, UiWaveform.MID, UiWaveform.SHADE_CENTERLINE);
        return;
      }
      var peak := LightPeak(samples.value, sampleCount);
      UiWaveform.DrawColumns(fb, samples.value, sampleCount, peak);
    }

    /** `waveform_exit`: back in the browser, the list shown again. */
    method WaveformExit() returns (calls: seq<ViewCall>)
      requires Valid()
      modifies this
      ensures Valid() && state == Browser && calls == Listing(idx, top, sel, sizeText)
      ensures idx == old(idx) && sel == old(sel) && top == old(top) && hasLoader == old(hasLoader)
      ensures pendingIdx == old(pendingIdx) && deadline == old(deadline)
      ensures samples == old(samples) && sampleCount == old(sampleCount) && sampleRate == old(sampleRate)
    {
      state := Browser;
      calls := RenderSampleList();
    }

    /** `waveform_on_turn`: any turn leaves the view, reported as not handled. */
    method WaveformOnTurn(inc: int) returns (handled: bool, calls: seq<ViewCall>)
      requires Valid()
      modifies this
      ensures Valid() && !handled && state == Browser && calls == Listing(idx, top, sel, sizeText)
      ensures idx == old(idx) && sel == old(sel) && top == old(top) && hasLoader == old(hasLoader)
      ensures pendingIdx == old(pendingIdx) && deadline == old(deadline)
      ensures samples == old(samples) && sampleCount == old(sampleCount) && sampleRate == old(sampleRate)
    {
      calls := WaveformExit();
      handled := false;
    }

    /** `waveform_on_button`: a press leaves the view, reported as not handled. */
    method WaveformOnButton() returns (handled: bool, calls: seq<ViewCall>)
      requires Valid()
      modifies this
      ensures Valid() && !handled && state == Browser && calls == Listing(idx, top, sel, sizeText)
      ensures idx == old(idx) && sel == old(sel) && top == old(top) && hasLoader == old(hasLoader)
      ensures pendingIdx == old(pendingIdx) && deadline == old(deadline)
      ensures samples == old(samples) && sampleCount == old(sampleCount) && sampleRate == old(sampleRate)
    {
      calls := WaveformExit();
      handled := false;
    }

    /**
     * `browser_init`: the loader recorded, the page and the pending file
     * reset, the card scanned, and the browser shown; when the folder
     * cannot be opened the index is empty and only "SD scan failed" shows.
     */
    method BrowserInit(loader: bool, folder: Option<seq<DirEntry>>) returns (calls: seq<ViewCall>)
      requires Valid()
      modifies this
      ensures Valid() && hasLoader == loader && sel == 0 && top == 0 && pendingIdx == -1 && state == Browser
      ensures idx == if folder.Some? then Index(folder.value) else FileIndex([], [])
      ensures calls == if folder.None? then StatusLine("SD scan failed") else Listing(idx, 0, 0, sizeText)
      ensures samples == old(samples) && sampleCount == old(sampleCount) && sampleRate == old(sampleRate)
      ensures deadline == old(deadline)
    {
      var ok := Rescan(loader, folder);
      calls := ShowScan(ok);
    }

    /** The state `browser_init` sets before it draws: the loader, a reset page and the card's index. */
    method Rescan(loader: bool, folder: Option<seq<DirEntry>>) returns (ok: bool)
      requires Valid()
      modifies this
      ensures Valid() && hasLoader == loader && sel == 0 && top == 0 && pendingIdx == -1 && state == Browser
      ensures ok <==> folder.Some?
      ensures idx == if folder.Some? then Index(folder.value) else FileIndex([], [])
      ensures samples == old(samples) && sampleCount == old(sampleCount) && sampleRate == old(sampleRate)
      ensures deadline == old(deadline)
    {
      hasLoader := loader;
      sel := 0;
      top := 0;
      pendingIdx := -1;
      var scanned;
      ok, scanned := FileIndexScan(folder);
      idx := scanned;
      state := Browser;
    }

    /** The end of `browser_init`: the list after a scan, or "SD scan failed". */
    method ShowScan(ok: bool) returns (calls: seq<ViewCall>)
      requires Valid()
      ensures calls == if !ok then StatusLine("SD scan failed") else Listing(idx, top, sel, sizeText)
    {
      if ok {
        calls := RenderSampleList();
      } else {
        calls := StatusLine("SD scan failed");
      }
    }

    /**
     * `browser_on_turn`: in the waveform view a turn leaves it; in the
     * browser with files the selection moves by the turn, clamped, and the
     * list is shown again when it moved; with no files, and while loading
     * or waiting, nothing happens.
     */
    method BrowserOnTurn(inc: int) returns (calls: seq<ViewCall>)
      requires Valid() && IsI8(inc)
      modifies this
      ensures Valid() && idx == old(idx) && hasLoader == old(hasLoader) && pendingIdx == old(pendingIdx)
      ensures samples == old(samples) && sampleCount == old(sampleCount) && sampleRate == old(sampleRate)
      ensures deadline == old(deadline)
      ensures old(state) == Waveform ==>
        state == Browser && sel == old(sel) && top == old(top) && calls == Listing(idx, top, sel, sizeText)
      ensures old(state) == Browser && idx.Count() > 0 ==>
        state == Browser && (sel, top) == Select(idx.Count(), old(sel), old(top), inc, VISIBLE)
        && calls == if sel != old(sel) then Listing(idx, top, sel, sizeText) else []
      ensures (old(state) == Browser && idx.Count() == 0) || old(state) == Loading || old(state) == DelayToWaveform ==>
        state == old(state) && sel == old(sel) && top == old(top) && calls == []
    {
      calls := [];
      match state {
        case Waveform =>
          var _, exitCalls := WaveformOnTurn(inc);
          calls := exitCalls;
        case Browser =>
          if idx.Count() == 0 {
            return;
          }
          var moved := MoveSelection(inc);
          if moved {
            calls := RenderSampleList();
          }
        case Loading =>
        case DelayToWaveform =>
      }
    }

    /** The browser's turn over a non-empty list: the clamp and the page kept around the selection. */
    method MoveSelection(inc: int) returns (moved: bool)
      requires Valid() && state == Browser && idx.Count() > 0
      modifies this
      ensures Valid() && state == Browser && idx == old(idx) && hasLoader == old(hasLoader) && pendingIdx == old(pendingIdx)
      ensures samples == old(samples) && sampleCount == old(sampleCount) && sampleRate == old(sampleRate)
      ensures deadline == old(deadline)
      ensures (sel, top) == Select(idx.Count(), old(sel), old(top), inc, VISIBLE) && moved == (sel != old(sel))
    {
      var next := sel + inc;
      if next < 0 { next := 0; }
      if next >= idx.Count() { next := idx.Count() - 1; }
      moved := next != sel;
      if moved {
        sel := next;
        if sel < top { top := sel; }
        if sel >= top + VISIBLE { top := sel - (VISIBLE - 1); }
      }
    }

    /**
     * `browser_on_button`: in the waveform view a press leaves it; in the
     * browser, with files and a loader, the selected file is captured and
     * the machine moves to LOADING; otherwise nothing happens.
     */
    method BrowserOnButton() returns (calls: seq<ViewCall>)
      requires Valid()
      modifies this
      ensures Valid() && idx == old(idx) && sel == old(sel) && top == old(top) && hasLoader == old(hasLoader)
      ensures samples == old(samples) && sampleCount == old(sampleCount) && sampleRate == old(sampleRate)
      ensures deadline == old(deadline)
      ensures old(state) == Waveform ==>
        state == Browser && pendingIdx == old(pendingIdx) && calls == Listing(idx, top, sel, sizeText)
      ensures old(state) == Browser && idx.Count() > 0 && hasLoader ==>
        state == Loading && pendingIdx == sel && calls == []
      ensures (old(state) == Browser && (idx.Count() == 0 || !hasLoader)) || old(state) == Loading || old(state) == DelayToWaveform ==>
        state == old(state) && pendingIdx == old(pendingIdx) && calls == []
    {
      calls := [];
      match state {
        case Waveform =>
          var _, exitCalls := WaveformOnButton();
          calls := exitCalls;
        case Browser =>
          if idx.Count() == 0 || !hasLoader {
            return;
          }
          pendingIdx := sel;
          state := Loading;
        case Loading =>
        case DelayToWaveform =>
      }
    }

    /**
     * `browser_tick`. LOADING loads the pending file and always ends with
     * nothing pending: with a sample it waits in DELAY until a second
     * (uint32 milliseconds) from now, otherwise it pauses a second and
     * goes back to the browser. DELAY, once the deadline has come, draws
     * the sample and enters the waveform view, or goes back to the browser
     * when there is none. The waveform view is entered nowhere else.
     * (The source's reset for a LOADING state with no loader or an invalid
     * pending file is unreachable under `Valid`.)
     */
    method BrowserTick(now: int, loadOk: bool, audio: Option<seq<int>>, audioCount: int, rate: int, fb: Gray4Buffer)
      returns (calls: seq<ViewCall>)
      requires Valid() && fb.Valid() && IsU32(now) && AudioOk(audio, audioCount) && IsU32(rate)
      modifies this, fb.buffer
      ensures Valid() && fb.Valid()
      ensures idx == old(idx) && sel == old(sel) && top == old(top) && hasLoader == old(hasLoader)
      ensures old(state) == Loading ==>
        var path := idx.names[old(pendingIdx)];
        var success := loadOk && audio.Some? && audioCount > 0;
        pendingIdx == -1 && samples == old(samples) && sampleCount == old(sampleCount) && sampleRate == old(sampleRate)
        && fb.buffer[..] == old(fb.buffer[..])
        && (success ==> state == DelayToWaveform && deadline == U32(now + DELAY_MS)
                        && calls == [SetAutoScroll(true)] + LoadCalls(path, loadOk))
        && (!success ==> state == Browser && deadline == old(deadline)
                         && calls == [SetAutoScroll(true)] + LoadCalls(path, loadOk) + [Pause(DELAY_MS)] + Listing(idx, top, sel, sizeText))
      ensures old(state) == DelayToWaveform && now >= old(deadline) ==>
        pendingIdx == old(pendingIdx) && deadline == old(deadline)
        && (if audio.Some? && audioCount > 0
            then state == Waveform && samples == audio && sampleCount == audioCount && sampleRate == rate
                 && calls == [ClearLog, Flush] && fb.buffer[..] == DisplayImage(audio, audioCount)
            else state == Browser && samples == old(samples) && sampleCount == old(sampleCount)
                 && sampleRate == old(sampleRate) && fb.buffer[..] == old(fb.buffer[..])
                 && calls == [ClearLog, Flush] + Listing(idx, top, sel, sizeText))
      ensures (old(state) == DelayToWaveform && now < old(deadline)) || old(state) == Waveform || old(state) == Browser ==>
        unchanged(this) && fb.buffer[..] == old(fb.buffer[..]) && calls == []
      ensures state == Waveform ==> old(state) == Waveform || (old(state) == DelayToWaveform && now >= old(deadline))
    {
      calls := [];
      match state {
        case Loading =>
          calls := TickLoading(now, loadOk, audio, audioCount);
        case DelayToWaveform =>
          calls := TickDelay(now, audio, audioCount, rate, fb);
        case Waveform =>
        case Browser =>
      }
    }

    /** The LOADING tick. */
    method TickLoading(now: int, loadOk: bool, audio: Option<seq<int>>, audioCount: int) returns (calls: seq<ViewCall>)
      requires Valid() && state == Loading && IsU32(now) && AudioOk(audio, audioCount)
      modifies this
      ensures Valid() && idx == old(idx) && sel == old(sel) && top == old(top) && hasLoader == old(hasLoader)
      ensures pendingIdx == -1 && samples == old(samples) && sampleCount == old(sampleCount) && sampleRate == old(sampleRate)
      ensures var path := idx.names[old(pendingIdx)];
        if loadOk && audio.Some? && audioCount > 0
        then state == DelayToWaveform && deadline == U32(now + DELAY_MS)
             && calls == [SetAutoScroll(true)] + LoadCalls(path, loadOk)
        else state == Browser && deadline == old(deadline)
             && calls == [SetAutoScroll(true)] + LoadCalls(path, loadOk) + [Pause(DELAY_MS)] + Listing(idx, top, sel, sizeText)
    {
      if pendingIdx < 0 || pendingIdx >= idx.Count() || !hasLoader {
        assert false;
      }
      var path := idx.names[pendingIdx];
      calls := [SetAutoScroll(true)] + LoadCalls(path, loadOk);
      if loadOk && audio.Some? && audioCount > 0 {
        deadline := U32(now + DELAY_MS);
        state := DelayToWaveform;
      } else {
        state := Browser;
        var listing := RenderSampleList();
        calls := calls + [Pause(DELAY_MS)] + listing;
      }
      pendingIdx := -1;
    }

    /** The DELAY tick. */
    method TickDelay(now: int, audio: Option<seq<int>>, audioCount: int, rate: int, fb: Gray4Buffer) returns (calls: seq<ViewCall>)
      requires Valid() && fb.Valid() && state == DelayToWaveform && IsU32(now) && AudioOk(audio, audioCount) && IsU32(rate)
      modifies this, fb.buffer
      ensures Valid() && fb.Valid() && idx == old(idx) && sel == old(sel) && top == old(top) && hasLoader == old(hasLoader)
      ensures pendingIdx == old(pendingIdx) && deadline == old(deadline)
      ensures now < old(deadline) ==> unchanged(this) && fb.buffer[..] == old(fb.buffer[..]) && calls == []
      ensures now >= old(deadline) && audio.Some? && audioCount > 0 ==>
        state == Waveform && samples == audio && sampleCount == audioCount && sampleRate == rate
        && calls == [ClearLog, Flush] && fb.buffer[..] == DisplayImage(audio, audioCount)
      ensures now >= old(deadline) && !(audio.Some? && audioCount > 0) ==>
        state == Browser && samples == old(samples) && sampleCount == old(sampleCount)
        && sampleRate == old(sampleRate) && fb.buffer[..] == old(fb.buffer[..])
        && calls == [ClearLog, Flush] + Listing(idx, top, sel, sizeText)
    {
      calls := [];
      if now >= deadline {
        calls := [ClearLog, Flush];
        if audio.Some? && audioCount > 0 {
          WaveformInit(audio, audioCount, rate);
          WaveformDraw(fb);
          state := Waveform;
        } else {
          state := Browser;
          var listing := RenderSampleList();
          calls := calls + listing;
        }
      }
    }
  }
}

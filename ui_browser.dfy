/**
 * The loop sampler's file browser that works beside the separate
 * waveform view: a paged list of the card's WAV files, a button press
 * that only flags a load for the next tick, and a waveform shown a second
 * after a successful load. While the waveform view is active it takes the
 * encoder's input. The text log calls are returned as a trace; the
 * loader's result, the loaded sample, the clock and the card's directory
 * are parameters.
 */
module UiBrowser {
  import opened IntArith
  import opened Wrappers
  import opened CStrings
  import opened StorageLoader
  import opened LineLog
  import opened BrowserList
  import opened Gray4
  import UiWaveform

  /** `LINES_PER_SCREEN - 1`: the page height the selection is kept within. */
  const VISIBLE: int := PAGE - 1
  /** `footer[32]`. */
  const FOOTER_CHARS: nat := 31
  /** Milliseconds between the load and the waveform. */
  const DELAY_MS: int := 1000
  const HEADER: string := "=== WAV Files ==="
  const EMPTY_NOTICE: string := "No WAV files found"

  /**
   * `browser_render_sample_list`: auto-scroll off, the header, and either
   * the notice that there are no files or a page of rows and the footer;
   * then a flush.
   */
  function Listing(idx: FileIndex, top: int, sel: int, sizeText: int -> string): seq<ViewCall>
    requires |idx.names| == |idx.sizes| && PageOk(idx.Count(), sel, top, VISIBLE)
  {
    if idx.Count() == 0 then [SetAutoScroll(false), ClearLog, PrintLine(HEADER), PrintLine(EMPTY_NOTICE), Flush]
    else
      [SetAutoScroll(false), ClearLog, PrintLine(HEADER)]
      + RowCalls(idx, top, PageEnd(idx.Count(), top), sel, sizeText)
      + [PrintLine(Footer(sel, idx.Count(), FOOTER_CHARS)), Flush]
  }

  /**
   * With files, the listing shows the header, a page of up to seven rows
   * (one more than the selection window), and the footer.
   */
  lemma ListingShape(idx: FileIndex, top: int, sel: int, sizeText: int -> string)
    requires |idx.names| == |idx.sizes| && idx.Count() > 0 && PageOk(idx.Count(), sel, top, VISIBLE)
    ensures var r := Listing(idx, top, sel, sizeText);
      |r| == Min(PAGE, idx.Count() - top) + 5
      && r[..3] == [SetAutoScroll(false), ClearLog, PrintLine(HEADER)]
      && r[|r| - 2] == PrintLine(Footer(sel, idx.Count(), FOOTER_CHARS)) && r[|r| - 1] == Flush
  {
    var head := [SetAutoScroll(false), ClearLog, PrintLine(HEADER)];
    var rows := RowCalls(idx, top, PageEnd(idx.Count(), top), sel, sizeText);
    var tail := [PrintLine(Footer(sel, idx.Count(), FOOTER_CHARS)), Flush];
    assert (head + rows + tail)[..3] == head;
    if idx.Count() > 0 {
      ListShowsSelection(idx, top, sel, VISIBLE, sizeText);
    }
  }

  /** Between the header lines and the footer, row k shows file top + k, marked exactly when selected. */
  lemma ListingRows(idx: FileIndex, top: int, sel: int, sizeText: int -> string)
    requires |idx.names| == |idx.sizes| && idx.Count() > 0 && PageOk(idx.Count(), sel, top, VISIBLE)
    ensures var r := Listing(idx, top, sel, sizeText);
      forall k :: 3 <= k < |r| - 2 ==>
        r[k] == PrintLine(FileRow(idx, top + k - 3, sel, sizeText))
        && (r[k].text[0] == '>' <==> top + k - 3 == sel)
  {
    var head := [SetAutoScroll(false), ClearLog, PrintLine(HEADER)];
    var rows := RowCalls(idx, top, PageEnd(idx.Count(), top), sel, sizeText);
    var tail := [PrintLine(Footer(sel, idx.Count(), FOOTER_CHARS)), Flush];
    var r := head + rows + tail;
    assert Listing(idx, top, sel, sizeText) == r;
    ListShowsSelection(idx, top, sel, VISIBLE, sizeText);
    forall k | 3 <= k < |r| - 2
      ensures r[k] == rows[k - 3]
    {
      FramedAt(head, rows, tail, k - 3);
    }
  }


  /** The file's statics and the waveform view it hands input to. */
  class Browser {
    var idx: FileIndex
    var sel: int
    var top: int
    /** `s_load != 0`. */
    var hasLoader: bool
    var pendingLoad: bool
    var pendingIdx: int
    var pendingWaveform: bool
    var showTime: int
    /** The waveform view's statics. */
    const wave: UiWaveform.WaveformView
    /** `sd_format_size`, which is not part of this model. */
    const sizeText: int -> string

    /** The index is well formed, the selection is on its window, and the waveform view is sound. */
    ghost predicate Valid()
      reads this, wave
    {
      IndexOk(idx) && PageOk(idx.Count(), sel, top, VISIBLE) && IsU32(showTime) && wave.Valid()
    }

    /** The static initialisers: an empty index, no loader, nothing pending. */
    constructor(sizeText: int -> string)
      ensures Valid() && fresh(wave) && this.sizeText == sizeText
      ensures idx == FileIndex([], []) && sel == 0 && top == 0 && !hasLoader
      ensures !pendingLoad && pendingIdx == -1 && !pendingWaveform && showTime == 0 && !wave.active
    {
      idx := FileIndex([], []);
      sel := 0;
      top := 0;
      hasLoader := false;
      pendingLoad := false;
      pendingIdx := -1;
      pendingWaveform := false;
      showTime := 0;
      wave := new UiWaveform.WaveformView();
      this.sizeText := sizeText;
    }

    /** `browser_render_sample_list`. */
    method RenderSampleList() returns (calls: seq<ViewCall>)
      requires Valid()
      ensures calls == Listing(idx, top, sel, sizeText)
    {
      if idx.Count() == 0 {
        return [SetAutoScroll(false), ClearLog, PrintLine(HEADER), PrintLine(EMPTY_NOTICE), Flush];
      }
      var end := if top + PAGE <= idx.Count() then top + PAGE else idx.Count();
      var rows := PrintRows(idx, top, end, sel, sizeText);
      calls := [SetAutoScroll(false), ClearLog, PrintLine(HEADER)] + rows
        + [PrintLine(Footer(sel, idx.Count(), FOOTER_CHARS)), Flush];
    }

    /**
     * `browser_init`: the loader recorded, the page reset, the card
     * scanned, and the list shown; "SD scan failed" alone when the folder
     * cannot be opened. The deferred-load flags are left as they were.
     */
    method BrowserInit(loader: bool, folder: Option<seq<DirEntry>>) returns (calls: seq<ViewCall>)
      requires Valid()
      modifies this
      ensures Valid() && hasLoader == loader && sel == 0 && top == 0
      ensures idx == if folder.Some? then Index(folder.value) else FileIndex([], [])
      ensures calls == if folder.None? then StatusLine("SD scan failed") else Listing(idx, 0, 0, sizeText)
      ensures pendingLoad == old(pendingLoad) && pendingIdx == old(pendingIdx)
      ensures pendingWaveform == old(pendingWaveform) && showTime == old(showTime)
    {
      hasLoader := loader;
      sel := 0;
      top := 0;
      var ok, scanned := FileIndexScan(folder);
      idx := scanned;
      if !ok {
        calls := StatusLine("SD scan failed");
        return;
      }
      calls := RenderSampleList();
    }

    /** The clamp over a non-empty list and the page kept around the selection. */
    method MoveSelection(inc: int) returns (moved: bool)
      requires Valid() && idx.Count() > 0
      modifies this
      ensures Valid() && idx == old(idx) && hasLoader == old(hasLoader)
      ensures pendingLoad == old(pendingLoad) && pendingIdx == old(pendingIdx)
      ensures pendingWaveform == old(pendingWaveform) && showTime == old(showTime)
      ensures (sel, top) == Select(idx.Count(), old(sel), old(top), inc, VISIBLE) && moved == (sel != old(sel))
    {
      var next := sel + inc;
      if next < 0 { next := 0; }
      if next >= idx.Count() { next := idx.Count() - 1; }
      moved := next != sel;
      if moved {
        sel := next;
        if sel < top { top := sel; }
        if sel >= top + VISIBLE { top := sel - (VISIBLE - 1); }
      }
    }

    /**
     * `browser_on_turn`: while the waveform view is active the turn is
     * its own, the selection stays, and the list comes back only when the
     * view let go; otherwise, with files, the selection moves by the turn,
     * clamped, and the list is shown again when it moved.
     */
    method BrowserOnTurn(inc: int) returns (calls: seq<ViewCall>)
      requires Valid() && IsI8(inc)
      modifies this, wave
      ensures Valid() && idx == old(idx) && hasLoader == old(hasLoader)
      ensures pendingLoad == old(pendingLoad) && pendingIdx == old(pendingIdx)
      ensures pendingWaveform == old(pendingWaveform) && showTime == old(showTime)
      ensures wave.samples == old(wave.samples) && wave.sampleCount == old(wave.sampleCount)
      ensures wave.sampleRate == old(wave.sampleRate)
      ensures old(wave.active) ==>
        sel == old(sel) && top == old(top) && wave.active == (inc == 0)
        && calls == if inc == 0 then [] else Listing(idx, top, sel, sizeText)
      ensures !old(wave.active) && idx.Count() > 0 ==>
        !wave.active && (sel, top) == Select(idx.Count(), old(sel), old(top), inc, VISIBLE)
        && calls == if sel != old(sel) then Listing(idx, top, sel, sizeText) else []
      ensures !old(wave.active) && idx.Count() == 0 ==> !wave.active && sel == old(sel) && top == old(top) && calls == []
    {
      calls := [];
      if wave.IsActive() {
        var handled := wave.OnTurn(inc);
        if !handled {
          calls := RenderSampleList();
        }
        return;
      }
      if idx.Count() == 0 {
        return;
      }
      var moved := MoveSelection(inc);
      if moved {
        calls := RenderSampleList();
      }
    }

    /**
     * `browser_on_button`: while the waveform view is active the press
     * leaves it and the list comes back; otherwise, with files and a
     * loader, the selected file is flagged for loading; else nothing.
     */
    method BrowserOnButton() returns (calls: seq<ViewCall>)
      requires Valid()
      modifies this, wave
      ensures Valid() && idx == old(idx) && sel == old(sel) && top == old(top) && hasLoader == old(hasLoader)
      ensures pendingWaveform == old(pendingWaveform) && showTime == old(showTime) && !wave.active
      ensures wave.samples == old(wave.samples) && wave.sampleCount == old(wave.sampleCount)
      ensures wave.sampleRate == old(wave.sampleRate)
      ensures old(wave.active) ==>
        pendingLoad == old(pendingLoad) && pendingIdx == old(pendingIdx) && calls == Listing(idx, top, sel, sizeText)
      ensures !old(wave.active) && idx.Count() > 0 && hasLoader ==> pendingLoad && pendingIdx == sel && calls == []
      ensures !old(wave.active) && (idx.Count() == 0 || !hasLoader) ==>
        pendingLoad == old(pendingLoad) && pendingIdx == old(pendingIdx) && calls == []
    {
      calls := [];
      if wave.IsActive() {
        var _ := wave.OnButton();
        calls := RenderSampleList();
        return;
      }
      if idx.Count() == 0 || !hasLoader {
        return;
      }
      pendingIdx := sel;
      pendingLoad := true;
    }

    /**
     * `browser_tick`. A pending waveform comes first: until its time
     * (uint32 milliseconds) nothing happens, and then its flag is cleared
     * and the sample, if there is one, drawn. Otherwise a flagged load is
     * consumed: the flag cleared and the index reset to -1, an index off
     * the list ignored, and the file loaded; a load with a sample
     * schedules the waveform a second from now, a failed one pauses a
     * second and shows the list again.
     */
    method BrowserTick(now: int, loadOk: bool, audio: Option<seq<int>>, audioCount: int, rate: int, fb: Gray4Buffer)
      returns (calls: seq<ViewCall>)
      requires Valid() && fb.Valid() && IsU32(now) && AudioOk(audio, audioCount) && IsU32(rate)
      modifies this, wave, fb.buffer
      ensures Valid() && fb.Valid()
      ensures idx == old(idx) && sel == old(sel) && top == old(top) && hasLoader == old(hasLoader)
      ensures old(pendingWaveform) && now < old(showTime) ==>
        unchanged(this) && unchanged(wave) && fb.buffer[..] == old(fb.buffer[..]) && calls == []
      ensures old(pendingWaveform) && now >= old(showTime) ==>
        !pendingWaveform && showTime == old(showTime) && pendingLoad == old(pendingLoad) && pendingIdx == old(pendingIdx)
        && if audio.Some? && audioCount > 0
           then calls == [ClearLog, Flush] && wave.active && wave.samples == audio && wave.sampleCount == audioCount
                && wave.sampleRate == rate && fb.buffer[..] == UiWaveform.Image(audio, audioCount)
           else calls == [] && unchanged(wave) && fb.buffer[..] == old(fb.buffer[..])
      ensures !old(pendingWaveform) && !old(pendingLoad) ==>
        unchanged(this) && unchanged(wave) && fb.buffer[..] == old(fb.buffer[..]) && calls == []
      ensures !old(pendingWaveform) && old(pendingLoad) ==>
        !pendingLoad && pendingIdx == -1 && unchanged(wave) && fb.buffer[..] == old(fb.buffer[..])
        && if !(0 <= old(pendingIdx) < idx.Count())
           then calls == [SetAutoScroll(true)] && !pendingWaveform && showTime == old(showTime)
           else
             var load := [SetAutoScroll(true)] + LoadCalls(idx.names[old(pendingIdx)], loadOk);
             if loadOk && audio.Some? && audioCount > 0
             then pendingWaveform && showTime == U32(now + DELAY_MS) && calls == load
             else !pendingWaveform && showTime == old(showTime)
                  && calls == if loadOk then load else load + [Pause(DELAY_MS)] + Listing(idx, top, sel, sizeText)
    {
      calls := [];
      if pendingWaveform {
        calls := ShowPendingWaveform(now, audio, audioCount, rate, fb);
        return;
      }
      if !pendingLoad {
        return;
      }
      calls := ConsumeLoad(now, loadOk, audio, audioCount);
    }

    /** The pending waveform's branch of `browser_tick`. */
    method ShowPendingWaveform(now: int, audio: Option<seq<int>>, audioCount: int, rate: int, fb: Gray4Buffer)
      returns (calls: seq<ViewCall>)
      requires Valid() && fb.Valid() && pendingWaveform && IsU32(now) && AudioOk(audio, audioCount) && IsU32(rate)
      modifies this, wave, fb.buffer
      ensures Valid() && fb.Valid()
      ensures idx == old(idx) && sel == old(sel) && top == old(top) && hasLoader == old(hasLoader)
      ensures pendingLoad == old(pendingLoad) && pendingIdx == old(pendingIdx) && showTime == old(showTime)
      ensures now < old(showTime) ==>
        unchanged(this) && unchanged(wave) && fb.buffer[..] == old(fb.buffer[..]) && calls == []
      ensures now >= old(showTime) ==>
        !pendingWaveform
        && if audio.Some? && audioCount > 0
           then calls == [ClearLog, Flush] && wave.active && wave.samples == audio && wave.sampleCount == audioCount
                && wave.sampleRate == rate && fb.buffer[..] == UiWaveform.Image(audio, audioCount)
           else calls == [] && unchanged(wave) && fb.buffer[..] == old(fb.buffer[..])
    {
      calls := [];
      if now >= showTime {
        pendingWaveform := false;
        if audio.Some? && audioCount > 0 {
          calls := [ClearLog, Flush];
          wave.Init(audio, audioCount, rate);
          wave.Draw(fb);
        }
      }
    }

    /** The flagged load's branch of `browser_tick`. */
    method ConsumeLoad(now: int, loadOk: bool, audio: Option<seq<int>>, audioCount: int) returns (calls: seq<ViewCall>)
      requires Valid() && !pendingWaveform && pendingLoad && IsU32(now) && AudioOk(audio, audioCount)
      modifies this
      ensures Valid() && idx == old(idx) && sel == old(sel) && top == old(top) && hasLoader == old(hasLoader)
      ensures !pendingLoad && pendingIdx == -1
      ensures !(0 <= old(pendingIdx) < idx.Count()) ==>
        calls == [SetAutoScroll(true)] && !pendingWaveform && showTime == old(showTime)
      ensures 0 <= old(pendingIdx) < idx.Count() ==>
        var load := [SetAutoScroll(true)] + LoadCalls(idx.names[old(pendingIdx)], loadOk);
        if loadOk && audio.Some? && audioCount > 0
        then pendingWaveform && showTime == U32(now + DELAY_MS) && calls == load
        else !pendingWaveform && showTime == old(showTime)
             && calls == if loadOk then load else load + [Pause(DELAY_MS)] + Listing(idx, top, sel, sizeText)
    {
      calls := [SetAutoScroll(true)];
      pendingLoad := false;
      var i := pendingIdx;
      pendingIdx := -1;
      if i < 0 || i >= idx.Count() {
        return;
      }
      var path := idx.names[i];
      calls := calls + LoadCalls(path, loadOk);
      if loadOk && audio.Some? && audioCount > 0 {
        pendingWaveform := true;
        showTime := U32(now + DELAY_MS);
      } else if !loadOk {
        var listing := RenderSampleList();
        calls := calls + [Pause(DELAY_MS)] + listing;
      }
    }
  }
}

/**
 * The scrolling text log both loop-sampler display front ends keep: at
 * most 20 lines, appended while there is room and, once full, shifted up
 * so the oldest line drops out; and a scroll offset choosing which seven
 * of them are on the screen. The two front ends differ in how they scroll;
 * the log itself and the page are the same, so they are defined here once.
 */
module LineLog {
  import opened IntArith

  /** `MAX_DISPLAY_LINES`: the rows of the log. */
  const MAX_LINES: int := 20
  /** `LINES_PER_SCREEN`: the rows of text on the panel. */
  const PAGE: int := 7

  /** Twenty rows, a count of the ones in use, and the rows past the count empty. */
  predicate LinesOk(lines: seq<string>, count: int)
  {
    |lines| == MAX_LINES && 0 <= count <= MAX_LINES
    && forall i :: count <= i < MAX_LINES ==> lines[i] == ""
  }

  /** The log's contents, oldest first. */
  function Log(lines: seq<string>, count: int): seq<string>
    requires LinesOk(lines, count)
  {
    lines[..count]
  }

  /** The twenty empty rows of a cleared log. */
  function Blank(): (r: seq<string>)
    ensures LinesOk(r, 0) && Log(r, 0) == []
  {
    seq(MAX_LINES, _ => "")
  }

  /**
   * One line added to the log, as rows and count: written at the count
   * while there is room, otherwise after shifting every row up by one.
   */
  function Push(lines: seq<string>, count: int, line: string): (r: (seq<string>, int))
    requires LinesOk(lines, count)
  {
    if count < MAX_LINES then (lines[count := line], count + 1)
    else (lines[1..] + [line], count)
  }

  /**
   * As a log, a push appends the line, and once twenty lines are held it
   * also drops the oldest; the count never passes twenty.
   */
  lemma PushAppends(lines: seq<string>, count: int, line: string)
    requires LinesOk(lines, count)
    ensures var r := Push(lines, count, line);
      LinesOk(r.0, r.1) && r.1 == Min(count + 1, MAX_LINES)
      && Log(r.0, r.1) == if count < MAX_LINES then Log(lines, count) + [line] else Log(lines, count)[1..] + [line]
  {
    var r := Push(lines, count, line);
    if count < MAX_LINES {
      assert Log(r.0, r.1) == Log(lines, count) + [line];
    } else {
      assert Log(r.0, r.1) == Log(lines, count)[1..] + [line];
    }
  }

  /** The log after the lines of `history` are pushed, in order, onto a cleared one. */
  function Replay(history: seq<string>): (r: (seq<string>, int))
    ensures LinesOk(r.0, r.1)
  {
    if history == [] then (Blank(), 0)
    else
      var prev := Replay(history[..|history| - 1]);
      PushAppends(prev.0, prev.1, history[|history| - 1]);
      Push(prev.0, prev.1, history[|history| - 1])
  }

  /** The log always holds exactly the last twenty lines pushed since it was cleared, or all of them when there were fewer. */
  lemma {:induction false} ReplayKeepsLast(history: seq<string>)
    ensures Log(Replay(history).0, Replay(history).1) == history[|history| - Min(|history|, MAX_LINES)..]
  {
    if history != [] {
      var prefix := history[..|history| - 1];
      var line := history[|history| - 1];
      ReplayKeepsLast(prefix);
      var prev := Replay(prefix);
      PushAppends(prev.0, prev.1, line);
      assert prefix[|prefix| - Min(|prefix|, MAX_LINES)..] + [line]
        == history[|prefix| - Min(|prefix|, MAX_LINES)..];
      if prev.1 == MAX_LINES {
        assert (prefix[|prefix| - MAX_LINES..])[1..] + [line] == history[|history| - MAX_LINES..];
      }
    }
  }

  /** The scroll invariant: the page starts at the top, or a whole page of lines lies below its start. */
  predicate OffsetOk(count: int, offset: int)
  {
    0 <= offset && (offset == 0 || offset + PAGE <= count)
  }

  /**
   * The rows on the screen: from the offset, seven of them or as many as
   * the log holds. With the scroll invariant the page is full whenever
   * the log holds seven lines, and shows the log from the offset on.
   */
  function Window(lines: seq<string>, count: int, offset: int): (r: seq<string>)
    requires LinesOk(lines, count) && OffsetOk(count, offset)
    ensures |r| == Min(PAGE, count)
    ensures forall k :: 0 <= k < |r| ==> r[k] == Log(lines, count)[offset + k]
  {
    var end := if offset + PAGE <= count then offset + PAGE else count;
    lines[offset..end]
  }
}

/**
 * Xylem's serial command parser: a 64-byte line editor fed one character
 * at a time (newline or CR dispatches, backspace or DEL erases, anything
 * else appends while there is room), and `parseCommand`, which sets a
 * context parameter from "name value", toggles the beat display, sets the
 * tempo, or recognises one of the fixed words. The serial port and the
 * messages printed are outside the model: input characters are a
 * parameter, and `atof` is a function passed in.
 */
module CommandParser {
  import opened IntArith
  import opened Wrappers
  import opened ContextParams
  import opened CStrings

  /** `sizeof(commandBuffer)`: at most 63 characters and the terminating NUL. */
  const BUFFER_SIZE: int := 64
  const MAX_LINE: int := BUFFER_SIZE - 1
  const DEL: char := 127 as char
  const BACKSPACE: char := 8 as char

  /** `isspace` in the C locale, as `sscanf` skips it. */
  predicate IsSpace(c: char)
  {
    c == ' ' || ('\t' <= c <= '\r')
  }

  predicate IsDigit(c: char)
  {
    '0' as int <= c as int <= '9' as int
  }

  /** The leading blanks `parseCommand` skips: spaces and tabs only. */
  function SkipBlanks(s: seq<char>): (r: seq<char>)
    ensures |r| <= |s| && r == s[|s| - |r|..]
    ensures r != [] ==> r[0] != ' ' && r[0] != '\t'
  {
    if s != [] && (s[0] == ' ' || s[0] == '\t') then SkipBlanks(s[1..]) else s
  }

  function SkipSpace(s: seq<char>): (r: seq<char>)
    ensures |r| <= |s| && r == s[|s| - |r|..]
  {
    if s != [] && IsSpace(s[0]) then SkipSpace(s[1..]) else s
  }

  /** The longest run of non-space characters at the front, at most `limit` of them. */
  function Word(s: seq<char>, limit: nat): (w: seq<char>)
    ensures |w| <= limit && |w| <= |s| && w == s[..|w|]
    ensures forall i :: 0 <= i < |w| ==> !IsSpace(w[i])
  {
    if s == [] || limit == 0 || IsSpace(s[0]) then [] else [s[0]] + Word(s[1..], limit - 1)
  }

  function DigitRun(s: seq<char>): (d: seq<char>)
    ensures |d| <= |s| && d == s[..|d|]
    ensures forall i :: 0 <= i < |d| ==> IsDigit(d[i])
    ensures |d| < |s| ==> !IsDigit(s[|d|])
  {
    if s == [] || !IsDigit(s[0]) then [] else [s[0]] + DigitRun(s[1..])
  }

  /** The decimal value of a run of digits: its units digit is the run's last character. */
  function DecimalValue(d: seq<char>): (v: nat)
    requires forall i :: 0 <= i < |d| ==> IsDigit(d[i])
    ensures d == [] ==> v == 0
    ensures d != [] ==> v % 10 == d[|d| - 1] as int - '0' as int
  {
    if d == [] then 0
    else
      var last := d[|d| - 1];
      assert IsDigit(last);
      DecimalValue(d[..|d| - 1]) * 10 + (last as int - '0' as int)
  }

  /**
   * `%d`: an optional sign and at least one digit. A value is read exactly
   * when a digit comes first or right after a sign, and it is negative
   * only after a minus.
   */
  function ScanInt(s: seq<char>): (r: Option<int>)
    ensures r.Some? <==>
      (|s| > 0 && IsDigit(s[0])) || (|s| > 1 && (s[0] == '-' || s[0] == '+') && IsDigit(s[1]))
    ensures r.Some? && r.value < 0 ==> s[0] == '-'
    ensures |s| > 0 && IsDigit(s[0]) ==> r.Some? && r.value >= 0
  {
    var neg := s != [] && s[0] == '-';
    var body := if s != [] && (s[0] == '-' || s[0] == '+') then s[1..] else s;
    var d := DigitRun(body);
    if d == [] then None
    else if neg then Some(-(DecimalValue(d) as int))
    else Some(DecimalValue(d))
  }

  /**
   * `sscanf(line, "%31s %d", name, &value) == 2`: a word of up to 31
   * characters after any white space, then, after any white space, an
   * integer; overflow of the `int` is not modelled.
   */
  function ScanNameValue(s: seq<char>): (r: Option<(string, int)>)
    ensures r.Some? ==> 1 <= |r.value.0| <= 31
  {
    var t := SkipSpace(s);
    var name := Word(t, 31);
    if name == [] then None
    else
      match ScanInt(SkipSpace(t[|name|..]))
      case None => None
      case Some(v) => Some((name, v))
  }

  /** The commands that only print, leaving every state unchanged. */
  predicate IsPrintCommand(cmd: string)
  {
    cmd == "help" || cmd == "params" || cmd == "status" || cmd == "clear"
    || cmd == "test" || cmd == "reset" || cmd == "start" || cmd == "stop"
  }

  /** The range the parser checks before `setContextParam`: 0–11 for the root note, 0–255 for the rest. */
  predicate InRange(name: string, value: int)
  {
    if name == "root_note" then 0 <= value <= 11 else 0 <= value <= 255
  }

  /**
   * `parseCommand` on the parameter store and the beat-display flag: the
   * new store, the new flag, and whether the line was recognised.
   */
  function Parse(p: Params, beat: bool, line: Option<string>, atof: string -> real): (r: (Params, bool, bool))
    requires line.Some? ==> NUL !in line.value
  {
    if line.None? || line.value == [] then (p, beat, false)
    else ParseCmd(p, beat, SkipBlanks(line.value), atof)
  }

  /**
   * The line after its leading blanks: a "name value" line other than
   * "tempo …" is always recognised, even when its value is out of range
   * or its name unknown; otherwise the fixed words.
   */
  function ParseCmd(p: Params, beat: bool, cmd: string, atof: string -> real): (r: (Params, bool, bool))
  {
    var scan := ScanNameValue(cmd);
    if scan.Some? && scan.value.0 != "tempo" then (Assign(p, scan.value.0, scan.value.1), beat, true)
    else Keyword(p, beat, cmd, atof)
  }

  /** The range check, then `setContextParam`; an unknown name leaves the parameters alone. */
  function Assign(p: Params, name: string, value: int): Params
  {
    if !InRange(name, value) then p else SetParam(p, Some(name), value).0
  }

  /** The fixed words, and "tempo " followed by the value `atof` reads. */
  function Keyword(p: Params, beat: bool, cmd: string, atof: string -> real): (r: (Params, bool, bool))
  {
    if IsPrintCommand(cmd) then (p, beat, true)
    else if cmd == "beat" then (p, !beat, true)
    else if |cmd| >= 6 && cmd[..6] == "tempo " then (ApplyTempo(p, atof(cmd[6..])).0, beat, true)
    else (p, beat, false)
  }

  /** A null or empty line, and one the parser does not know, are rejected and change nothing. */
  lemma RejectedLinesChangeNothing(p: Params, beat: bool, line: Option<string>, atof: string -> real)
    requires line.Some? ==> NUL !in line.value
    ensures var (q, b, ok) := Parse(p, beat, line, atof);
      (line.None? || line.value == [] ==> !ok) && (!ok ==> q == p && b == beat)
  {
  }

  /** Leading blanks never matter: the line is parsed as if they were not there. */
  lemma LeadingBlanksIgnored(p: Params, beat: bool, s: string, atof: string -> real)
    requires NUL !in s
    ensures Parse(p, beat, Some(" " + s), atof) == Parse(p, beat, Some(s), atof)
    ensures Parse(p, beat, Some("\t" + s), atof) == Parse(p, beat, Some(s), atof)
  {
    assert (" " + s)[1..] == s;
    assert ("\t" + s)[1..] == s;
    if s == [] {
      assert SkipBlanks(" " + s) == [];
      assert SkipBlanks("\t" + s) == [];
      EmptyCommandRejected(p, beat, atof);
    }
  }

  /** Nothing but blanks is not a command. */
  lemma EmptyCommandRejected(p: Params, beat: bool, atof: string -> real)
    ensures ParseCmd(p, beat, [], atof) == (p, beat, false)
  {
    assert SkipSpace([]) == [];
    assert Word([], 31) == [];
  }

  /**
   * A "name value" line with a value outside the name's range is
   * recognised but sets nothing, and neither does one whose name is not a
   * byte parameter.
   */
  lemma OutOfRangeSetsNothing(p: Params, beat: bool, line: string, atof: string -> real)
    requires NUL !in line && line != []
    requires var s := ScanNameValue(SkipBlanks(line));
      s.Some? && s.value.0 != "tempo" && (!InRange(s.value.0, s.value.1) || !IsByteParam(s.value.0))
    ensures Parse(p, beat, Some(line), atof) == (p, beat, true)
  {
  }

  /** A "name value" line in range sets exactly that parameter, which reads back as the value. */
  lemma InRangeSetsParam(p: Params, beat: bool, line: string, atof: string -> real)
    requires ParamsOk(p) && NUL !in line && line != []
    requires var s := ScanNameValue(SkipBlanks(line));
      s.Some? && IsByteParam(s.value.0) && InRange(s.value.0, s.value.1)
    ensures var s := ScanNameValue(SkipBlanks(line));
      var (q, b, ok) := Parse(p, beat, Some(line), atof);
      ok && b == beat && ParamsOk(q) && GetParam(q, Some(s.value.0)) == s.value.1
      && forall other :: other != Some(s.value.0) ==> GetParam(q, other) == GetParam(p, other)
  {
    var cmd := SkipBlanks(line);
    var s := ScanNameValue(cmd);
    ByteParamIsNotTempo(s.value.0);
    assert Parse(p, beat, Some(line), atof) == ParseCmd(p, beat, cmd, atof);
    assert ParseCmd(p, beat, cmd, atof) == (Assign(p, s.value.0, s.value.1), beat, true);
    AssignSets(p, s.value.0, s.value.1);
  }

  lemma ByteParamIsNotTempo(name: string)
    requires IsByteParam(name)
    ensures name != "tempo"
  {
  }

  /** `setContextParam` after the range check: the named parameter takes the value, the others keep theirs. */
  lemma AssignSets(p: Params, name: string, value: int)
    requires ParamsOk(p) && IsByteParam(name) && InRange(name, value)
    ensures var q := Assign(p, name, value);
      ParamsOk(q) && GetParam(q, Some(name)) == value
      && forall other :: other != Some(name) ==> GetParam(q, other) == GetParam(p, other)
  {
    SetThenGet(p, Some(name), value, None);
    if name == "root_note" {
      DivModUnique(value, 12, 0, value);
    }
    forall other | other != Some(name)
      ensures GetParam(Assign(p, name, value), other) == GetParam(p, other)
    {
      SetThenGet(p, Some(name), value, other);
    }
  }

  /** "beat" toggles the flag, so two of them restore it. */
  lemma BeatToggles(p: Params, beat: bool, atof: string -> real)
    ensures Parse(p, beat, Some("beat"), atof) == (p, !beat, true)
    ensures Parse(p, !beat, Some("beat"), atof) == (p, beat, true)
  {
    BeatLine(p, beat, atof);
    BeatLine(p, !beat, atof);
  }

  lemma BeatLine(p: Params, beat: bool, atof: string -> real)
    ensures Parse(p, beat, Some("beat"), atof) == (p, !beat, true)
  {
    assert SkipBlanks("beat") == "beat";
    assert Parse(p, beat, Some("beat"), atof) == ParseCmd(p, beat, "beat", atof);
    BeatIsNotAssignment();
    assert ParseCmd(p, beat, "beat", atof) == Keyword(p, beat, "beat", atof);
    BeatIsNotPrint();
  }

  lemma BeatIsNotPrint()
    ensures !IsPrintCommand("beat")
  {
  }

  /** "beat" alone has no integer after it, so it is not a "name value" line. */
  lemma BeatIsNotAssignment()
    ensures ScanNameValue("beat") == None
  {
    assert SkipSpace("beat") == "beat";
    assert Word("beat", 31) == "beat" by {
      assert Word("t", 28) == "t" by { assert Word([], 27) == []; }
      assert "beat"[1..] == "eat" && "eat"[1..] == "at" && "at"[1..] == "t";
    }
    assert "beat"[4..] == [];
    assert DigitRun([]) == [];
  }

  /**
   * "tempo " followed by anything is handed to `setTempo` as the value
   * `atof` reads from the rest: the scan sees the name "tempo", which it
   * does not treat as a parameter.
   */
  lemma TempoLineSetsTempo(p: Params, beat: bool, rest: string, atof: string -> real)
    requires NUL !in rest
    ensures Parse(p, beat, Some("tempo " + rest), atof) == (ApplyTempo(p, atof(rest)).0, beat, true)
  {
    var line := "tempo " + rest;
    assert SkipBlanks(line) == line;
    assert Parse(p, beat, Some(line), atof) == ParseCmd(p, beat, line, atof);
    TempoScan(rest);
    assert ParseCmd(p, beat, line, atof) == Keyword(p, beat, line, atof);
    assert line[..6] == "tempo " && line[6..] == rest;
    TempoIsNotPrint(line);
    assert line != "beat";
  }

  /** The scan of a tempo line either fails or names "tempo". */
  lemma TempoScan(rest: string)
    ensures var scan := ScanNameValue("tempo " + rest);
      scan.None? || scan.value.0 == "tempo"
  {
    TempoWord(rest);
  }

  lemma TempoWord(rest: string)
    ensures Word(SkipSpace("tempo " + rest), 31) == "tempo"
  {
    var s5 := [' '] + rest;
    var s4 := ['o'] + s5;
    var s3 := ['p'] + s4;
    var s2 := ['m'] + s3;
    var s1 := ['e'] + s2;
    var line := ['t'] + s1;
    assert line == "tempo " + rest;
    assert SkipSpace(line) == line;
    assert s5[1..] == rest;
    assert Word(s5, 26) == [];
    WordCons('o', s5, 27);
    WordCons('p', s4, 28);
    WordCons('m', s3, 29);
    WordCons('e', s2, 30);
    WordCons('t', s1, 31);
  }

  /** A non-space character in front of a text heads its word. */
  lemma WordCons(c: char, s: seq<char>, limit: nat)
    requires limit > 0 && !IsSpace(c)
    ensures Word([c] + s, limit) == [c] + Word(s, limit - 1)
  {
    assert ([c] + s)[1..] == s;
  }

  lemma TempoIsNotPrint(line: string)
    requires |line| >= 6 && line[..6] == "tempo "
    ensures !IsPrintCommand(line)
  {
    assert line[0] == 't' && line[1] == 'e';
  }

  /** The line editor's reaction to one character: the new line, and the line dispatched if any. */
  function Edit(line: seq<char>, c: char): (r: (seq<char>, Option<seq<char>>))
    requires |line| <= MAX_LINE
    ensures |r.0| <= MAX_LINE
    ensures r.1.Some? ==> r.1.value == line && line != [] && r.0 == []
  {
    if c == '\n' || c == '\r' then
      if |line| > 0 then ([], Some(line)) else (line, None)
    else if c == BACKSPACE || c == DEL then
      if |line| > 0 then (line[..|line| - 1], None) else (line, None)
    else if |line| < MAX_LINE then (line + [c], None)
    else (line, None)
  }

  /** Only newline and CR dispatch, never an empty line; the others append, erase, or are dropped when full. */
  lemma EditCases(line: seq<char>, c: char)
    requires |line| <= MAX_LINE
    ensures Edit(line, c).1.Some? <==> (c == '\n' || c == '\r') && line != []
    ensures (c == BACKSPACE || c == DEL) ==> Edit(line, c).0 == if line == [] then [] else line[..|line| - 1]
    ensures c != '\n' && c != '\r' && c != BACKSPACE && c != DEL ==>
      Edit(line, c).0 == if |line| < MAX_LINE then line + [c] else line
  {
  }

  /** The whole session state the serial loop changes: the line so far, the parameters and the beat flag. */
  datatype Session = Session(line: seq<char>, params: Params, beat: bool)

  predicate SessionOk(s: Session)
  {
    |s.line| <= MAX_LINE
  }

  /** One character: edit the line and parse what it dispatches, as a C string. */
  function Step(s: Session, c: char, atof: string -> real): (r: Session)
    requires SessionOk(s)
    ensures SessionOk(r)
  {
    var (line, sent) := Edit(s.line, c);
    if sent.None? then s.(line := line)
    else
      var (p, beat, _) := Parse(s.params, s.beat, Some(CStr(sent.value)), atof);
      Session(line, p, beat)
  }

  /** The characters read in one `processSerialCommands` call, in order. */
  function Run(s: Session, input: seq<char>, atof: string -> real): (r: Session)
    requires SessionOk(s)
    ensures SessionOk(r)
    decreases |input|
  {
    if input == [] then s else Step(Run(s, input[..|input| - 1], atof), input[|input| - 1], atof)
  }

  /** Feeding input in two parts is feeding it at once, so reads may split anywhere. */
  lemma {:induction false} RunSplits(s: Session, a: seq<char>, b: seq<char>, atof: string -> real)
    requires SessionOk(s)
    ensures Run(s, a + b, atof) == Run(Run(s, a, atof), b, atof)
    decreases |b|
  {
    if b == [] {
      assert a + b == a;
    } else {
      assert (a + b)[..|a + b| - 1] == a + b[..|b| - 1];
      RunSplits(s, a, b[..|b| - 1], atof);
    }
  }

  /** The static parser state, with the parameter store it writes through. */
  class Parser {
    const commandBuffer: array<char>
    var bufferIndex: int
    var showBeatUpdates: bool
    const store: ContextParamsStore

    /** The buffer holds the line before `bufferIndex` and NULs from there on. */
    ghost predicate Valid()
      reads this, commandBuffer
    {
      commandBuffer.Length == BUFFER_SIZE && 0 <= bufferIndex <= MAX_LINE
      && forall i :: bufferIndex <= i < BUFFER_SIZE ==> commandBuffer[i] == NUL
    }

    ghost function State(): Session
      requires Valid()
      reads this, commandBuffer, store
    {
      Session(commandBuffer[..bufferIndex], store.State(), showBeatUpdates)
    }

    /** The zero-initialised statics of a fresh start; the beat display starts off. */
    constructor(s: ContextParamsStore)
      ensures Valid() && store == s && fresh(commandBuffer) && bufferIndex == 0 && !showBeatUpdates
    {
      commandBuffer := new char[BUFFER_SIZE](_ => NUL);
      bufferIndex := 0;
      showBeatUpdates := false;
      store := s;
    }

    /** `initCommandParser`: an empty, zeroed buffer. */
    method Init()
      requires Valid()
      modifies this, commandBuffer
      ensures Valid() && bufferIndex == 0 && showBeatUpdates == old(showBeatUpdates)
    {
      bufferIndex := 0;
      ZeroBuffer();
    }

    /** `memset(commandBuffer, 0, sizeof(commandBuffer))`. */
    method ZeroBuffer()
      requires commandBuffer.Length == BUFFER_SIZE && 0 <= bufferIndex <= MAX_LINE
      modifies commandBuffer
      ensures Valid() && forall i :: 0 <= i < BUFFER_SIZE ==> commandBuffer[i] == NUL
    {
      for i := 0 to BUFFER_SIZE
        invariant forall j :: 0 <= j < i ==> commandBuffer[j] == NUL
      {
        commandBuffer[i] := NUL;
      }
    }

    /** `parseCommand`; a null line is `None`. */
    method ParseCommand(line: Option<string>, atof: string -> real) returns (ok: bool)
      requires line.Some? ==> NUL !in line.value
      modifies this, store
      ensures bufferIndex == old(bufferIndex)
      ensures (store.State(), showBeatUpdates, ok) == Parse(old(store.State()), old(showBeatUpdates), line, atof)
    {
      if line.None? || |line.value| == 0 {
        return false;
      }
      var cmd := line.value;
      while cmd != [] && (cmd[0] == ' ' || cmd[0] == '\t')
        invariant SkipBlanks(cmd) == SkipBlanks(line.value)
        decreases |cmd|
      {
        cmd := cmd[1..];
      }
      assert cmd == SkipBlanks(line.value);
      ok := Dispatch(cmd, atof);
    }

    /** `parseCommand` from the first non-blank character on. */
    method Dispatch(cmd: string, atof: string -> real) returns (ok: bool)
      modifies this, store
      ensures bufferIndex == old(bufferIndex)
      ensures (store.State(), showBeatUpdates, ok) == ParseCmd(old(store.State()), old(showBeatUpdates), cmd, atof)
    {
      var scan := ScanNameValue(cmd);
      if scan.Some? && scan.value.0 != "tempo" {
        var (name, value) := scan.value;
        if InRange(name, value) {
          var _ := store.SetContextParam(Some(name), value);
        }
        return true;
      }
      ok := DispatchKeyword(cmd, atof);
    }

    /** The fixed words of `parseCommand`, and "tempo ". */
    method DispatchKeyword(cmd: string, atof: string -> real) returns (ok: bool)
      modifies this, store
      ensures bufferIndex == old(bufferIndex)
      ensures (store.State(), showBeatUpdates, ok) == Keyword(old(store.State()), old(showBeatUpdates), cmd, atof)
    {
      if IsPrintCommand(cmd) {
        return true;
      } else if cmd == "beat" {
        showBeatUpdates := !showBeatUpdates;
        return true;
      } else if |cmd| >= 6 && cmd[..6] == "tempo " {
        var _ := store.SetTempo(atof(cmd[6..]));
        return true;
      }
      return false;
    }

    /** One character of `processSerialCommands`. */
    method HandleChar(c: char, atof: string -> real)
      requires Valid()
      modifies this, commandBuffer, store
      ensures Valid() && State() == Step(old(State()), c, atof)
    {
      ghost var line := commandBuffer[..bufferIndex];
      if c == '\n' || c == '\r' {
        if bufferIndex > 0 {
          commandBuffer[bufferIndex] := NUL;
          assert commandBuffer[..] == line + commandBuffer[bufferIndex..];
          assert CStr(commandBuffer[..]) == CStr(line) by {
            CStrStopsAtNul(line, commandBuffer[bufferIndex..]);
          }
          var _ := ParseCommand(Some(CStr(commandBuffer[..])), atof);
          bufferIndex := 0;
          ZeroBuffer();
        }
      } else if c == BACKSPACE || c == DEL {
        if bufferIndex > 0 {
          bufferIndex := bufferIndex - 1;
          commandBuffer[bufferIndex] := NUL;
          assert commandBuffer[..bufferIndex] == line[..|line| - 1];
        }
      } else if bufferIndex < BUFFER_SIZE - 1 {
        commandBuffer[bufferIndex] := c;
        bufferIndex := bufferIndex + 1;
        assert commandBuffer[..bufferIndex] == line + [c];
      }
    }

    /** `processSerialCommands`: every available character in turn. */
    method ProcessSerialCommands(input: seq<char>, atof: string -> real)
      requires Valid()
      modifies this, commandBuffer, store
      ensures Valid() && State() == Run(old(State()), input, atof)
    {
      ghost var start := State();
      for k := 0 to |input|
        invariant Valid() && State() == Run(start, input[..k], atof)
      {
        assert input[..k + 1][..k] == input[..k];
        HandleChar(input[k], atof);
      }
      assert input[..|input|] == input;
    }
  }
}

/**
 * The card-level helpers of the loop sampler's `SDCardClass`: the `.wav`
 * listing of the root folder, the first `.wav` file, the RIFF header
 * check and chunk walk of `getWavInfo`, and the integer branches of
 * `formatSize`. The SdFat calls become inputs: a folder as the list of
 * its entries, a file as its bytes, `nothing` for one that does not open.
 */
module SdCard {
  import opened IntArith
  import opened Wrappers
  import opened CStrings
  import opened StorageLoader

  /** `sizeof(WavHeader)`: four tags, three uint32 and the PCM format fields. */
  const HEADER_SIZE: int := 36
  /** The ASCII codes of `RIFF`, `WAVE` and `data`. */
  const RIFF: seq<Byte> := [0x52, 0x49, 0x46, 0x46]
  const WAVE: seq<Byte> := [0x57, 0x41, 0x56, 0x45]
  const DATA: seq<Byte> := [0x64, 0x61, 0x74, 0x61]

  /** A little-endian uint16 of the file. */
  function Le16(file: seq<Byte>, at: int): (r: int)
    requires 0 <= at && at + 2 <= |file|
    ensures IsU16(r)
  {
    file[at] as int + 0x100 * (file[at + 1] as int)
  }

  /** A little-endian uint32 of the file. */
  function Le32(file: seq<Byte>, at: int): (r: int)
    requires 0 <= at && at + 4 <= |file|
    ensures IsU32(r)
  {
    Le16(file, at) + 0x1_0000 * Le16(file, at + 2)
  }

  /** `WavHeader`, laid over the first 36 bytes of the file. */
  datatype WavHeader = WavHeader(
    riff: seq<Byte>, fileSize: int, wave: seq<Byte>, fmt: seq<Byte>, fmtSize: int,
    audioFormat: int, numChannels: int, sampleRate: int, byteRate: int,
    blockAlign: int, bitsPerSample: int)

  /** `file.read(&header, sizeof(header))`: the header when the file holds 36 bytes, nothing when the read comes up short. */
  function ReadHeader(file: seq<Byte>): (r: Option<WavHeader>)
    ensures r.Some? <==> |file| >= HEADER_SIZE
    ensures r.Some? ==> r.value.riff == file[0..4] && r.value.wave == file[8..12]
  {
    if |file| < HEADER_SIZE then None
    else Some(WavHeader(file[0..4], Le32(file, 4), file[8..12], file[12..16], Le32(file, 16),
      Le16(file, 20), Le16(file, 22), Le32(file, 24), Le32(file, 28), Le16(file, 32), Le16(file, 34)))
  }

  /** `WavInfo`. */
  datatype WavInfo = WavInfo(
    audioFormat: int, numChannels: int, sampleRate: int, bitsPerSample: int,
    dataSize: int, dataOffset: int, valid: bool)

  // ------------------------------------------------------------------
  // The chunk walk

  /**
   * Where the walk goes after the chunk whose header is at `pos`: the seek
   * to the end of its body, or, past the end of the file where SdFat's
   * `seekSet` refuses to go, the position just after the header, where the
   * read left it.
   */
  function NextChunk(file: seq<Byte>, pos: int): (r: int)
    requires 0 <= pos && pos + 8 <= |file|
    ensures pos + 8 <= r <= |file|
  {
    var target := pos + 8 + Le32(file, pos + 4);
    if target <= |file| then target else pos + 8
  }

  /**
   * The chunk walk from the header at `pos`: the size and body offset of
   * the first `data` chunk, or nothing once fewer than 8 bytes remain.
   */
  function FindData(file: seq<Byte>, pos: int): (r: Option<(int, int)>)
    requires 0 <= pos <= |file|
    ensures r.Some? ==> (pos + 8 <= r.value.1 <= |file| && file[r.value.1 - 8..r.value.1 - 4] == DATA
      && r.value.0 == Le32(file, r.value.1 - 4))
    decreases |file| - pos
  {
    if |file| - pos < 8 then None
    else if file[pos..pos + 4] == DATA then Some((Le32(file, pos + 4), pos + 8))
    else FindData(file, NextChunk(file, pos))
  }

  /**
   * The walk finds the first `data` chunk on its path: along a chain of
   * in-file chunk headers `ps[0], ps[1], ...`, each reached from the one
   * before by `NextChunk`, whose headers are not `data` except the last,
   * the walk from `ps[0]` returns the size and body offset of the last.
   */
  lemma {:induction false} FindDataReaches(file: seq<Byte>, ps: seq<int>)
    requires |ps| >= 1
    requires forall i :: 0 <= i < |ps| ==> 0 <= ps[i] && ps[i] + 8 <= |file|
    requires forall i :: 0 <= i < |ps| - 1 ==> file[ps[i]..ps[i] + 4] != DATA && ps[i + 1] == NextChunk(file, ps[i])
    requires file[ps[|ps| - 1]..ps[|ps| - 1] + 4] == DATA
    ensures FindData(file, ps[0]) == Some((Le32(file, ps[|ps| - 1] + 4), ps[|ps| - 1] + 8))
  {
    FindDataReachesFrom(file, ps, 0);
  }

  /** The same from the `k`-th header of the chain on, by induction on what remains of it. */
  lemma {:induction false} FindDataReachesFrom(file: seq<Byte>, ps: seq<int>, k: nat)
    requires k < |ps|
    requires forall i :: 0 <= i < |ps| ==> 0 <= ps[i] && ps[i] + 8 <= |file|
    requires forall i :: 0 <= i < |ps| - 1 ==> file[ps[i]..ps[i] + 4] != DATA && ps[i + 1] == NextChunk(file, ps[i])
    requires file[ps[|ps| - 1]..ps[|ps| - 1] + 4] == DATA
    ensures FindData(file, ps[k]) == Some((Le32(file, ps[|ps| - 1] + 4), ps[|ps| - 1] + 8))
    decreases |ps| - k
  {
    if k < |ps| - 1 {
      FindDataReachesFrom(file, ps, k + 1);
      assert file[ps[k]..ps[k] + 4] != DATA && ps[k + 1] == NextChunk(file, ps[k]);
    }
  }

  /** The outcome of one pass of the walk as written. */
  datatype Walk = Found(size: int, offset: int) | Missing | Running(pos: int)

  /**
   * One pass of the loop as written: the seek target `curPosition() +
   * chunkSize` is a uint32 sum, so a large declared size wraps it round to
   * an earlier position of the file.
   */
  function StepAsWritten(file: seq<Byte>, pos: int): (r: Walk)
    requires 0 <= pos <= |file|
    ensures r.Running? ==> 0 <= r.pos <= |file|
    ensures r.Found? ==>
      pos + 8 == r.offset <= |file| && file[pos..pos + 4] == DATA && r.size == Le32(file, pos + 4)
  {
    if |file| - pos < 8 then Missing
    else if file[pos..pos + 4] == DATA then Found(Le32(file, pos + 4), pos + 8)
    else
      var target := U32(pos + 8 + Le32(file, pos + 4));
      Running(if target <= |file| then target else pos + 8)
  }

  /**
   * `fuel` passes of the loop as written, still running when they are used
   * up: a size it finds is the one stored after a `data` tag the walk
   * reached, and a position it stops at is inside the file.
   */
  function WalkAsWritten(file: seq<Byte>, pos: int, fuel: nat): (r: Walk)
    requires 0 <= pos <= |file|
    ensures r.Running? ==> 0 <= r.pos <= |file|
    ensures r.Found? ==>
      8 <= r.offset <= |file| && file[r.offset - 8..r.offset - 4] == DATA && r.size == Le32(file, r.offset - 4)
    decreases fuel
  {
    var s := StepAsWritten(file, pos);
    if fuel == 0 || !s.Running? then s else WalkAsWritten(file, s.pos, fuel - 1)
  }

  /** While the sum does not wrap, the pass as written is a step of the walk. */
  lemma StepAgreesWithoutWrap(file: seq<Byte>, pos: int)
    requires 0 <= pos && pos + 8 <= |file| && file[pos..pos + 4] != DATA
    requires pos + 8 + Le32(file, pos + 4) < TWO32
    ensures StepAsWritten(file, pos) == Running(NextChunk(file, pos))
  {
  }

  /**
   * A 44-byte file: a `RIFF`/`WAVE` header and then one `LIST` chunk
   * whose declared size is 0xFFFFFFF8.
   */
  function WrappingFile(): (r: seq<Byte>)
    ensures |r| == 44
  {
    RIFF + [36, 0, 0, 0] + WAVE + [0x66, 0x6D, 0x74, 0x20, 16, 0, 0, 0, 1, 0, 1, 0,
      0x44, 0xAC, 0, 0, 0x88, 0x58, 1, 0, 2, 0, 16, 0]
    + [0x4C, 0x49, 0x53, 0x54, 0xF8, 0xFF, 0xFF, 0xFF]
  }

  /**
   * In that file the header passes the check, and the seek past the `LIST`
   * chunk wraps back onto its own header, so the loop as written never
   * ends.
   */
  lemma WrappingFileNeverEnds(fuel: nat)
    ensures var f := WrappingFile();
      ReadHeader(f).Some? && ReadHeader(f).value.riff == RIFF && ReadHeader(f).value.wave == WAVE
      && WalkAsWritten(f, HEADER_SIZE, fuel) == Running(HEADER_SIZE)
  {
    var f := WrappingFile();
    assert f[0..4] == RIFF && f[8..12] == WAVE;
    assert f[36..40] == [0x4C, 0x49, 0x53, 0x54];
    assert Le32(f, 40) == 0xFFFF_FFF8;
    assert StepAsWritten(f, HEADER_SIZE) == Running(HEADER_SIZE);
    WalkStaysPut(f, fuel);
  }

  lemma {:induction false} WalkStaysPut(f: seq<Byte>, fuel: nat)
    requires |f| >= HEADER_SIZE && StepAsWritten(f, HEADER_SIZE) == Running(HEADER_SIZE)
    ensures WalkAsWritten(f, HEADER_SIZE, fuel) == Running(HEADER_SIZE)
  {
    if fuel > 0 {
      WalkStaysPut(f, fuel - 1);
    }
  }

  /**
   * The `.wav` test of `listWavFiles`: a file whose lower-cased name ends
   * in `.wav`. Here an entry's name is the `String` that
   * `fileNameToString` makes of the buffer `getName` fills.
   */
  predicate Listable(e: DirEntry)
  {
    !e.isDir && EndsWith(Lower(e.name), ".wav")
  }

  /** The listing keeps the same files as the loader's index. */
  lemma ListableIsIndexable(e: DirEntry)
    requires NUL !in e.name
    ensures Listable(e) <==> Indexable(e)
  {
    WavSuffixIsLowerWav(e.name);
  }

  /** The files `listWavFiles` reports, in order, each kept while fewer than `maxFiles` have been. */
  function Listed(entries: seq<DirEntry>, maxFiles: int): (r: seq<DirEntry>)
    ensures |r| <= |entries| && (r == [] || |r| <= maxFiles)
  {
    if entries == [] then []
    else
      var prev := Listed(entries[..|entries| - 1], maxFiles);
      var e := entries[|entries| - 1];
      if |prev| < maxFiles && Listable(e) then prev + [e] else prev
  }

  /** The names of the listed files, as `fileNameToString` reads them. */
  function Names(listed: seq<DirEntry>): (r: seq<string>)
    ensures |r| == |listed|
  {
    if listed == [] then [] else Names(listed[..|listed| - 1]) + [listed[|listed| - 1].name]
  }

  /** The sizes of the listed files, stored as uint32. */
  function Sizes(listed: seq<DirEntry>): (r: seq<int>)
    ensures |r| == |listed|
  {
    if listed == [] then [] else Sizes(listed[..|listed| - 1]) + [U32(listed[|listed| - 1].size)]
  }

  lemma NamesSizesAppend(listed: seq<DirEntry>, e: DirEntry)
    ensures Names(listed + [e]) == Names(listed) + [e.name]
    ensures Sizes(listed + [e]) == Sizes(listed) + [U32(e.size)]
  {
    assert (listed + [e])[..|listed|] == listed;
  }

  /** One more entry visited: kept when it is a `.wav` file and there is room. */
  lemma ListedStep(entries: seq<DirEntry>, i: int, maxFiles: int)
    requires 0 <= i < |entries|
    ensures var prev := Listed(entries[..i], maxFiles);
      Listed(entries[..i + 1], maxFiles)
        == if |prev| < maxFiles && Listable(entries[i]) then prev + [entries[i]] else prev
  {
    assert entries[..i + 1][..i] == entries[..i];
  }

  /** Every listed entry is a `.wav` file, and no more than `maxFiles` are listed. */
  lemma {:induction false} ListedAreWavs(entries: seq<DirEntry>, maxFiles: int)
    ensures forall k :: 0 <= k < |Listed(entries, maxFiles)| ==> Listable(Listed(entries, maxFiles)[k])
    ensures |Listed(entries, maxFiles)| <= Max(0, maxFiles)
  {
    if entries != [] {
      ListedAreWavs(entries[..|entries| - 1], maxFiles);
    }
  }

  /** Once `maxFiles` files are listed no later entry changes the listing. */
  lemma {:induction false} ListedFull(entries: seq<DirEntry>, i: int, maxFiles: int)
    requires 0 <= i <= |entries| && |Listed(entries[..i], maxFiles)| >= maxFiles
    ensures Listed(entries, maxFiles) == Listed(entries[..i], maxFiles)
    decreases |entries| - i
  {
    if i < |entries| {
      assert entries[..i + 1][..i] == entries[..i];
      ListedFull(entries, i + 1, maxFiles);
    } else {
      assert entries[..i] == entries;
    }
  }

  /** The first file, in folder order, whose name ends in `.wav` exactly as written, or the empty string. */
  function FirstWav(entries: seq<DirEntry>): (r: string)
    ensures r != "" ==> exists k :: 0 <= k < |entries| && !entries[k].isDir && r == entries[k].name
    ensures r != "" ==> EndsWith(r, ".wav")
  {
    if entries == [] then ""
    else if !entries[0].isDir && EndsWith(entries[0].name, ".wav") then entries[0].name
    else
      var r := FirstWav(entries[1..]);
      assert r != "" ==> exists k :: 1 <= k < |entries| && !entries[k].isDir && r == entries[k].name;
      r
  }

  /** The two searches disagree on case: a folder holding only `LOOP.WAV` lists it, but has no first `.wav` file. */
  lemma FirstWavIsCaseSensitive()
    ensures var es := [DirEntry("LOOP.WAV", false, 1000)];
      Listed(es, 1) == es && FirstWav(es) == ""
  {
    var es := [DirEntry("LOOP.WAV", false, 1000)];
    assert Lower("LOOP.WAV") == "loop.wav";
    assert Listable(es[0]);
    assert es[..0] == [];
    assert !EndsWith("LOOP.WAV", ".wav") by {
      assert "LOOP.WAV"[4..] != ".wav";
    }
  }

  /**
   * `formatSize` below a mebibyte: the byte count with ` B` below 1024,
   * otherwise the whole kibibytes with ` KB`. The megabyte branch prints a
   * float and is not part of this model.
   */
  function FormatSize(sizeBytes: int): (r: Option<string>)
    requires IsU32(sizeBytes)
    ensures r.Some? <==> sizeBytes < 0x10_0000
  {
    if sizeBytes < 1024 then Some(FormatInt(sizeBytes) + " B")
    else if sizeBytes < 0x10_0000 then Some(FormatInt(sizeBytes / 1024) + " KB")
    else None
  }

  /** The digits of the text read back bound the size: the exact byte count, or the kibibyte it lies in. */
  lemma FormatSizeReadsBack(sizeBytes: int)
    requires IsU32(sizeBytes) && sizeBytes < 0x10_0000
    ensures var t := FormatSize(sizeBytes).value;
      (sizeBytes < 1024 ==> t == Digits(sizeBytes) + " B" && DigitsValue(Digits(sizeBytes)) == sizeBytes)
      && (sizeBytes >= 1024 ==> exists k :: (1 <= k < 1024 && t == Digits(k) + " KB"
            && DigitsValue(Digits(k)) == k && k * 1024 <= sizeBytes < (k + 1) * 1024))
  {
    if sizeBytes < 1024 {
      DigitsRoundTrip(sizeBytes);
    } else {
      var k := sizeBytes / 1024;
      DigitsRoundTrip(k);
      assert sizeBytes == k * 1024 + sizeBytes % 1024;
      assert 1 <= k < 1024;
    }
  }

  // ------------------------------------------------------------------
  // SDCardClass

  /** `SDCardClass`: whether `begin` brought the card up. */
  class SdCardClass {
    var initialized: bool

    constructor()
      ensures !initialized
    {
      initialized := false;
    }

    /** `begin`: the card comes up when SdFat starts it; a failed start leaves the flag as it was. */
    method Begin(cardStarts: bool) returns (ok: bool)
      modifies this
      ensures ok == cardStarts && initialized == (cardStarts || old(initialized))
    {
      if !cardStarts {
        return false;
      }
      initialized := true;
      ok := true;
    }

    /** `isInitialized`. */
    function IsInitialized(): bool
      reads this
    {
      initialized
    }

    /**
     * `listWavFiles`: nothing unless the card is up and the root opens;
     * otherwise the root's `.wav` files in order, at most `maxFiles` of
     * them, written to the front of the two lists.
     */
    method ListWavFiles(root: Option<seq<DirEntry>>, fileList: array<string>, sizeList: array<int>, maxFiles: int)
      returns (count: int)
      requires maxFiles <= fileList.Length && maxFiles <= sizeList.Length
      modifies fileList, sizeList
      ensures var listed := if initialized && root.Some? then Listed(root.value, maxFiles) else [];
        count == |listed| && fileList[..count] == Names(listed) && sizeList[..count] == Sizes(listed)
      ensures fileList[count..] == old(fileList[count..]) && sizeList[count..] == old(sizeList[count..])
    {
      if !initialized || root.None? {
        return 0;
      }
      count := ListInto(root.value, fileList, sizeList, maxFiles);
    }

    /** `getFirstWavFile`: the first file whose name ends in `.wav`, case and all, or the empty string. */
    method GetFirstWavFile(root: Option<seq<DirEntry>>) returns (result: string)
      ensures result == if initialized && root.Some? then FirstWav(root.value) else ""
    {
      if !initialized || root.None? {
        return "";
      }
      var entries := root.value;
      result := "";
      var i := 0;
      while i < |entries|
        invariant 0 <= i <= |entries|
        invariant FirstWav(entries) == FirstWav(entries[i..])
      {
        var name := entries[i].name;
        if !entries[i].isDir && EndsWith(name, ".wav") {
          result := name;
          break;
        }
        assert entries[i..][1..] == entries[i + 1..];
        i := i + 1;
      }
    }

    /**
     * `getWavInfo`: fails unless the card is up, the file opens and holds a
     * 36-byte header starting `RIFF` and with `WAVE` at byte 8; then the
     * format fields are copied, unchecked, and the chunks are walked from
     * byte 36 for the `data` one, whose size and body offset are returned.
     * The record is marked valid only when that chunk is found.
     */
    method GetWavInfo(file: Option<seq<Byte>>, info: WavInfo) returns (ok: bool, out: WavInfo)
      requires file.Some? ==> IsU32(|file.value|)
      ensures initialized ==> (ok <==> out.valid)
      ensures !initialized ==> !ok && out == info
      ensures (initialized && (file.None? || ReadHeader(file.value).None?
        || ReadHeader(file.value).value.riff != RIFF || ReadHeader(file.value).value.wave != WAVE)) ==>
        !ok && out == info.(valid := false)
      ensures (initialized && file.Some? && ReadHeader(file.value).Some?
        && ReadHeader(file.value).value.riff == RIFF && ReadHeader(file.value).value.wave == WAVE) ==>
        var h := ReadHeader(file.value).value;
        var found := FindData(file.value, HEADER_SIZE);
        out.audioFormat == h.audioFormat && out.numChannels == h.numChannels
        && out.sampleRate == h.sampleRate && out.bitsPerSample == h.bitsPerSample
        && (ok <==> found.Some?)
        && (found.Some? ==> out.dataSize == found.value.0 && out.dataOffset == found.value.1)
        && (found.None? ==> out.dataSize == info.dataSize && out.dataOffset == info.dataOffset)
    {
      if !initialized {
        return false, info;
      }
      out := info.(valid := false);
      if file.None? {
        return false, out;
      }
      var bytes := file.value;
      var header := ReadHeader(bytes);
      if header.None? {
        return false, out;
      }
      var h := header.value;
      if h.riff != RIFF || h.wave != WAVE {
        return false, out;
      }
      out := out.(audioFormat := h.audioFormat, numChannels := h.numChannels,
                  sampleRate := h.sampleRate, bitsPerSample := h.bitsPerSample);
      var found := WalkChunks(bytes);
      if found.Some? {
        out := out.(dataSize := found.value.0, dataOffset := found.value.1, valid := true);
        return true, out;
      }
      return false, out;
    }
  }

  /** The loop of `listWavFiles` over the root's entries. */
  method ListInto(entries: seq<DirEntry>, fileList: array<string>, sizeList: array<int>, maxFiles: int)
    returns (count: int)
    requires maxFiles <= fileList.Length && maxFiles <= sizeList.Length
    modifies fileList, sizeList
    ensures count == |Listed(entries, maxFiles)|
    ensures fileList[..count] == Names(Listed(entries, maxFiles)) && sizeList[..count] == Sizes(Listed(entries, maxFiles))
    ensures fileList[count..] == old(fileList[count..]) && sizeList[count..] == old(sizeList[count..])
  {
    count := 0;
    ghost var listed: seq<DirEntry> := [];
    var i := 0;
    while i < |entries| && count < maxFiles
      invariant 0 <= i <= |entries|
      invariant listed == Listed(entries[..i], maxFiles) && count == |listed|
      invariant fileList[..] == Names(listed) + old(fileList[..])[count..]
      invariant sizeList[..] == Sizes(listed) + old(sizeList[..])[count..]
    {
      ListedStep(entries, i, maxFiles);
      count, listed := ListOne(entries[i], fileList, sizeList, count, listed, old(fileList[..]), old(sizeList[..]));
      i := i + 1;
    }
    if i < |entries| {
      ListedFull(entries, i, maxFiles);
    } else {
      assert entries[..i] == entries;
    }
  }

  /** One pass of that loop: a listable entry is written just past the files listed so far. */
  method ListOne(e: DirEntry, fileList: array<string>, sizeList: array<int>, count: int, ghost listed: seq<DirEntry>,
                 ghost origFiles: seq<string>, ghost origSizes: seq<int>)
    returns (count': int, ghost listed': seq<DirEntry>)
    requires count == |listed| < fileList.Length == |origFiles| && count < sizeList.Length == |origSizes|
    requires fileList[..] == Names(listed) + origFiles[count..] && sizeList[..] == Sizes(listed) + origSizes[count..]
    modifies fileList, sizeList
    ensures listed' == if Listable(e) then listed + [e] else listed
    ensures count' == |listed'|
    ensures fileList[..] == Names(listed') + origFiles[count'..] && sizeList[..] == Sizes(listed') + origSizes[count'..]
  {
    count', listed' := count, listed;
    if !e.isDir {
      if EndsWith(Lower(e.name), ".wav") {
        ghost var files, sizes := fileList[..], sizeList[..];
        Put(fileList, sizeList, count, e.name, U32(e.size));
        KeepStep(files, sizes, origFiles, origSizes, listed, e);
        count', listed' := count + 1, listed + [e];
      }
    }
  }

  /** Writing the next listed file just past the ones written so far moves the boundary by one. */
  lemma KeepStep(files: seq<string>, sizes: seq<int>, origFiles: seq<string>, origSizes: seq<int>,
                 listed: seq<DirEntry>, e: DirEntry)
    requires |listed| < |origFiles| && |listed| < |origSizes|
    requires files == Names(listed) + origFiles[|listed|..] && sizes == Sizes(listed) + origSizes[|listed|..]
    ensures files[|listed| := e.name] == Names(listed + [e]) + origFiles[|listed| + 1..]
    ensures sizes[|listed| := U32(e.size)] == Sizes(listed + [e]) + origSizes[|listed| + 1..]
  {
    NamesSizesAppend(listed, e);
    WriteAtFront(Names(listed), origFiles, e.name);
    WriteAtFront(Sizes(listed), origSizes, U32(e.size));
  }

  /** Writing just past a filled front moves the boundary by one. */
  lemma WriteAtFront<T>(front: seq<T>, orig: seq<T>, x: T)
    requires |front| < |orig|
    ensures (front + orig[|front|..])[|front| := x] == (front + [x]) + orig[|front| + 1..]
  {
  }

  /** One listed file written at `count`. */
  method Put(fileList: array<string>, sizeList: array<int>, count: int, name: string, size: int)
    requires 0 <= count < fileList.Length && count < sizeList.Length
    modifies fileList, sizeList
    ensures fileList[..] == old(fileList[..])[count := name] && sizeList[..] == old(sizeList[..])[count := size]
  {
    fileList[count] := name;
    sizeList[count] := size;
  }

  /** The `while (file.available() >= 8)` loop of `getWavInfo`, from just after the header. */
  method WalkChunks(file: seq<Byte>) returns (found: Option<(int, int)>)
    requires |file| >= HEADER_SIZE
    ensures found == FindData(file, HEADER_SIZE)
  {
    var pos := HEADER_SIZE;
    while |file| - pos >= 8
      invariant HEADER_SIZE <= pos <= |file|
      invariant FindData(file, pos) == FindData(file, HEADER_SIZE)
      decreases |file| - pos
    {
      var chunkId := file[pos..pos + 4];
      var chunkSize := Le32(file, pos + 4);
      if chunkId == DATA {
        return Some((chunkSize, pos + 8));
      }
      var target := pos + 8 + chunkSize;
      pos := if target <= |file| then target else pos + 8;
    }
    found := None;
  }
}

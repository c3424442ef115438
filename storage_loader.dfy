/**
 * The pure parts of the loop sampler's loader: the 24-bit sample
 * conversion, the `.wav` name test, the file index of the card's root
 * folder and the checks `wav_decode_q15_into_buffer` makes before it
 * touches the file.
 */
module StorageLoader {
  import opened IntArith
  import opened Wrappers
  import opened CStrings

  /** `MAX_WAV_FILES` and `MAX_NAME_LEN`. */
  const MAX_WAV_FILES: int := 100
  const MAX_NAME_LEN: nat := 64

  // ------------------------------------------------------------------
  // le24_to_i32

  /**
   * `le24_to_i32`: the three little-endian bytes put together and, when
   * bit 23 is set, sign-extended by setting the top byte of the int32.
   */
  function Le24ToI32(b0: Byte, b1: Byte, b2: Byte): (v: int)
    ensures -0x80_0000 <= v < 0x80_0000
    ensures (v - (b0 as int + 0x100 * (b1 as int) + 0x1_0000 * (b2 as int))) % 0x100_0000 == 0
  {
    var u: int := b0 as int + 0x100 * (b1 as int) + 0x1_0000 * (b2 as int);
    if u >= 0x80_0000 then
      assert u + 0xFF00_0000 >= TWO31;
      DivModUnique(u + 0xFF00_0000 + TWO31, TWO32, 1, u + 0xFF00_0000 - TWO31);
      I32(u + 0xFF00_0000)
    else u
  }

  /** The three bytes a 24-bit sample is stored as, least significant first. */
  function Le24Bytes(v: int): (r: (Byte, Byte, Byte))
    requires -0x80_0000 <= v < 0x80_0000
  {
    var u := if v < 0 then v + 0x100_0000 else v;
    (u % 0x100, (u / 0x100) % 0x100, u / 0x1_0000)
  }

  /** Every 24-bit value survives being stored and read back. */
  lemma Le24RoundTrip(v: int)
    requires -0x80_0000 <= v < 0x80_0000
    ensures var b := Le24Bytes(v); Le24ToI32(b.0, b.1, b.2) == v
  {
    var u := if v < 0 then v + 0x100_0000 else v;
    var b := Le24Bytes(v);
    assert u == b.0 as int + 0x100 * (b.1 as int) + 0x1_0000 * (b.2 as int);
  }

  /** Every three bytes survive being read and stored again. */
  lemma Le24BytesRoundTrip(b0: Byte, b1: Byte, b2: Byte)
    ensures Le24Bytes(Le24ToI32(b0, b1, b2)) == (b0, b1, b2)
  {
    var u: int := b0 as int + 0x100 * (b1 as int) + 0x1_0000 * (b2 as int);
    var v := Le24ToI32(b0, b1, b2);
    assert (if v < 0 then v + 0x100_0000 else v) == u;
    DivModUnique(u, 0x100, b1 + 0x100 * b2, b0);
    DivModUnique(u, 0x1_0000, b2, b0 + 0x100 * b1);
    DivModUnique(u / 0x100, 0x100, b2, b1);
  }

  // ------------------------------------------------------------------
  // ends_with_wav_ci

  /** `c | 32` on a character code, which sets bit 5 and so lower-cases an ASCII letter. */
  function Or32(c: char): int
  {
    if (c as int / 32) % 2 == 1 then c as int else c as int + 32
  }

  /** `c | 32` lands on a lower-case letter exactly for that letter and its capital. */
  lemma Or32Letter(c: char, lower: char)
    requires 'a' <= lower <= 'z'
    ensures Or32(c) == lower as int <==> c == lower || c as int == lower as int - 32
  {
  }

  /** The reference for the name test: a dot and then `wav` in any mixture of cases. */
  predicate HasWavSuffix(t: string)
  {
    |t| >= 4 && t[|t| - 4] == '.' && (t[|t| - 3] == 'w' || t[|t| - 3] == 'W')
    && (t[|t| - 2] == 'a' || t[|t| - 2] == 'A') && (t[|t| - 1] == 'v' || t[|t| - 1] == 'V')
  }

  /** `ends_with_wav_ci`: the last four characters of the C string, tested with `| 32`. */
  function EndsWithWavCi(s: string): (r: bool)
    ensures r <==> HasWavSuffix(CStr(s))
  {
    var t := CStr(s);
    var n := |t|;
    if n < 4 then false
    else
      Or32Letter(t[n - 3], 'w');
      Or32Letter(t[n - 2], 'a');
      Or32Letter(t[n - 1], 'v');
      t[n - 4] == '.' && Or32(t[n - 3]) == 'w' as int && Or32(t[n - 2]) == 'a' as int && Or32(t[n - 1]) == 'v' as int
  }

  /** The name test agrees with lower-casing the name and comparing its end with `.wav`. */
  lemma WavSuffixIsLowerWav(t: string)
    ensures HasWavSuffix(t) <==> EndsWith(Lower(t), ".wav")
  {
    if |t| >= 4 {
      var l := Lower(t);
      var n := |t|;
      assert EndsWith(l, ".wav") <==> l[n - 4] == '.' && l[n - 3] == 'w' && l[n - 2] == 'a' && l[n - 1] == 'v' by {
        assert l[n - 4..] == [l[n - 4], l[n - 3], l[n - 2], l[n - 1]];
      }
      LowerIs(t[n - 4], '.');
      LowerIs(t[n - 3], 'w');
      LowerIs(t[n - 2], 'a');
      LowerIs(t[n - 1], 'v');
    }
  }

  /** `tolower` gives a lower-case letter for that letter and its capital, and leaves a dot alone. */
  lemma LowerIs(c: char, target: char)
    requires 'a' <= target <= 'z' || target == '.'
    ensures LowerAscii(c) == target <==> c == target || ('a' <= target <= 'z' && c as int == target as int - 32)
  {
  }

  // ------------------------------------------------------------------
  // FileIndex, file_index_scan, file_index_get

  /** `FileIndex`: the names and sizes in use, `count` being their number. */
  datatype FileIndex = FileIndex(names: seq<string>, sizes: seq<int>)
  {
    function Count(): int
    {
      |names|
    }
  }

  /** At most 100 entries, each name a C string of at most 63 characters, each size a uint32. */
  predicate IndexOk(idx: FileIndex)
  {
    |idx.names| == |idx.sizes| <= MAX_WAV_FILES
    && (forall i :: 0 <= i < |idx.names| ==> |idx.names[i]| < MAX_NAME_LEN && NUL !in idx.names[i])
    && (forall i :: 0 <= i < |idx.sizes| ==> IsU32(idx.sizes[i]))
  }

  /** One entry of a directory listing: the name `getName` fills in, whether it is a folder, and its size. */
  datatype DirEntry = DirEntry(name: string, isDir: bool, size: int)

  /** What `file_index_scan` keeps: files, not folders, whose names end in `.wav` in any case. */
  predicate Indexable(e: DirEntry)
  {
    !e.isDir && EndsWithWavCi(e.name)
  }

  /** The index after the entries are visited in order, each kept while there is room. */
  function Index(entries: seq<DirEntry>): (r: FileIndex)
    ensures IndexOk(r)
  {
    if entries == [] then FileIndex([], [])
    else
      var prev := Index(entries[..|entries| - 1]);
      var e := entries[|entries| - 1];
      if Indexable(e) && prev.Count() < MAX_WAV_FILES
      then FileIndex(prev.names + [Truncated(e.name, MAX_NAME_LEN - 1)], prev.sizes + [U32(e.size)])
      else prev
  }

  /** The entries `file_index_scan` would keep were there no limit, in order. */
  function Wavs(entries: seq<DirEntry>): (r: seq<DirEntry>)
    ensures forall k :: 0 <= k < |r| ==> Indexable(r[k])
  {
    if entries == [] then []
    else
      var prev := Wavs(entries[..|entries| - 1]);
      if Indexable(entries[|entries| - 1]) then prev + [entries[|entries| - 1]] else prev
  }

  /**
   * The index holds the first 100 `.wav` files of the folder, in the
   * folder's order, each with its name cut to 63 characters and its size
   * as a uint32.
   */
  lemma {:induction false} IndexIsFirstWavs(entries: seq<DirEntry>)
    ensures Index(entries).Count() == Min(MAX_WAV_FILES, |Wavs(entries)|)
    ensures forall k :: 0 <= k < Index(entries).Count() ==>
      Index(entries).names[k] == Truncated(Wavs(entries)[k].name, MAX_NAME_LEN - 1)
      && Index(entries).sizes[k] == U32(Wavs(entries)[k].size)
  {
    if entries != [] {
      IndexIsFirstWavs(entries[..|entries| - 1]);
    }
  }

  /**
   * `file_index_scan`: the count reset, then, when the folder opens, its
   * entries visited in order. A folder that does not open leaves an empty
   * index and reports failure.
   */
  method FileIndexScan(folder: Option<seq<DirEntry>>) returns (ok: bool, idx: FileIndex)
    ensures ok <==> folder.Some?
    ensures idx == if folder.Some? then Index(folder.value) else FileIndex([], [])
  {
    idx := FileIndex([], []);
    if folder.None? {
      return false, idx;
    }
    var entries := folder.value;
    var i := 0;
    while i < |entries|
      invariant 0 <= i <= |entries|
      invariant idx == Index(entries[..i])
    {
      var e := entries[i];
      assert entries[..i + 1][..i] == entries[..i];
      if !e.isDir {
        if EndsWithWavCi(e.name) && idx.Count() < MAX_WAV_FILES {
          idx := FileIndex(idx.names + [Truncated(e.name, MAX_NAME_LEN - 1)], idx.sizes + [U32(e.size)]);
        }
      }
      i := i + 1;
    }
    assert entries[..i] == entries;
    ok := true;
  }

  /** `file_index_get`: the name at `i`, or null when `i` is outside the index. */
  function FileIndexGet(idx: FileIndex, i: int): (r: Option<string>)
    ensures r.Some? <==> 0 <= i < idx.Count()
    ensures r.Some? ==> r.value == idx.names[i]
  {
    if i < 0 || i >= idx.Count() then None else Some(idx.names[i])
  }

  // ------------------------------------------------------------------
  // wav_decode_q15_into_buffer: the checks before decoding

  /** The fields of the header summary the decoder reads; the summary's reader is not part of this model. */
  datatype WavMeta = WavMeta(ok: bool, numChannels: int, bitsPerSample: int, dataSize: int)

  predicate MetaOk(m: WavMeta)
  {
    IsU16(m.numChannels) && IsU16(m.bitsPerSample) && IsU32(m.dataSize)
  }

  /** The sample widths the decoder converts. */
  predicate SupportedBits(bits: int)
  {
    bits == 8 || bits == 16 || bits == 24 || bits == 32
  }

  /** `bytes_per_in`: the bytes of one frame, every channel's sample. */
  function FrameBytes(m: WavMeta): (r: int)
    requires MetaOk(m) && SupportedBits(m.bitsPerSample) && m.numChannels != 0
    ensures 1 <= r <= 4 * 0xFFFF && IsU32(r)
  {
    MulMono(m.bitsPerSample / 8, m.numChannels, 4, 0xFFFF);
    MulLe(1, m.bitsPerSample / 8, m.numChannels);
    (m.bitsPerSample / 8) * m.numChannels
  }

  /** Two bytes of Q15 output for every whole frame of data, counted without wrapping. */
  function RequiredBytes(m: WavMeta): (r: int)
    requires MetaOk(m) && SupportedBits(m.bitsPerSample) && m.numChannels != 0
    ensures r >= 0 && r % 2 == 0 && r / 2 * FrameBytes(m) <= m.dataSize
  {
    var frames := m.dataSize / FrameBytes(m);
    DivAtMost(m.dataSize, FrameBytes(m));
    assert m.dataSize == frames * FrameBytes(m) + m.dataSize % FrameBytes(m);
    2 * frames
  }

  /** `required_out_bytes` as written: the frame count doubled in uint32 arithmetic. */
  function RequiredBytesAsWritten(m: WavMeta): (r: int)
    requires MetaOk(m) && SupportedBits(m.bitsPerSample) && m.numChannels != 0
    ensures IsU32(r) && r == U32(RequiredBytes(m))
  {
    U32(m.dataSize / FrameBytes(m) * 2)
  }

  /**
   * The checks of `wav_decode_q15_into_buffer` before it opens the file,
   * with the output size counted without wrapping: the required byte
   * count when decoding may go ahead, nothing when it fails.
   */
  function DecodePlan(info: Option<WavMeta>, dstBytes: int): (r: Option<int>)
    requires info.Some? ==> MetaOk(info.value)
    ensures r.Some? ==>
      info.Some? && info.value.ok && info.value.numChannels != 0
      && info.value.dataSize != 0 && SupportedBits(info.value.bitsPerSample)
    ensures r.Some? ==> 0 <= r.value <= dstBytes
  {
    if info.None? || !info.value.ok then None
    else
      var m := info.value;
      if m.numChannels == 0 || m.dataSize == 0 then None
      else if !SupportedBits(m.bitsPerSample) then None
      else if dstBytes < RequiredBytes(m) then None
      else Some(RequiredBytes(m))
  }

  /** The same checks as written, the required size wrapping in uint32. */
  function DecodePlanAsWritten(info: Option<WavMeta>, dstBytes: int): (r: Option<int>)
    requires info.Some? ==> MetaOk(info.value)
    ensures r.Some? ==> IsU32(r.value) && r.value <= dstBytes
    ensures (info.Some? && info.value.ok && info.value.numChannels != 0
      && SupportedBits(info.value.bitsPerSample) && RequiredBytes(info.value) < 0x1_0000_0000)
      ==> r == DecodePlan(info, dstBytes)
  {
    if info.None? || !info.value.ok then None
    else
      var m := info.value;
      if m.numChannels == 0 || m.dataSize == 0 then None
      else if !SupportedBits(m.bitsPerSample) then None
      else if dstBytes < RequiredBytesAsWritten(m) then None
      else Some(RequiredBytesAsWritten(m))
  }

  /**
   * Decoding goes ahead exactly for a header that was read, has channels,
   * data and a supported width, and a buffer with two bytes for every
   * frame of the data.
   */
  lemma DecodePlanAccepts(info: Option<WavMeta>, dstBytes: int)
    requires info.Some? ==> MetaOk(info.value)
    ensures DecodePlan(info, dstBytes).Some? <==>
      (info.Some? && info.value.ok && info.value.numChannels != 0 && info.value.dataSize != 0
       && SupportedBits(info.value.bitsPerSample)
       && dstBytes >= 2 * (info.value.dataSize / ((info.value.bitsPerSample / 8) * info.value.numChannels)))
    ensures DecodePlan(info, dstBytes).Some? ==>
      var m := info.value;
      var frames := DecodePlan(info, dstBytes).value / 2;
      frames == m.dataSize / FrameBytes(m) && 2 * frames <= dstBytes
      && frames * FrameBytes(m) <= m.dataSize < (frames + 1) * FrameBytes(m)
  {
    if DecodePlan(info, dstBytes).Some? {
      var m := info.value;
      DivModUnique(m.dataSize, FrameBytes(m), m.dataSize / FrameBytes(m), m.dataSize % FrameBytes(m));
    }
  }

  /**
   * As written, 8-bit mono data of 2^31 bytes needs 2^32 bytes of output,
   * which wraps to 0 in uint32, so a buffer of no bytes at all passes the
   * size check.
   */
  lemma RequiredBytesWraps()
    ensures var m := WavMeta(true, 1, 8, 0x8000_0000);
      DecodePlanAsWritten(Some(m), 0) == Some(0)
      && RequiredBytes(m) == 0x1_0000_0000
      && DecodePlan(Some(m), 0).None?
  {
    var m := WavMeta(true, 1, 8, 0x8000_0000);
    assert FrameBytes(m) == 1;
    assert RequiredBytes(m) == 0x1_0000_0000;
  }

  // ------------------------------------------------------------------
  // The Q15 store

  /** The store of a rounded sample: clamped into the int16 range. */
  function ClampQ15(q: int): (r: int)
    ensures IsI16(r)
    ensures IsI16(q) ==> r == q
    ensures q > 0x7FFF ==> r == 0x7FFF
    ensures q < -0x8000 ==> r == -0x8000
  {
    var c := if q > 0x7FFF then 0x7FFF else q;
    if c < -0x8000 then -0x8000 else c
  }

  /** The clamp keeps the order of samples: a louder input is never stored quieter. */
  lemma ClampQ15Monotone(p: int, q: int)
    requires p <= q
    ensures ClampQ15(p) <= ClampQ15(q)
  {
  }
}

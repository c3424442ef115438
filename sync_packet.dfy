/**
 * Xylem's sync protocol: the 16-byte packed `SyncPacket`, its two
 * constructors and validity test, the XOR checksum over a byte buffer, and
 * the running latency estimate built from round-trip times. The float
 * tempo reaches the model already converted to the packet's Q8.8 field.
 */
module SyncPacket {
  import opened IntArith

  const SYNC_MAGIC_BYTE: int := 0xA7
  const SYNC_VERSION: int := 0x01
  const SYNC_TIMING: int := 0x01
  const SYNC_TRANSPORT: int := 0x02
  const SYNC_PING: int := 0x03
  const SYNC_PONG: int := 0x04
  /** `sizeof(SyncPacket)`: the struct is packed. */
  const PACKET_SIZE: int := 16

  datatype Packet = Packet(
    magic: int, version: int, kind: int, flags: int,
    ppqn: int, bpmQ8: int, beatsPerBar: int, beatUnit: int,
    reserved: int, songTicks: int)

  /** Every field within its declared width. */
  predicate PacketOk(p: Packet)
  {
    IsU8(p.magic) && IsU8(p.version) && IsU8(p.kind) && IsU8(p.flags)
    && IsU16(p.ppqn) && IsU16(p.bpmQ8) && IsU8(p.beatsPerBar) && IsU8(p.beatUnit)
    && IsU16(p.reserved) && IsU32(p.songTicks)
  }

  /** `isValidPacket`: only the magic byte and the version are checked. */
  predicate IsValidPacket(p: Packet)
  {
    p.magic == SYNC_MAGIC_BYTE && p.version == SYNC_VERSION
  }

  /**
   * `createTimingPacket`: a timing packet carrying the meter, resolution
   * and position, bit 0 of the flags saying whether the sender runs.
   */
  function CreateTimingPacket(bpmQ8: int, ppqn: int, beatsPerBar: int, beatUnit: int, songTicks: int, isRunning: bool): (p: Packet)
    requires IsU16(bpmQ8) && IsU16(ppqn) && IsU8(beatsPerBar) && IsU8(beatUnit) && IsU32(songTicks)
    ensures PacketOk(p) && IsValidPacket(p) && p.kind == SYNC_TIMING
    ensures p.flags % 2 == 1 <==> isRunning
    ensures p.flags < 2 && p.reserved == 0
    ensures p.ppqn == ppqn && p.bpmQ8 == bpmQ8 && p.beatsPerBar == beatsPerBar
      && p.beatUnit == beatUnit && p.songTicks == songTicks
  {
    Packet(SYNC_MAGIC_BYTE, SYNC_VERSION, SYNC_TIMING, if isRunning then 0x01 else 0x00,
      ppqn, bpmQ8, beatsPerBar, beatUnit, 0, songTicks)
  }

  /** `createTransportPacket`: a zeroed packet with the header, type 2 and the start flag. */
  function CreateTransportPacket(start: bool): (p: Packet)
    ensures PacketOk(p) && IsValidPacket(p) && p.kind == SYNC_TRANSPORT
    ensures p.flags == 1 <==> start
    ensures !start ==> p.flags == 0
    ensures p.ppqn == 0 && p.bpmQ8 == 0 && p.beatsPerBar == 0 && p.beatUnit == 0
      && p.reserved == 0 && p.songTicks == 0
  {
    Packet(SYNC_MAGIC_BYTE, SYNC_VERSION, SYNC_TRANSPORT, if start then 0x01 else 0x00, 0, 0, 0, 0, 0, 0)
  }

  /** A value of `n` bytes, least significant first, as the RP2040 stores it. */
  function LittleEndian(v: int, n: nat): (bs: seq<Byte>)
    requires 0 <= v < Pow2(8 * n)
    ensures |bs| == n
    decreases n
  {
    if n == 0 then []
    else
      Pow2Add(8, 8 * (n - 1));
      DivBound(v, TWO8, Pow2(8 * (n - 1)));
      [v % TWO8] + LittleEndian(v / TWO8, n - 1)
  }

  /** The inverse of `LittleEndian`. */
  function FromLittleEndian(bs: seq<Byte>): (v: int)
    ensures 0 <= v < Pow2(8 * |bs|)
  {
    if bs == [] then 0
    else
      var rest := FromLittleEndian(bs[1..]);
      PrependByteBound(bs[0], rest, 8 * (|bs| - 1));
      bs[0] + TWO8 * rest
  }

  /** One more low byte in front of a k-bit value gives a (k + 8)-bit value. */
  lemma PrependByteBound(b: int, rest: int, k: nat)
    requires 0 <= b < TWO8 && 0 <= rest < Pow2(k)
    ensures 0 <= b + TWO8 * rest < Pow2(8 + k)
  {
    Pow2Add(8, k);
    Pow2Values();
    MulLe(rest, Pow2(k) - 1, TWO8);
  }

  lemma {:induction false} LittleEndianRoundTrip(v: int, n: nat)
    requires 0 <= v < Pow2(8 * n)
    ensures FromLittleEndian(LittleEndian(v, n)) == v
    decreases n
  {
    if n > 0 {
      Pow2Add(8, 8 * (n - 1));
      DivBound(v, TWO8, Pow2(8 * (n - 1)));
      var bs := LittleEndian(v, n);
      assert bs[1..] == LittleEndian(v / TWO8, n - 1);
      LittleEndianRoundTrip(v / TWO8, n - 1);
      assert v == (v / TWO8) * TWO8 + v % TWO8;
    } else {
      Pow2Values();
    }
  }

  /** The packed struct's 16 bytes in field order: a header half and a meter-and-position half. */
  function Bytes(p: Packet): (bs: seq<Byte>)
    requires PacketOk(p)
    ensures |bs| == PACKET_SIZE
  {
    HeadBytes(p) + TailBytes(p)
  }

  /** Bytes 0–7: magic, version, type, flags, PPQN and the Q8.8 tempo. */
  function HeadBytes(p: Packet): (bs: seq<Byte>)
    requires PacketOk(p)
    ensures |bs| == 8
  {
    Pow2Values();
    LittleEndian(p.magic, 1) + LittleEndian(p.version, 1) + LittleEndian(p.kind, 1) + LittleEndian(p.flags, 1)
    + LittleEndian(p.ppqn, 2) + LittleEndian(p.bpmQ8, 2)
  }

  /** Bytes 8–15: the time signature, the reserved word and the song position. */
  function TailBytes(p: Packet): (bs: seq<Byte>)
    requires PacketOk(p)
    ensures |bs| == 8
  {
    Pow2Values();
    LittleEndian(p.beatsPerBar, 1) + LittleEndian(p.beatUnit, 1) + LittleEndian(p.reserved, 2)
    + LittleEndian(p.songTicks, 4)
  }

  /** Reading the 16 bytes back as the packed struct. */
  function FromBytes(bs: seq<Byte>): (p: Packet)
    requires |bs| == PACKET_SIZE
    ensures PacketOk(p)
  {
    Pow2Values();
    var h := bs[..8];
    var t := bs[8..];
    Packet(FromLittleEndian(h[0..1]), FromLittleEndian(h[1..2]), FromLittleEndian(h[2..3]), FromLittleEndian(h[3..4]),
      FromLittleEndian(h[4..6]), FromLittleEndian(h[6..8]),
      FromLittleEndian(t[0..1]), FromLittleEndian(t[1..2]), FromLittleEndian(t[2..4]),
      FromLittleEndian(t[4..8]))
  }

  /** A field laid out between a prefix and a suffix is read back from its own offsets. */
  lemma FieldSlice(pre: seq<Byte>, field: seq<Byte>, post: seq<Byte>)
    ensures (pre + field + post)[|pre|..|pre| + |field|] == field
  {
  }

  lemma HeadRoundTrip(p: Packet)
    requires PacketOk(p)
    ensures var h := HeadBytes(p);
      FromLittleEndian(h[0..1]) == p.magic && FromLittleEndian(h[1..2]) == p.version
      && FromLittleEndian(h[2..3]) == p.kind && FromLittleEndian(h[3..4]) == p.flags
      && FromLittleEndian(h[4..6]) == p.ppqn && FromLittleEndian(h[6..8]) == p.bpmQ8
  {
    Pow2Values();
    var magic, version, kind, flags := LittleEndian(p.magic, 1), LittleEndian(p.version, 1), LittleEndian(p.kind, 1), LittleEndian(p.flags, 1);
    var ppqn, bpm := LittleEndian(p.ppqn, 2), LittleEndian(p.bpmQ8, 2);
    FieldSlice([], magic, version + kind + flags + ppqn + bpm);
    FieldSlice(magic, version, kind + flags + ppqn + bpm);
    FieldSlice(magic + version, kind, flags + ppqn + bpm);
    FieldSlice(magic + version + kind, flags, ppqn + bpm);
    FieldSlice(magic + version + kind + flags, ppqn, bpm);
    FieldSlice(magic + version + kind + flags + ppqn, bpm, []);
    assert magic + version + kind + flags + ppqn + bpm + [] == HeadBytes(p);
    LittleEndianRoundTrip(p.magic, 1);
    LittleEndianRoundTrip(p.version, 1);
    LittleEndianRoundTrip(p.kind, 1);
    LittleEndianRoundTrip(p.flags, 1);
    LittleEndianRoundTrip(p.ppqn, 2);
    LittleEndianRoundTrip(p.bpmQ8, 2);
  }

  lemma TailRoundTrip(p: Packet)
    requires PacketOk(p)
    ensures var t := TailBytes(p);
      FromLittleEndian(t[0..1]) == p.beatsPerBar && FromLittleEndian(t[1..2]) == p.beatUnit
      && FromLittleEndian(t[2..4]) == p.reserved && FromLittleEndian(t[4..8]) == p.songTicks
  {
    Pow2Values();
    var bpb, unit := LittleEndian(p.beatsPerBar, 1), LittleEndian(p.beatUnit, 1);
    var reserved, ticks := LittleEndian(p.reserved, 2), LittleEndian(p.songTicks, 4);
    assert TailBytes(p) == bpb + unit + reserved + ticks;
    FieldSlice([], bpb, unit + reserved + ticks);
    FieldSlice(bpb, unit, reserved + ticks);
    FieldSlice(bpb + unit, reserved, ticks);
    FieldSlice(bpb + unit + reserved, ticks, []);
    assert bpb + unit + reserved + ticks + [] == TailBytes(p);
    LittleEndianRoundTrip(p.beatsPerBar, 1);
    LittleEndianRoundTrip(p.beatUnit, 1);
    LittleEndianRoundTrip(p.reserved, 2);
    LittleEndianRoundTrip(p.songTicks, 4);
  }

  /** The layout loses nothing: the bytes read back as the packet they came from. */
  lemma BytesRoundTrip(p: Packet)
    requires PacketOk(p)
    ensures FromBytes(Bytes(p)) == p
  {
    var bs := Bytes(p);
    assert bs[..8] == HeadBytes(p);
    assert bs[8..] == TailBytes(p);
    HeadRoundTrip(p);
    TailRoundTrip(p);
  }

  /** A packet received intact is valid exactly when it was created valid; both constructors' packets are. */
  lemma CreatedPacketsSurviveTransfer(bpmQ8: int, ppqn: int, beatsPerBar: int, beatUnit: int, songTicks: int, isRunning: bool, start: bool)
    requires IsU16(bpmQ8) && IsU16(ppqn) && IsU8(beatsPerBar) && IsU8(beatUnit) && IsU32(songTicks)
    ensures IsValidPacket(FromBytes(Bytes(CreateTimingPacket(bpmQ8, ppqn, beatsPerBar, beatUnit, songTicks, isRunning))))
    ensures IsValidPacket(FromBytes(Bytes(CreateTransportPacket(start))))
  {
    BytesRoundTrip(CreateTimingPacket(bpmQ8, ppqn, beatsPerBar, beatUnit, songTicks, isRunning));
    BytesRoundTrip(CreateTransportPacket(start));
  }

  /** The XOR of all bytes, folded from the front. */
  function XorFold(bs: seq<bv8>): bv8
  {
    if bs == [] then 0 else XorFold(bs[..|bs| - 1]) ^ bs[|bs| - 1]
  }

  /** `calculateChecksum`: the accumulating loop computes the fold. */
  method CalculateChecksum(data: seq<bv8>) returns (checksum: bv8)
    ensures checksum == XorFold(data)
  {
    checksum := 0;
    for i := 0 to |data|
      invariant checksum == XorFold(data[..i])
    {
      assert data[..i + 1][..i] == data[..i];
      checksum := checksum ^ data[i];
    }
    assert data[..|data|] == data;
  }

  lemma {:induction false} XorFoldAppend(a: seq<bv8>, b: seq<bv8>)
    ensures XorFold(a + b) == XorFold(a) ^ XorFold(b)
    decreases |b|
  {
    if b == [] {
      assert a + b == a;
    } else {
      var b' := b[..|b| - 1];
      assert (a + b)[..|a + b| - 1] == a + b';
      XorFoldAppend(a, b');
    }
  }

  /**
   * The checksum of nothing is 0, a message followed by its checksum
   * folds to 0, and a single flipped bit always changes the checksum.
   */
  lemma ChecksumDetects(data: seq<bv8>, i: int, bit: bv8)
    requires 0 <= i < |data| && bit != 0
    ensures XorFold([]) == 0
    ensures XorFold(data + [XorFold(data)]) == 0
    ensures XorFold(data[i := data[i] ^ bit]) != XorFold(data)
  {
    XorFoldAppend(data, [XorFold(data)]);
    assert [XorFold(data)][..0] == [];
    var d2 := data[i := data[i] ^ bit];
    assert data == data[..i] + [data[i]] + data[i + 1..];
    assert d2 == data[..i] + [data[i] ^ bit] + data[i + 1..];
    XorFoldAppend(data[..i] + [data[i]], data[i + 1..]);
    XorFoldAppend(data[..i] + [data[i] ^ bit], data[i + 1..]);
    XorFoldAppend(data[..i], [data[i]]);
    XorFoldAppend(data[..i], [data[i] ^ bit]);
    assert [data[i]][..0] == [];
    assert [data[i] ^ bit][..0] == [];
  }

  /** `LatencyEstimate`: one-way latency statistics in microseconds. */
  datatype Latency = Latency(minUs: int, avgUs: int, maxUs: int, samples: int)

  predicate LatencyOk(e: Latency)
  {
    IsU32(e.minUs) && IsU32(e.avgUs) && IsU32(e.maxUs) && IsU32(e.samples)
  }

  /** The estimate the updates keep once one sample is in: ordered statistics and at most 1000 samples. */
  predicate Consistent(e: Latency)
  {
    LatencyOk(e) && (e.samples == 0 || (1 <= e.samples <= 1000 && e.minUs <= e.avgUs <= e.maxUs))
  }

  /**
   * `updateLatencyEstimate` exactly as written: the weighted sum
   * `avg * samples + one_way` is formed in uint32.
   */
  function LatencyStepAsWritten(e: Latency, rttUs: int): (r: Latency)
    requires LatencyOk(e) && e.samples < TWO32 - 1 && IsU32(rttUs)
    ensures LatencyOk(r)
  {
    var oneWay := rttUs / 2;
    if e.samples == 0 then Latency(oneWay, oneWay, oneWay, 1)
    else
      var n := e.samples + 1;
      var sum := U32(e.avgUs * e.samples + oneWay);
      DivAtMost(sum, n);
      var avg := sum / n;
      Latency(Min(e.minUs, oneWay), avg, Max(e.maxUs, oneWay), if n > 1000 then 100 else n)
  }

  /**
   * Steady 5 s one-way latencies (round trips of 10 s) after 1000 samples:
   * the uint32 sum wraps and the average collapses to 709323 µs, below
   * both the minimum and the maximum.
   */
  lemma LatencyAverageWraps()
    ensures LatencyStepAsWritten(Latency(5000000, 5000000, 5000000, 1000), 10000000)
      == Latency(5000000, 709323, 5000000, 100)
  {
    DivModUnique(5000000 * 1000 + 5000000, TWO32, 1, 710032704);
    DivModUnique(710032704, 1001, 709323, 381);
  }

  /**
   * `updateLatencyEstimate` as evidently intended: the first sample sets
   * all three statistics, later ones fold into a running mean (taken
   * without wrap-around), and the count drops back to 100 past 1000.
   */
  function LatencyStep(e: Latency, rttUs: int): (r: Latency)
    requires Consistent(e) && IsU32(rttUs)
    ensures Consistent(r) && r.samples >= 1
    ensures e.samples == 0 ==> r == Latency(rttUs / 2, rttUs / 2, rttUs / 2, 1)
    ensures e.samples > 0 ==> (r.minUs == Min(e.minUs, rttUs / 2) && r.maxUs == Max(e.maxUs, rttUs / 2)
      && r.samples == (if e.samples == 1000 then 100 else e.samples + 1))
  {
    var oneWay := rttUs / 2;
    if e.samples == 0 then Latency(oneWay, oneWay, oneWay, 1)
    else
      var n := e.samples + 1;
      MeanBetween(e.avgUs, e.samples, oneWay, Min(e.minUs, oneWay), Max(e.maxUs, oneWay));
      var avg := (e.avgUs * e.samples + oneWay) / n;
      Latency(Min(e.minUs, oneWay), avg, Max(e.maxUs, oneWay), if n > 1000 then 100 else n)
  }

  /** The weighted mean of a value repeated k times and one more value lies between any bounds on both. */
  lemma MeanBetween(a: int, k: int, x: int, lo: int, hi: int)
    requires k >= 1 && lo <= a <= hi && lo <= x <= hi
    ensures lo <= (a * k + x) / (k + 1) <= hi
  {
    MulLe(lo, a, k);
    MulLe(a, hi, k);
    assert lo * (k + 1) <= a * k + x <= hi * (k + 1);
    DivModUnique(lo * (k + 1), k + 1, lo, 0);
    DivModUnique(hi * (k + 1), k + 1, hi, 0);
    DivMonotone(lo * (k + 1), a * k + x, k + 1);
    DivMonotone(a * k + x, hi * (k + 1), k + 1);
  }

  /** Without wrap-around the two definitions agree. */
  lemma LatencyStepAgreesWithoutWrap(e: Latency, rttUs: int)
    requires Consistent(e) && IsU32(rttUs) && e.avgUs * e.samples + rttUs / 2 < TWO32
    ensures LatencyStepAsWritten(e, rttUs) == LatencyStep(e, rttUs)
  {
    if e.samples > 0 {
      MulLe(0, e.avgUs, e.samples);
    }
  }

  /** A `LatencyEstimate` struct owned by the caller and updated in place. */
  class LatencyEstimate {
    var minUs: int
    var avgUs: int
    var maxUs: int
    var samples: int

    function State(): Latency
      reads this
    {
      Latency(minUs, avgUs, maxUs, samples)
    }

    /** A zeroed estimate: no samples yet. */
    constructor()
      ensures State() == Latency(0, 0, 0, 0)
    {
      minUs, avgUs, maxUs, samples := 0, 0, 0, 0;
    }

    /** `updateLatencyEstimate`, with the running mean taken without wrap-around. */
    method Update(rttUs: int)
      requires Consistent(State()) && IsU32(rttUs)
      modifies this
      ensures State() == LatencyStep(old(State()), rttUs)
    {
      var oneWay := rttUs / 2;
      if samples == 0 {
        minUs, maxUs, avgUs := oneWay, oneWay, oneWay;
        samples := 1;
      } else {
        MeanBetween(avgUs, samples, oneWay, Min(minUs, oneWay), Max(maxUs, oneWay));
        minUs := Min(minUs, oneWay);
        maxUs := Max(maxUs, oneWay);
        avgUs := (avgUs * samples + oneWay) / (samples + 1);
        samples := samples + 1;
        if samples > 1000 {
          samples := 100;
        }
      }
    }
  }
}

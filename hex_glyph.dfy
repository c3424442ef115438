/**
 * HexGlyphHarmony: a 12-bit chord mask (bit i set = semitone i above the
 * root) turned into up to six voices. The mask is rotated and given a root,
 * its set bits are listed low to high, and voice j takes semitone j mod n
 * at octave ring j div n. Masks are `unsigned` values, modelled as bv32.
 * The semitone ratio table and the octave multiplier are floats. A voice
 * is therefore modelled as its (semitone index, octave offset) pair and
 * not as its float multiplier.
 */
module HexGlyph {
  import opened IntArith

  /** `_hg_pop12`: the SWAR population count of the low 12 bits. */
  function Pop12(m0: bv32): bv32
  {
    var m := m0 & 0xFFF;
    var m1 := (m & 0x555) + ((m >> 1) & 0x555);
    var m2 := (m1 & 0x333) + ((m1 >> 2) & 0x333);
    var m3 := (m2 + (m2 >> 4)) & 0x0F0F;
    (m3 + (m3 >> 8)) & 0x1F
  }

  /** Bit i of the mask is set. */
  predicate Bit(m: bv32, i: nat)
    requires i < 32
  {
    (m >> i) & 1 == 1
  }

  /** The set bits below n, in increasing order: the reference for the popcount and the index picker. */
  function SetBitsBelow(m: bv32, n: nat): seq<nat>
    requires n <= 32
  {
    if n == 0 then [] else SetBitsBelow(m, n - 1) + (if Bit(m, n - 1) then [n - 1] else [])
  }

  /** The listing is strictly increasing, holds set bits only, and misses none. */
  lemma {:induction false} SetBitsBelowSpec(m: bv32, n: nat)
    requires n <= 32
    ensures forall j :: 0 <= j < |SetBitsBelow(m, n)| ==> SetBitsBelow(m, n)[j] < n && Bit(m, SetBitsBelow(m, n)[j])
    ensures forall j, k :: 0 <= j < k < |SetBitsBelow(m, n)| ==> SetBitsBelow(m, n)[j] < SetBitsBelow(m, n)[k]
    ensures forall i :: 0 <= i < n && Bit(m, i) ==> i in SetBitsBelow(m, n)
    decreases n
  {
    if n > 0 {
      SetBitsBelowSpec(m, n - 1);
    }
  }

  /** A shorter listing is a prefix of a longer one. */
  lemma {:induction false} SetBitsPrefix(m: bv32, i: nat, n: nat)
    requires i <= n <= 32
    ensures |SetBitsBelow(m, i)| <= |SetBitsBelow(m, n)|
    ensures SetBitsBelow(m, i) == SetBitsBelow(m, n)[..|SetBitsBelow(m, i)|]
    decreases n - i
  {
    if i < n {
      SetBitsPrefix(m, i, n - 1);
    }
  }

  function BitValue(m: bv32, i: nat): bv32
    requires i < 32
  {
    (m >> i) & 1
  }

  /** The bitwise sum of the bits below n. */
  function CountBv(m: bv32, n: nat): bv32
    requires n <= 32
  {
    if n == 0 then 0 else CountBv(m, n - 1) + BitValue(m, n - 1)
  }

  lemma PopSum(m: bv32)
    ensures Pop12(m) == BitValue(m, 0) + BitValue(m, 1) + BitValue(m, 2) + BitValue(m, 3)
                        + BitValue(m, 4) + BitValue(m, 5) + BitValue(m, 6) + BitValue(m, 7)
                        + BitValue(m, 8) + BitValue(m, 9) + BitValue(m, 10) + BitValue(m, 11)
  {
  }

  lemma PopCountBv(m: bv32)
    ensures Pop12(m) == CountBv(m, 12)
  {
    PopSum(m);
    assert CountBv(m, 1) == CountBv(m, 0) + BitValue(m, 0);
    assert CountBv(m, 2) == CountBv(m, 1) + BitValue(m, 1);
    assert CountBv(m, 3) == CountBv(m, 2) + BitValue(m, 2);
    assert CountBv(m, 4) == CountBv(m, 3) + BitValue(m, 3);
    assert CountBv(m, 5) == CountBv(m, 4) + BitValue(m, 4);
    assert CountBv(m, 6) == CountBv(m, 5) + BitValue(m, 5);
    assert CountBv(m, 7) == CountBv(m, 6) + BitValue(m, 6);
    assert CountBv(m, 8) == CountBv(m, 7) + BitValue(m, 7);
    assert CountBv(m, 9) == CountBv(m, 8) + BitValue(m, 8);
    assert CountBv(m, 10) == CountBv(m, 9) + BitValue(m, 9);
    assert CountBv(m, 11) == CountBv(m, 10) + BitValue(m, 10);
    assert CountBv(m, 12) == CountBv(m, 11) + BitValue(m, 11);
  }

  lemma BitStep(m: bv32, i: nat, s: bv32)
    requires i < 32 && s < 32
    ensures (s + BitValue(m, i)) as int == s as int + (if Bit(m, i) then 1 else 0)
  {
  }

  lemma {:induction false} CountBvIsLength(m: bv32, n: nat)
    requires n <= 12
    ensures CountBv(m, n) as int == |SetBitsBelow(m, n)| <= n
    decreases n
  {
    if n > 0 {
      CountBvIsLength(m, n - 1);
      BitStep(m, n - 1, CountBv(m, n - 1));
    }
  }

  /** `_hg_pop12` counts exactly the set bits among the low 12, so it is at most 12. */
  lemma Pop12IsBitCount(m: bv32)
    ensures Pop12(m) as int == |SetBitsBelow(m, 12)| <= 12
  {
    PopCountBv(m);
    CountBvIsLength(m, 12);
  }

  /** The rotation amount `r % 12`, moved into [0, 12) for a negative r. */
  function NormRotation(r: int): (k: int)
    ensures 0 <= k < 12 && k == r % 12
  {
    var k := CRem(r, 12);
    assert r < 0 ==> CDiv(r, 12) == -((-r) / 12);
    if k < 0 then k + 12 else k
  }

  /** The rotation amount as the unsigned value the shifts use. */
  function RotBv(k: int): (b: bv32)
    requires 0 <= k < 12
    ensures b < 12
  {
    if k == 0 then 0 else if k == 1 then 1 else if k == 2 then 2 else if k == 3 then 3 else if k == 4 then 4 else if k == 5 then 5 else if k == 6 then 6 else if k == 7 then 7 else if k == 8 then 8 else if k == 9 then 9 else if k == 10 then 10 else 11
  }

  /** The unsigned rotation amount is the amount itself. */
  lemma RotBvValue(k: int)
    requires 0 <= k < 12
    ensures RotBv(k) as int == k
  {
  }

  lemma RotBvSucc(n: int)
    requires 0 <= n < 11
    ensures RotBv(n) < 11 && RotBv(n + 1) == RotBv(n) + 1
  {
  }

  /** A left rotation of the low 12 bits by k in [0, 12). */
  function RolBv(m: bv32, k: bv32): (x: bv32)
    requires k < 12
    ensures x < 4096
  {
    ((m << k) | (m >> (12 - k))) & 0xFFF
  }

  /** `_hg_rol12`. */
  function Rol12(m: bv32, r: int): (x: bv32)
    ensures x < 4096
  {
    RolBv(m, RotBv(NormRotation(r)))
  }

  lemma RolBvInverse(m: bv32, k: bv32, j: bv32)
    requires m < 4096 && k < 12 && j == (12 - k) % 12
    ensures RolBv(RolBv(m, k), j) == m
  {
  }

  lemma ComplementRot(k: int)
    requires 0 <= k < 12
    ensures RotBv((12 - k) % 12) == (12 - RotBv(k)) % 12
  {
  }

  /** Rotating by r and then by 12 − r restores a 12-bit mask. */
  lemma Rol12Inverse(m: bv32, r: int)
    requires m < 4096
    ensures Rol12(Rol12(m, r), 12 - r) == m
  {
    var k := NormRotation(r);
    var j := NormRotation(12 - r);
    assert j == (12 - k) % 12;
    ComplementRot(k);
    RolBvInverse(m, RotBv(k), RotBv(j));
  }

  lemma RolStep(m: bv32, k: bv32)
    requires m < 4096 && k < 11
    ensures RolBv(m, k + 1) == RolBv(RolBv(m, k), 1)
  {
  }

  lemma RolZero(m: bv32)
    requires m < 4096
    ensures RolBv(m, 0) == m
  {
  }

  lemma PopRotateOne(m: bv32)
    requires m < 4096
    ensures Pop12(RolBv(m, 1)) == Pop12(m)
  {
  }

  /** One more step of rotation keeps the popcount. */
  lemma PopRotateStep(m: bv32, k: bv32)
    requires m < 4096 && k < 11
    ensures Pop12(RolBv(m, k + 1)) == Pop12(RolBv(m, k))
  {
    RolStep(m, k);
    PopRotateOne(RolBv(m, k));
  }

  lemma {:induction false} RotKeepsPopcount(m: bv32, n: int)
    requires m < 4096 && 0 <= n < 12
    ensures Pop12(RolBv(m, RotBv(n))) == Pop12(m)
    decreases n
  {
    if n == 0 {
      RolZero(m);
    } else {
      RotKeepsPopcount(m, n - 1);
      RotBvSucc(n - 1);
      PopRotateStep(m, RotBv(n - 1));
    }
  }

  /** A rotation of a 12-bit mask keeps its popcount. */
  lemma Rol12KeepsPopcount(m: bv32, r: int)
    requires m < 4096
    ensures Pop12(Rol12(m, r)) == Pop12(m)
  {
    RotKeepsPopcount(m, NormRotation(r));
  }

  /** `_hg_mask_from`: keep 12 bits, rotate when asked, and add the root when asked and absent. */
  function MaskFrom(mask: bv32, rootRotation: int, includeRoot: int): (r: bv32)
    ensures r < 4096
    ensures includeRoot != 0 ==> Bit(r, 0)
  {
    var m := mask & 0xFFF;
    var rotated := if rootRotation != 0 then Rol12(m, rootRotation) else m;
    if includeRoot != 0 && rotated & 1 == 0 then rotated | 1 else rotated
  }

  lemma PopAddRoot(m: bv32)
    requires m < 4096 && m & 1 == 0
    ensures Pop12(m | 1) == Pop12(m) + 1
  {
  }

  /** The derived mask has the chord's notes, plus one when the root had to be added. */
  lemma MaskFromPopcount(mask: bv32, rootRotation: int, includeRoot: int)
    ensures var m := mask & 0xFFF;
            var rotated := if rootRotation != 0 then Rol12(m, rootRotation) else m;
            Pop12(MaskFrom(mask, rootRotation, includeRoot))
              == Pop12(m) + (if includeRoot != 0 && rotated & 1 == 0 then 1 else 0)
  {
    var m := mask & 0xFFF;
    if rootRotation != 0 {
      Rol12KeepsPopcount(m, rootRotation);
    }
    var rotated := if rootRotation != 0 then Rol12(m, rootRotation) else m;
    if includeRoot != 0 && rotated & 1 == 0 {
      PopAddRoot(rotated);
    }
  }

  /** `_hg_octave_from_ring`: 0, +1, −1, +2, −2, … through signed-char arithmetic, clamped to ±4. */
  function OctaveFromRing(ring: int): (oct: int)
    requires IsU32(ring)
    ensures -4 <= oct <= 4
  {
    if ring == 0 then 0
    else
      var magnitude := U32(ring + 1) / 2;
      var offset := I8(magnitude);
      var signed := if ring % 2 == 0 then I8(-offset) else offset;
      if signed > 4 then 4 else if signed < -4 then -4 else signed
  }

  /** For every ring a signed char can describe, odd rings go up and even rings go down. */
  lemma OctaveFromRingSequence(ring: int)
    requires 0 <= ring < 255
    ensures OctaveFromRing(ring) == Clamp(if ring % 2 == 1 then (ring + 1) / 2 else -(ring / 2), -4, 4)
  {
  }

  /**
   * `_hg_pick_bits_low_to_high`: the first `maxOut` set bits of the low 12,
   * in increasing order, written to the front of `out`.
   */
  method PickBitsLowToHigh(mask: bv32, out: array<int>, maxOut: int) returns (c: int)
    requires IsU8(maxOut) && maxOut <= out.Length
    modifies out
    ensures c == Min(|SetBitsBelow(mask, 12)|, maxOut)
    ensures out[..c] == SetBitsBelow(mask, 12)[..c]
    ensures out[c..] == old(out[c..])
  {
    c := 0;
    var i := 0;
    while i < 12 && c < maxOut
      invariant 0 <= i <= 12 && 0 <= c <= maxOut
      invariant c == |SetBitsBelow(mask, i)|
      invariant out[..c] == SetBitsBelow(mask, i)
      invariant out[c..] == old(out[c..])
      decreases 12 - i
    {
      if Bit(mask, i) {
        out[c] := i;
        c := c + 1;
      }
      assert out[..c] == SetBitsBelow(mask, i + 1);
      i := i + 1;
    }
    SetBitsPrefix(mask, i, 12);
  }

  /** The semitone indices a mask yields for at most `maxVoices` voices. */
  function Semitones(mask: bv32, maxVoices: int, rootRotation: int, includeRoot: int): (s: seq<nat>)
    ensures |s| <= 12
  {
    var bits := SetBitsBelow(MaskFrom(mask, rootRotation, includeRoot), 12);
    var n := Min(|bits|, Min(maxVoices, 6));
    Pop12IsBitCount(MaskFrom(mask, rootRotation, includeRoot));
    if n <= 0 then [] else bits[..n]
  }

  /**
   * `HexGlyphHarmony_indices_from`: nothing for a missing output array or no
   * voices; otherwise the derived mask's set bits, low to high, at most six.
   */
  method IndicesFrom(mask: bv32, maxVoices: int, rootRotation: int, includeRoot: int, outIdx: array?<int>)
    returns (c: int)
    requires IsU8(maxVoices)
    requires outIdx != null ==> outIdx.Length >= 6
    modifies outIdx
    ensures outIdx == null || maxVoices == 0 ==> c == 0
    ensures outIdx != null ==> c == |Semitones(mask, maxVoices, rootRotation, includeRoot)| <= 6
                               && outIdx[..c] == Semitones(mask, maxVoices, rootRotation, includeRoot)
  {
    if outIdx == null {
      return 0;
    }
    if maxVoices == 0 {
      return 0;
    }
    var mv := if maxVoices > 6 then 6 else maxVoices;
    var m := MaskFrom(mask, rootRotation, includeRoot);
    c := PickBitsLowToHigh(m, outIdx, mv);
    Pop12IsBitCount(m);
  }

  /** The compile-time configuration the macro-driven entry points read. */
  const HEX_GLYPH: bv32 := 0x891
  const VOICE_COUNT: int := 4
  const ROOT_ROTATION_SEMITONES: int := 0
  const INCLUDE_ROOT_IF_ABSENT: int := 1

  /**
   * The default glyph already holds its root: `HexGlyphHarmony_mask` is 0x891,
   * its popcount is 4, and `HexGlyphHarmony_indices` yields semitones 0, 4, 7, 11.
   */
  lemma DefaultGlyphChord()
    ensures MaskFrom(HEX_GLYPH, ROOT_ROTATION_SEMITONES, INCLUDE_ROOT_IF_ABSENT) == 0x891
    ensures Pop12(0x891) == 4
    ensures Semitones(HEX_GLYPH, VOICE_COUNT, ROOT_ROTATION_SEMITONES, INCLUDE_ROOT_IF_ABSENT) == [0, 4, 7, 11]
  {
    var m: bv32 := 0x891;
    assert SetBitsBelow(m, 1) == [0];
    assert SetBitsBelow(m, 4) == [0];
    assert SetBitsBelow(m, 5) == [0, 4];
    assert SetBitsBelow(m, 7) == [0, 4];
    assert SetBitsBelow(m, 8) == [0, 4, 7];
    assert SetBitsBelow(m, 11) == [0, 4, 7];
    assert SetBitsBelow(m, 12) == [0, 4, 7, 11];
  }

  /** One voice: a semitone index into the ratio table and an octave offset. */
  datatype Voice = Voice(semitone: int, octave: int)

  /**
   * Voice j of a chord with semitones `semis`: semitone j mod n at octave
   * ring j div n, so always a chord note within four octaves, and the
   * first round at the chord's own octave.
   */
  function VoiceAt(semis: seq<int>, j: nat): (v: Voice)
    requires |semis| > 0
    ensures v.semitone in semis && -4 <= v.octave <= 4
    ensures j < |semis| ==> v == Voice(semis[j], 0)
  {
    var n := |semis|;
    assert j < n ==> j % n == j && j / n == 0 by {
      if j < n { DivModUnique(j, n, 0, j); }
    }
    var k, ring := j % n, j / n;
    Voice(semis[k], if IsU32(ring) then OctaveFromRing(ring) else 0)
  }

  /**
   * `HexGlyphHarmony_multipliers_from`, voice-count logic: for a missing
   * output, no voices or an empty mask nothing; otherwise exactly
   * min(voiceCount, 6) voices, the same ones whether or not octaves are spread.
   */
  method MultipliersFrom(mask: bv32, voiceCount: int, rootRotation: int, includeRoot: int, spreadOctaves: int,
                         outMul: array?<Voice>)
    returns (count: int)
    requires IsU8(voiceCount)
    requires outMul != null ==> outMul.Length >= 6
    modifies outMul
    ensures outMul == null || voiceCount == 0 ==> count == 0
    ensures outMul != null && voiceCount > 0 ==>
              var semis := Semitones(mask, Min(voiceCount, 6), rootRotation, includeRoot);
              (|semis| == 0 ==> count == 0)
              && (|semis| > 0 ==> count == Min(voiceCount, 6)
                                  && forall j :: 0 <= j < count ==> outMul[j] == VoiceAt(semis, j))
  {
    if outMul == null {
      return 0;
    }
    if voiceCount == 0 {
      return 0;
    }
    var vc := if voiceCount > 6 then 6 else voiceCount;
    var idx := new int[6];
    var semiCount := IndicesFrom(mask, vc, rootRotation, includeRoot, idx);
    if semiCount == 0 {
      return 0;
    }
    var semis := idx[..semiCount];
    if spreadOctaves != 0 {
      count := SpreadVoices(semis, vc, outMul);
    } else {
      count := TileVoices(semis, vc, outMul);
    }
  }

  /** The spread-octaves branch: ring by ring, every semitone of the chord at that ring's octave. */
  method SpreadVoices(semis: seq<int>, vc: int, outMul: array<Voice>) returns (written: int)
    requires 0 < |semis| && 0 < vc <= 6 <= outMul.Length
    modifies outMul
    ensures written == vc
    ensures forall j :: 0 <= j < vc ==> outMul[j] == VoiceAt(semis, j)
  {
    var n := |semis|;
    written := 0;
    var ring := 0;
    while ring <= 8 && written < vc
      invariant 0 <= ring <= 9
      invariant written == Min(ring * n, vc)
      invariant forall j :: 0 <= j < written ==> outMul[j] == VoiceAt(semis, j)
      decreases 9 - ring
    {
      var octave := OctaveFromRing(ring);
      var i := 0;
      while i < n && written < vc
        invariant 0 <= i <= n
        invariant written == ring * n + i <= vc
        invariant forall j :: 0 <= j < written ==> outMul[j] == VoiceAt(semis, j)
        decreases n - i
      {
        DivModUnique(written, n, ring, i);
        outMul[written] := Voice(semis[i], octave);
        written := written + 1;
        i := i + 1;
      }
      ring := ring + 1;
    }
  }

  /** The plain branch: voice v takes semitone v mod n at octave ring v div n. */
  method TileVoices(semis: seq<int>, vc: int, outMul: array<Voice>) returns (written: int)
    requires 0 < |semis| && 0 < vc <= 6 <= outMul.Length
    modifies outMul
    ensures written == vc
    ensures forall j :: 0 <= j < vc ==> outMul[j] == VoiceAt(semis, j)
  {
    var n := |semis|;
    var v := 0;
    while v < vc
      invariant 0 <= v <= vc
      invariant forall j :: 0 <= j < v ==> outMul[j] == VoiceAt(semis, j)
    {
      var ring := v / n;
      outMul[v] := Voice(semis[v % n], OctaveFromRing(ring));
      v := v + 1;
    }
    written := vc;
  }
}

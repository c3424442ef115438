/**
 * Xylem's context parameters: five byte-sized controls and a tempo in one
 * global struct, set and read by name or by index, and packed into a
 * five-byte packet. The tempo is a float in the source; here it is an
 * exact real, stored as given.
 */
module ContextParams {
  import opened IntArith
  import opened Wrappers

  datatype Params = Params(consonance: int, precision: int, pace: int, density: int, rootNote: int, tempo: real)

  /** The struct's constructor: consonance 128, precision 3, pace 69, density 255, root C, 120 BPM. */
  const DEFAULTS: Params := Params(128, 3, 69, 255, 0, 120.0)

  /** The fields' declared widths, and a root note below 12 as every setter keeps it. */
  predicate ParamsOk(p: Params)
  {
    IsU8(p.consonance) && IsU8(p.precision) && IsU8(p.pace) && IsU8(p.density) && 0 <= p.rootNote < 12
  }

  /** `paramNames`: six names, the last of them the tempo. */
  const PARAM_NAMES: seq<string> := ["consonance", "precision", "pace", "density", "root_note", "tempo"]

  const NOTE_NAMES: seq<string> := ["C", "C#", "D", "D#", "E", "F", "F#", "G", "G#", "A", "A#", "B"]

  /** The byte parameters by name, as `setContextParam` and `getContextParam` recognise them. */
  predicate IsByteParam(name: string)
  {
    name == "consonance" || name == "precision" || name == "pace" || name == "density" || name == "root_note"
  }

  /** `setContextParam` on a struct value: a known name sets that field (the root note modulo 12). */
  function SetParam(p: Params, name: Option<string>, value: int): (r: (Params, bool))
    requires IsU8(value)
    ensures r.1 <==> name.Some? && IsByteParam(name.value)
    ensures r.0.tempo == p.tempo
  {
    if name.None? then (p, false)
    else if name.value == "consonance" then (p.(consonance := value), true)
    else if name.value == "precision" then (p.(precision := value), true)
    else if name.value == "pace" then (p.(pace := value), true)
    else if name.value == "density" then (p.(density := value), true)
    else if name.value == "root_note" then (p.(rootNote := value % 12), true)
    else (p, false)
  }

  /** `getContextParam`: a byte field by name, 0 for a null or unknown name. */
  function GetParam(p: Params, name: Option<string>): (v: int)
    ensures ParamsOk(p) ==> IsU8(v)
  {
    if name.None? then 0
    else if name.value == "consonance" then p.consonance
    else if name.value == "precision" then p.precision
    else if name.value == "pace" then p.pace
    else if name.value == "density" then p.density
    else if name.value == "root_note" then p.rootNote
    else 0
  }

  /**
   * Setting succeeds exactly for the five byte names; it keeps the
   * invariant, reads back as the value (modulo 12 for the root), leaves
   * every other parameter and the tempo alone, and an unknown or null
   * name changes nothing.
   */
  lemma SetThenGet(p: Params, name: Option<string>, value: int, other: Option<string>)
    requires ParamsOk(p) && IsU8(value)
    ensures var (q, ok) := SetParam(p, name, value);
      ParamsOk(q) && q.tempo == p.tempo
      && (ok <==> name.Some? && IsByteParam(name.value))
      && (!ok ==> q == p)
      && (ok ==> GetParam(q, name) == if name.value == "root_note" then value % 12 else value)
      && (ok && other != name ==> GetParam(q, other) == GetParam(p, other))
  {
    DivModUnique(value % 12, 12, 0, value % 12);
  }

  /** `getContextParam` reads 0 for anything that is not a byte parameter, the tempo included. */
  lemma UnknownNameReadsZero(p: Params, name: string)
    requires !IsByteParam(name)
    ensures GetParam(p, Some(name)) == 0 && GetParam(p, None) == 0
  {
  }

  /** `setTempo`: only 30 to 300 BPM is accepted; otherwise the tempo is unchanged. */
  function ApplyTempo(p: Params, tempo: real): (r: (Params, bool))
    ensures r.1 <==> 30.0 <= tempo <= 300.0
    ensures r.0 == if r.1 then p.(tempo := tempo) else p
  {
    if tempo < 30.0 || tempo > 300.0 then (p, false) else (p.(tempo := tempo), true)
  }

  /** `getContextParamName`: the first five names; anything from 5 on is null. */
  function GetParamName(index: int): (r: Option<string>)
    requires IsU8(index)
    ensures r.Some? <==> index < 5
    ensures r.Some? ==> IsByteParam(r.value)
  {
    if index >= 5 then None else Some(PARAM_NAMES[index])
  }

  /** `getContextParamValue`: the byte fields in packet order, 0 past the root note. */
  function GetParamValue(p: Params, index: int): (v: int)
    requires IsU8(index)
    ensures ParamsOk(p) ==> IsU8(v)
    ensures index >= 5 ==> v == 0
  {
    if index == 0 then p.consonance
    else if index == 1 then p.precision
    else if index == 2 then p.pace
    else if index == 3 then p.density
    else if index == 4 then p.rootNote
    else 0
  }

  /** `getContextParamCount`: as many as the name table holds, the tempo included. */
  function GetParamCount(): (n: int)
    ensures n == |PARAM_NAMES| && IsU8(n)
  {
    6
  }

  /**
   * The index and name views agree: each named index reads the same value
   * by name. The count says 6, but index 5, the tempo, has no name and
   * reads 0.
   */
  lemma IndexAndNameAgree(p: Params, index: int)
    requires IsU8(index)
    ensures index < 5 ==> GetParam(p, GetParamName(index)) == GetParamValue(p, index)
    ensures GetParamCount() == 6 && GetParamName(5) == None && GetParamValue(p, 5) == 0
  {
  }

  /** `getNoteName`: the sharp spelling of the pitch class, "?" from 12 on. */
  function GetNoteName(note: int): (s: string)
    requires IsU8(note)
    ensures note >= 12 <==> s == "?"
    ensures note < 12 ==> 1 <= |s| <= 2 && s[0] in "CDEFGAB"
  {
    if note >= 12 then "?" else NOTE_NAMES[note]
  }

  /** `getPacketData`: the five byte fields in order. */
  function PacketOf(p: Params): (bs: seq<int>)
    ensures |bs| == 5
  {
    [p.consonance, p.precision, p.pace, p.density, p.rootNote]
  }

  /** `updateFromPacket`: bytes 0–3 copied, the root note reduced modulo 12, the tempo kept. */
  function FromPacket(p: Params, bs: seq<int>): (r: Params)
    requires |bs| >= 5 && forall i :: 0 <= i < 5 ==> IsU8(bs[i])
    ensures ParamsOk(r) && r.tempo == p.tempo
  {
    Params(bs[0], bs[1], bs[2], bs[3], bs[4] % 12, p.tempo)
  }

  /**
   * A packet taken from a struct restores it, and a struct loaded from a
   * packet gives that packet back up to the root note's reduction.
   */
  lemma PacketRoundTrip(p: Params, bs: seq<int>)
    requires ParamsOk(p)
    requires |bs| == 5 && forall i :: 0 <= i < 5 ==> IsU8(bs[i])
    ensures FromPacket(p, PacketOf(p)) == p
    ensures PacketOf(FromPacket(p, bs)) == bs[..4] + [bs[4] % 12]
    ensures bs[4] < 12 ==> PacketOf(FromPacket(p, bs)) == bs
  {
    DivModUnique(p.rootNote, 12, 0, p.rootNote);
    if bs[4] < 12 {
      DivModUnique(bs[4], 12, 0, bs[4]);
    }
  }

  /** The global `contextParams` struct. */
  class ContextParamsStore {
    var consonance: int
    var precision: int
    var pace: int
    var density: int
    var rootNote: int
    var tempo: real

    function State(): Params
      reads this
    {
      Params(consonance, precision, pace, density, rootNote, tempo)
    }

    /** The struct's default constructor. */
    constructor()
      ensures State() == DEFAULTS && ParamsOk(State())
    {
      consonance, precision, pace, density, rootNote, tempo := 128, 3, 69, 255, 0, 120.0;
    }

    /** `initContextParams`: back to the defaults. */
    method Init()
      modifies this
      ensures State() == DEFAULTS
    {
      consonance, precision, pace, density, rootNote, tempo := 128, 3, 69, 255, 0, 120.0;
    }

    /** `setContextParam`. */
    method SetContextParam(name: Option<string>, value: int) returns (ok: bool)
      requires IsU8(value)
      modifies this
      ensures (State(), ok) == SetParam(old(State()), name, value)
    {
      if name.None? {
        return false;
      }
      var n := name.value;
      if n == "consonance" {
        consonance := value;
        return true;
      } else if n == "precision" {
        precision := value;
        return true;
      } else if n == "pace" {
        pace := value;
        return true;
      } else if n == "density" {
        density := value;
        return true;
      } else if n == "root_note" {
        rootNote := value % 12;
        return true;
      }
      return false;
    }

    /** `setTempo`. */
    method SetTempo(t: real) returns (ok: bool)
      modifies this
      ensures (State(), ok) == ApplyTempo(old(State()), t)
    {
      if t < 30.0 || t > 300.0 {
        return false;
      }
      tempo := t;
      return true;
    }

    /** `updateFromPacket`: reads the first five bytes of the caller's buffer. */
    method UpdateFromPacket(packetData: array<int>)
      requires packetData.Length >= 5 && forall i :: 0 <= i < 5 ==> IsU8(packetData[i])
      modifies this
      ensures State() == FromPacket(old(State()), packetData[..])
    {
      consonance := packetData[0];
      precision := packetData[1];
      pace := packetData[2];
      density := packetData[3];
      rootNote := packetData[4] % 12;
    }

    /** `getPacketData`: writes the first five bytes of the caller's buffer and nothing else. */
    method GetPacketData(packetData: array<int>)
      requires packetData.Length >= 5
      modifies packetData
      ensures packetData[..5] == PacketOf(State())
      ensures packetData[5..] == old(packetData[5..])
    {
      packetData[0] := consonance;
      packetData[1] := precision;
      packetData[2] := pace;
      packetData[3] := density;
      packetData[4] := rootNote;
    }
  }
}

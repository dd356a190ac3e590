/**
 * Type-length-value records of oscar/tlv.go: a 2-byte type, a 2-byte data
 * length and the data, all big-endian, and lists of them read until the
 * input is exhausted.
 */
module Tlv {
  import opened Wire

  datatype TLV = TLV(typ: uint16, dataLength: uint16, data: bytes)

  /** A record whose declared length is exactly its data's length. */
  predicate WellFormed(t: TLV) {
    t.dataLength == |t.data|
  }

  predicate AllWellFormed(ts: seq<TLV>) {
    forall i :: 0 <= i < |ts| ==> WellFormed(ts[i])
  }

  /** `NewTLV`: the declared length is `uint16(len(data))`. */
  function NewTLV(typ: uint16, data: bytes): (t: TLV)
    ensures t.typ == typ && t.data == data
    ensures t.dataLength == |data| % 0x1_0000
    ensures |data| <= 0xffff ==> WellFormed(t)
  {
    TLV(typ, Trunc16(|data|), data)
  }

  /** `Len`: bytes the record occupies on the wire. */
  function Len(t: TLV): (n: nat)
    ensures n >= 4
    ensures WellFormed(t) ==> n == 4 + |t.data|
  {
    4 + t.dataLength
  }

  /** `copy` into a zeroed slice of length `n`: truncates or pads with zeros. */
  function Fit(data: bytes, n: nat): (r: bytes)
    ensures |r| == n
    ensures |data| >= n ==> r == data[..n]
    ensures |data| < n ==> r[..|data|] == data
  {
    if |data| >= n then data[..n] else data + seq(n - |data|, _ => 0)
  }

  /** `MarshalBinary`: type, declared length, then exactly that many data bytes. */
  function Marshal(t: TLV): (r: bytes)
    ensures |r| == Len(t)
  {
    Be16(t.typ) + Be16(t.dataLength) + Fit(t.data, t.dataLength)
  }

  /** The marshalled records one after another. */
  function MarshalAll(ts: seq<TLV>): (r: bytes)
    ensures |r| >= 4 * |ts|
    ensures r == [] <==> ts == []
  {
    if ts == [] then [] else Marshal(ts[0]) + MarshalAll(ts[1..])
  }

  /**
   * `UnmarshalBinary`: `None` (io.ErrUnexpectedEOF) when the input is shorter
   * than the 4-byte header or than the header plus the declared length;
   * bytes after the record are ignored.
   */
  function Unmarshal(data: bytes): (r: Option<TLV>)
    ensures r.Some? <==> |data| >= 4 && |data| >= 4 + Uint16At(data[2..])
    ensures r.Some? ==> WellFormed(r.value) && Len(r.value) <= |data|
    ensures r.Some? ==> r.value.typ == Uint16At(data) && r.value.data == data[4..Len(r.value)]
  {
    if |data| < 4 then None
    else
      var typ := Uint16At(data);
      var len := Uint16At(data[2..]);
      if |data| < 4 + len then None
      else Some(TLV(typ, len, data[4..4 + len]))
  }

  /** `UnmarshalTLVs` as a function: all records in order, or `None` if any is truncated. */
  function ParseAll(data: bytes): (r: Option<seq<TLV>>)
    ensures 0 < |data| < 4 ==> r.None?
    ensures r.Some? ==> 4 * |r.value| <= |data| && forall i :: 0 <= i < |r.value| ==> WellFormed(r.value[i])
    decreases |data|
  {
    if |data| == 0 then Some([])
    else match Unmarshal(data)
      case None => None
      case Some(t) =>
        match ParseAll(data[Len(t)..])
        case None => None
        case Some(rest) => Some([t] + rest)
  }

  function Prepend(p: seq<TLV>, r: Option<seq<TLV>>): Option<seq<TLV>> {
    match r
    case None => None
    case Some(l) => Some(p + l)
  }

  /**
   * `UnmarshalTLVs`: reads records until the input is exhausted; any
   * truncated record makes the whole call fail with an empty (nil) result.
   */
  method UnmarshalTLVs(data: bytes) returns (tlvs: seq<TLV>, err: bool)
    ensures err <==> ParseAll(data).None?
    ensures err ==> tlvs == []
    ensures !err ==> ParseAll(data) == Some(tlvs) && AllWellFormed(tlvs)
  {
    tlvs := [];
    var d := data;
    assert ParseAll(data).Some? ==> [] + ParseAll(data).value == ParseAll(data).value;
    while |d| > 0
      invariant ParseAll(data) == Prepend(tlvs, ParseAll(d))
      invariant AllWellFormed(tlvs)
      decreases |d|
    {
      var tlv := Unmarshal(d);
      if tlv.None? {
        return [], true;
      }
      assert ParseAll(d) == Prepend([tlv.value], ParseAll(d[Len(tlv.value)..]));
      assert forall l :: (tlvs + [tlv.value]) + l == tlvs + ([tlv.value] + l);
      tlvs := tlvs + [tlv.value];
      d := d[Len(tlv.value)..];
    }
    assert tlvs + [] == tlvs;
    err := false;
  }

  /** Index of the first record of type `typ`, or `|ts|` when there is none. */
  function FirstIndex(ts: seq<TLV>, typ: uint16): (i: nat)
    ensures i <= |ts|
    ensures forall j :: 0 <= j < i ==> ts[j].typ != typ
    ensures i < |ts| ==> ts[i].typ == typ
  {
    if ts == [] then 0
    else if ts[0].typ == typ then 0
    else 1 + FirstIndex(ts[1..], typ)
  }

  /** `FindTLV`: the first record of the requested type, or nil (`None`). */
  function Find(ts: seq<TLV>, typ: uint16): (r: Option<TLV>)
    ensures r.None? <==> forall j :: 0 <= j < |ts| ==> ts[j].typ != typ
    ensures r.Some? ==> r.value.typ == typ && r.value in ts
    ensures r.Some? ==> exists i :: 0 <= i < |ts| && ts[i] == r.value && forall j :: 0 <= j < i ==> ts[j].typ != typ
  {
    var i := FirstIndex(ts, typ);
    if i < |ts| then Some(ts[i]) else None
  }

  /** Marshalling a record of at most 65535 bytes and unmarshalling it gives it back. */
  lemma MarshalRoundTrip(t: TLV, rest: bytes)
    requires WellFormed(t)
    ensures Unmarshal(Marshal(t) + rest) == Some(t)
  {
    var s := Marshal(t) + rest;
    assert s == Be16(t.typ) + (Be16(t.dataLength) + (t.data + rest));
    Be16RoundTrip(t.typ, Be16(t.dataLength) + (t.data + rest));
    assert s[2..] == Be16(t.dataLength) + (t.data + rest);
    Be16RoundTrip(t.dataLength, t.data + rest);
    assert s[4..4 + t.dataLength] == t.data;
  }

  /** The list of marshalled well-formed records parses back to that list, in order. */
  lemma {:induction false} MarshalAllRoundTrip(ts: seq<TLV>)
    requires AllWellFormed(ts)
    ensures ParseAll(MarshalAll(ts)) == Some(ts)
  {
    if ts != [] {
      var s := MarshalAll(ts);
      MarshalRoundTrip(ts[0], MarshalAll(ts[1..]));
      assert s[Len(ts[0])..] == MarshalAll(ts[1..]);
      MarshalAllRoundTrip(ts[1..]);
      assert [ts[0]] + ts[1..] == ts;
    }
  }

  /**
   * A stream of whole records followed by a record cut short anywhere
   * (after at least one byte) does not parse: no partial list is returned.
   */
  lemma {:induction false} TruncatedTailFails(ts: seq<TLV>, t: TLV, k: nat)
    requires AllWellFormed(ts) && WellFormed(t)
    requires 0 < k < Len(t)
    ensures ParseAll(MarshalAll(ts) + Marshal(t)[..k]) == None
  {
    if ts == [] {
      assert MarshalAll(ts) + Marshal(t)[..k] == Marshal(t)[..k];
      CutRecordFails(t, k);
    } else {
      var rest := MarshalAll(ts[1..]) + Marshal(t)[..k];
      TruncatedTailFails(ts[1..], t, k);
      AppendAssoc(Marshal(ts[0]), MarshalAll(ts[1..]), Marshal(t)[..k]);
      WholeThenFails(ts[0], rest);
    }
  }

  /** A record cut short after at least one byte does not parse. */
  lemma CutRecordFails(t: TLV, k: nat)
    requires WellFormed(t) && 0 < k < Len(t)
    ensures ParseAll(Marshal(t)[..k]) == None
  {
    var s := Marshal(t)[..k];
    if |s| >= 4 {
      assert s[2..] == Be16(t.dataLength) + Marshal(t)[4..k];
      Be16RoundTrip(t.dataLength, Marshal(t)[4..k]);
    }
  }

  /** A whole record in front of bytes that do not parse does not rescue them. */
  lemma WholeThenFails(t: TLV, rest: bytes)
    requires WellFormed(t) && ParseAll(rest) == None
    ensures ParseAll(Marshal(t) + rest) == None
  {
    MarshalRoundTrip(t, rest);
    assert (Marshal(t) + rest)[Len(t)..] == rest;
  }

  /** A record read from the front of `data` re-marshals to the bytes it was read from. */
  lemma UnmarshalInverse(data: bytes)
    requires Unmarshal(data).Some?
    ensures Marshal(Unmarshal(data).value) == data[..Len(Unmarshal(data).value)]
  {
    var t := Unmarshal(data).value;
    Uint16AtInverse(data);
    Uint16AtInverse(data[2..]);
    assert data[..Len(t)] == data[..2] + data[2..][..2] + t.data;
  }

  /** Marshalling two record lists one after the other is marshalling their concatenation. */
  lemma {:induction false} MarshalAllAppend(ts: seq<TLV>, us: seq<TLV>)
    ensures MarshalAll(ts + us) == MarshalAll(ts) + MarshalAll(us)
  {
    if ts == [] {
      assert ts + us == us;
    } else {
      assert (ts + us)[1..] == ts[1..] + us;
      MarshalAllAppend(ts[1..], us);
    }
  }

  /** One step of `ParseAll` on non-empty input that parses. */
  lemma ParseAllStep(data: bytes)
    requires |data| > 0 && ParseAll(data).Some?
    ensures Unmarshal(data).Some? && ParseAll(data[Len(Unmarshal(data).value)..]).Some?
    ensures ParseAll(data).value == [Unmarshal(data).value] + ParseAll(data[Len(Unmarshal(data).value)..]).value
  {
  }

  lemma ConsWellFormed(t: TLV, tail: seq<TLV>)
    requires WellFormed(t) && AllWellFormed(tail)
    ensures AllWellFormed([t] + tail)
  {
    var ts := [t] + tail;
    forall i | 0 <= i < |ts|
      ensures WellFormed(ts[i])
    {
      if i > 0 {
        assert ts[i] == tail[i - 1];
      }
    }
  }

  lemma MarshalCons(data: bytes, t: TLV, tail: seq<TLV>)
    requires Len(t) <= |data| && Marshal(t) == data[..Len(t)] && MarshalAll(tail) == data[Len(t)..]
    ensures MarshalAll([t] + tail) == data
  {
    var ts := [t] + tail;
    assert ts[0] == t && ts[1..] == tail;
    assert data == data[..Len(t)] + data[Len(t)..];
  }

  /** A parsed list re-marshals to exactly the bytes it came from. */
  lemma {:induction false} ParseAllInverse(data: bytes)
    requires ParseAll(data).Some?
    ensures AllWellFormed(ParseAll(data).value)
    ensures MarshalAll(ParseAll(data).value) == data
    decreases |data|
  {
    if |data| > 0 {
      ParseAllStep(data);
      var t := Unmarshal(data).value;
      var rest := data[Len(t)..];
      ParseAllInverse(rest);
      ConsWellFormed(t, ParseAll(rest).value);
      UnmarshalInverse(data);
      MarshalCons(data, t, ParseAll(rest).value);
    }
  }
}

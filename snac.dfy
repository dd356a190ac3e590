/**
 * The SNAC envelope of oscar/snac.go: a 10-byte big-endian header (family,
 * subtype, flags, request id) followed by the body, which is kept in a
 * cursor `Buffer`.
 */
module Snac {
  import opened Wire
  import opened OscarBuffer
  import Tlv

  datatype SnacHeader = SnacHeader(family: uint16, subtype: uint16, flags: uint16, requestId: uint32)

  /** The header as `binary.Write` lays out the struct: 2 + 2 + 2 + 4 bytes. */
  function HeaderBytes(h: SnacHeader): (r: bytes)
    ensures |r| == 10
  {
    Be16(h.family) + Be16(h.subtype) + Be16(h.flags) + Be32(h.requestId)
  }

  /** `binary.Read` of the header: fails when fewer than 10 bytes are present. */
  function ParseHeader(input: bytes): (r: Option<SnacHeader>)
    ensures r.Some? <==> |input| >= 10
  {
    if |input| < 10 then None
    else Some(SnacHeader(Uint16At(input), Uint16At(input[2..]), Uint16At(input[4..]), Uint32At(input[6..])))
  }

  /** The wire form of a SNAC with header `h` and body `body`. */
  function Encode(h: SnacHeader, body: bytes): (r: bytes)
    ensures |r| == 10 + |body| && r[10..] == body
  {
    HeaderBytes(h) + body
  }

  lemma HeaderRoundTrip(h: SnacHeader, body: bytes)
    ensures ParseHeader(Encode(h, body)) == Some(h)
    ensures Encode(h, body)[10..] == body
  {
    var s := Encode(h, body);
    assert s == Be16(h.family) + (Be16(h.subtype) + (Be16(h.flags) + (Be32(h.requestId) + body)));
    Be16RoundTrip(h.family, Be16(h.subtype) + (Be16(h.flags) + (Be32(h.requestId) + body)));
    assert s[2..] == Be16(h.subtype) + (Be16(h.flags) + (Be32(h.requestId) + body));
    Be16RoundTrip(h.subtype, Be16(h.flags) + (Be32(h.requestId) + body));
    assert s[4..] == Be16(h.flags) + (Be32(h.requestId) + body);
    Be16RoundTrip(h.flags, Be32(h.requestId) + body);
    assert s[6..] == Be32(h.requestId) + body;
    Be32RoundTrip(h.requestId, body);
  }

  class Snac {
    var header: SnacHeader
    /** The body, a cursor buffer (Go embeds it by value). */
    const data: Buffer

    /** `NewSNAC`: flags and request id 0, empty body. */
    constructor NewSNAC(family: uint16, subtype: uint16)
      ensures header == SnacHeader(family, subtype, 0, 0)
      ensures fresh(data) && data.d == []
    {
      header := SnacHeader(family, subtype, 0, 0);
      data := new Buffer();
    }

    /** The zero value `&SNAC{}`. */
    constructor Empty()
      ensures header == SnacHeader(0, 0, 0, 0)
      ensures fresh(data) && data.d == []
    {
      header := SnacHeader(0, 0, 0, 0);
      data := new Buffer();
    }

    /** `MarshalBinary`: the 10-byte header then the unread body; it never fails. */
    function MarshalBinary(): (r: bytes)
      reads this, data
      ensures |r| == 10 + |data.d|
    {
      Encode(header, data.d)
    }

    /**
     * `UnmarshalBinary`: on fewer than 10 bytes it fails and changes nothing;
     * otherwise it sets the header and APPENDS the rest to the existing body.
     */
    method UnmarshalBinary(input: bytes) returns (err: bool)
      modifies this, data
      ensures err <==> |input| < 10
      ensures err ==> header == old(header) && data.d == old(data.d)
      ensures !err ==> Some(header) == ParseHeader(input) && data.d == old(data.d) + input[10..]
    {
      var h := ParseHeader(input);
      if h.None? {
        return true;
      }
      header := h.value;
      var _, _ := data.Write(input[10..]);
      err := false;
    }

    /** `WriteTLV`: appends one marshalled record. */
    method WriteTLV(t: Tlv.TLV)
      modifies data
      ensures data.d == old(data.d) + Tlv.Marshal(t)
    {
      var _, _ := data.Write(Tlv.Marshal(t));
    }

    /** `AppendTLVs`: a 2-byte record count, then each marshalled record in order. */
    method AppendTLVs(ts: seq<Tlv.TLV>)
      modifies data
      ensures data.d == old(data.d) + Be16(Trunc16(|ts|)) + Tlv.MarshalAll(ts)
    {
      data.WriteUint16(Trunc16(|ts|));
      ghost var start := data.d;
      var i := 0;
      while i < |ts|
        invariant 0 <= i <= |ts|
        invariant data.d == start + Tlv.MarshalAll(ts[..i])
      {
        var b := Tlv.Marshal(ts[i]);
        var _, _ := data.Write(b);
        AppendStep(start, ts, i);
        i := i + 1;
      }
      assert ts[..|ts|] == ts;
    }
  }

  lemma AppendStep(start: bytes, ts: seq<Tlv.TLV>, i: nat)
    requires i < |ts|
    ensures (start + Tlv.MarshalAll(ts[..i])) + Tlv.Marshal(ts[i]) == start + Tlv.MarshalAll(ts[..i + 1])
  {
    MarshalAllSnoc(ts[..i], ts[i]);
    assert ts[..i + 1] == ts[..i] + [ts[i]];
  }

  lemma {:induction false} MarshalAllSnoc(ts: seq<Tlv.TLV>, t: Tlv.TLV)
    ensures Tlv.MarshalAll(ts + [t]) == Tlv.MarshalAll(ts) + Tlv.Marshal(t)
  {
    Tlv.MarshalAllAppend(ts, [t]);
    assert Tlv.MarshalAll([t]) == Tlv.Marshal(t) + Tlv.MarshalAll([]);
  }

  /**
   * Marshalling a SNAC and unmarshalling the bytes into a fresh `&SNAC{}`
   * (as the server does per data frame) recovers the header and the body.
   */
  method MarshalThenUnmarshal(h: SnacHeader, body: bytes) returns (err: bool, h': SnacHeader, body': bytes)
    ensures !err && h' == h && body' == body
  {
    var s := new Snac.NewSNAC(h.family, h.subtype);
    s.header := h;
    var _, _ := s.data.Write(body);
    var wire := s.MarshalBinary();
    var r := new Snac.Empty();
    err := r.UnmarshalBinary(wire);
    HeaderRoundTrip(h, body);
    h', body' := r.header, r.data.Bytes();
  }
}

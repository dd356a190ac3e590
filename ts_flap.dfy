// src/structures/FLAP.ts: the TypeScript FLAP frame. Channel, sequence
// number and length are read AND written as signed values; a channel-2
// payload is decoded as a SNAC, which runs the SNAC constructor and so may
// take the request-id counter (threaded here as `next`).

module TsFlap {
  import opened Wire
  import opened NodeBuffer
  import TsTlv
  import opened TsSnac

  /** A FLAP payload is a raw Buffer or a SNAC. */
  datatype FlapPayload = Data(data: bytes) | Framed(snac: Snac)

  datatype Flap = Flap(channel: int, sequenceNumber: int, payload: FlapPayload, payloadLength: int)

  /** The payload's bytes: the Buffer, or the SNAC's `toBuffer`. */
  function PayloadBytes(p: FlapPayload): Outcome<bytes> {
    match p
    case Data(d) => Ok(d)
    case Framed(s) => ToBuffer(s)
  }

  /** The constructor: `payloadLength` is the length of the SNAC's `toBuffer`
      (which throws for a SNAC that cannot be written) or of the Buffer. */
  function NewFlap(channel: int, sequenceNumber: int, payload: FlapPayload): (r: Outcome<Flap>)
    ensures r.Ok? <==> PayloadBytes(payload).Ok?
    ensures r.Ok? ==> (r.value.channel == channel && r.value.sequenceNumber == sequenceNumber
                       && r.value.payload == payload && r.value.payloadLength == |PayloadBytes(payload).value|)
    ensures payload.Data? ==> r == Ok(Flap(channel, sequenceNumber, payload, |payload.data|))
  {
    var b := PayloadBytes(payload);
    if b.Throws? then Throws else Ok(Flap(channel, sequenceNumber, payload, |b.value|))
  }

  /** `toBuffer`: `0x2a`, the signed 8-bit channel, the signed 16-bit
      sequence number and length, then the payload bytes. */
  function ToBytes(f: Flap): (r: Outcome<bytes>)
    ensures r.Ok? <==> (-0x80 <= f.channel < 0x80 && -0x8000 <= f.sequenceNumber < 0x8000
                        && -0x8000 <= f.payloadLength < 0x8000 && PayloadBytes(f.payload).Ok?)
    ensures r.Ok? ==> (|r.value| == 6 + |PayloadBytes(f.payload).value| && r.value[0] == 0x2a
                       && ReadInt8(r.value[1]) == f.channel && ReadInt16(r.value[2..]) == f.sequenceNumber
                       && ReadInt16(r.value[4..]) == f.payloadLength && r.value[6..] == PayloadBytes(f.payload).value)
  {
    var header := Cat(Cat(Cat(WriteInt8(0x2a), WriteInt8(f.channel)), WriteInt16(f.sequenceNumber)), WriteInt16(f.payloadLength));
    var r := Cat(header, PayloadBytes(f.payload));
    if r.Ok? then
      var b := r.value;
      assert b[2..] == WriteInt16(f.sequenceNumber).value + WriteInt16(f.payloadLength).value + PayloadBytes(f.payload).value;
      assert b[4..] == WriteInt16(f.payloadLength).value + PayloadBytes(f.payload).value;
      r
    else r
  }

  /** A frame built by the constructor is written as 6 + `payloadLength` bytes. */
  lemma ConstructedLength(channel: int, sequenceNumber: int, payload: FlapPayload)
    requires NewFlap(channel, sequenceNumber, payload).Ok?
    requires ToBytes(NewFlap(channel, sequenceNumber, payload).value).Ok?
    ensures |ToBytes(NewFlap(channel, sequenceNumber, payload).value).value| == 6 + NewFlap(channel, sequenceNumber, payload).value.payloadLength
  {
  }

  /** `FLAP.fromBuffer(buf)` with the counter at `next`: the assertions fail
      unless the first byte is 0x2a and six bytes are present; channel,
      sequence number and length are read signed; the payload is
      `slice(6, 6 + len)`, decoded as a SNAC on channel 2; the constructor
      then recomputes `payloadLength`. */
  function FromBytes(next: int, buf: bytes, blob: bytes -> Outcome<seq<TsTlv.Tlv>>): (r: Outcome<(Flap, int)>)
    ensures |buf| < 6 || buf[0] != 0x2a ==> r == Throws
    ensures r.Ok? ==> (r.value.0.channel == ReadInt8(buf[1]) && r.value.0.sequenceNumber == ReadInt16(buf[2..])
                       && (r.value.0.channel != 2 <==> r.value.0.payload.Data?))
    ensures r.Ok? && ReadInt8(buf[1]) != 2 ==> r.value.1 == next
  {
    if |buf| == 0 || buf[0] != 0x2a || |buf| < 6 then Throws
    else
      var channel := ReadInt8(buf[1]);
      var sequenceNumber := ReadInt16(buf[2..4]);
      var len := ReadInt16(buf[4..6]);
      var data := Slice(buf, 6, 6 + len);
      if channel == 2 then
        match Parse(next, data, len, blob)
        case Throws => Throws
        case Ok((s, next')) =>
          match NewFlap(channel, sequenceNumber, Framed(s))
          case Throws => Throws
          case Ok(f) => Ok((f, next'))
      else
        Ok((NewFlap(channel, sequenceNumber, Data(data)).value, next))
  }

  /** What `fromBuffer` reads from the bytes of a frame, whatever follows them. */
  lemma FrameFields(f: Flap, rest: bytes)
    requires ToBytes(f).Ok? && f.payloadLength == |PayloadBytes(f.payload).value|
    ensures var buf := ToBytes(f).value + rest;
      && |buf| >= 6 && buf[0] == 0x2a && ReadInt8(buf[1]) == f.channel
      && ReadInt16(buf[2..4]) == f.sequenceNumber && ReadInt16(buf[4..6]) == f.payloadLength
      && Slice(buf, 6, 6 + f.payloadLength) == PayloadBytes(f.payload).value
  {
    var b := ToBytes(f).value;
    var buf := b + rest;
    assert buf[2..4] == b[2..][..2] && buf[4..6] == b[4..][..2];
    assert buf[6..6 + f.payloadLength] == b[6..];
  }

  /** A frame with a raw payload off channel 2 and header fields in the
      signed ranges comes back from its own bytes, whatever follows them. */
  lemma DataRoundTrip(channel: int, sequenceNumber: int, data: bytes, rest: bytes, next: int, blob: bytes -> Outcome<seq<TsTlv.Tlv>>)
    requires -0x80 <= channel < 0x80 && channel != 2
    requires -0x8000 <= sequenceNumber < 0x8000 && |data| < 0x8000
    ensures var f := NewFlap(channel, sequenceNumber, Data(data)).value;
      ToBytes(f).Ok? && FromBytes(next, ToBytes(f).value + rest, blob) == Ok((f, next))
  {
    var f := NewFlap(channel, sequenceNumber, Data(data)).value;
    FrameFields(f, rest);
  }

  /** A channel-2 frame carrying a SNAC with one of the raw pairs comes back
      with the same SNAC (two flag bytes) and length, without taking the
      counter, whatever follows it. */
  lemma SnacRoundTrip(sequenceNumber: int, s: Snac, rest: bytes, next: int, blob: bytes -> Outcome<seq<TsTlv.Tlv>>)
    requires -0x8000 <= sequenceNumber < 0x8000
    requires Encodable(s) && RawPair(s.service, s.subtype) && s.payload.Raw?
    requires 0 < s.requestId < 0x8000_0000 && |s.flags| == 2 && |TsSnac.ToBuffer(s).value| < 0x8000
    ensures var f := NewFlap(2, sequenceNumber, Framed(s)).value;
      ToBytes(f).Ok? && FromBytes(next, ToBytes(f).value + rest, blob) == Ok((f, next))
  {
    var f := NewFlap(2, sequenceNumber, Framed(s)).value;
    var sb := TsSnac.ToBuffer(s).value;
    FrameFields(f, rest);
    RawRoundTrip(s, next, |sb|, blob);
    assert s.(flags := FlagField(s.flags)) == s;
    assert Parse(next, sb, |sb|, blob) == Ok((s, next));
  }

  /** The two frames of the second test case in tests/data-structures.ts:
      a FLAP header announcing 10 bytes, then a 10-byte SNAC. */
  const FirstHeader: bytes := [0x2a, 0x02, 0x4b, 0x11, 0x00, 0x0a]
  const FirstSnac: bytes := [0x00, 0x01, 0x00, 0x0e, 0, 0, 0, 0, 0, 0]
  const SecondFrame: bytes := [0x2a, 0x02, 0x4b, 0x12, 0x00, 0x0a, 0x00, 0x02, 0x00, 0x02, 0, 0, 0, 0, 0, 0]

  /** The first SNAC: service 1, subtype 0x0e (a raw pair), request id 0. */
  lemma FirstSnacParse(next: int, blob: bytes -> Outcome<seq<TsTlv.Tlv>>)
    ensures Parse(next, FirstSnac, 10, blob) == Ok((Snac(1, 0x0e, Raw([]), next, [0, 0]), next + 1))
  {
    var b := FirstSnac;
    assert b[0..2] == [0x00, 0x01] && b[2..4] == [0x00, 0x0e] && b[4..6] == [0, 0] && b[6..10] == [0, 0, 0, 0];
    assert ReadInt32(b[6..10]) == 0;
    assert Slice(b, 10, 20) == [];
  }

  /** The test reads the first frame: channel 2, `payloadLength` 10, and the
      SNAC (1, 0x0e) with an empty raw payload; its zero request id takes the
      counter. */
  lemma ConsumesFirstMessage(next: int, blob: bytes -> Outcome<seq<TsTlv.Tlv>>)
    requires FirstRequestId <= next < 0x1_0000_0000
    ensures var r := FromBytes(next, FirstHeader + FirstSnac + SecondFrame, blob);
      && r.Ok? && r.value.0.channel == 2 && r.value.0.payloadLength == 10
      && r.value.0.payload == Framed(Snac(1, 0x0e, Raw([]), next, [0, 0]))
      && r.value.1 == next + 1
  {
    var data := FirstHeader + FirstSnac + SecondFrame;
    assert data[..6] == FirstHeader && data[6..16] == FirstSnac;
    assert data[1] == 2 && data[2..4] == [0x4b, 0x11] && data[4..6] == [0x00, 0x0a];
    assert Slice(data, 6, 16) == FirstSnac;
    FirstSnacParse(next, blob);
    var s := Snac(1, 0x0e, Raw([]), next, [0, 0]);
    assert |TsSnac.ToBuffer(s).value| == 10;
  }

  /** The first test case in tests/data-structures.ts: a channel-2 frame
      around `new SNAC(0x17, 0x06, [new TLV(0x01, "toof")])` has service 23,
      subtype 6 and a one-element TLV payload. */
  lemma AuthRequestExample(next: int)
    requires FirstRequestId <= next < 0x1_0000_0000
    ensures var s := Make(next, 0x17, 0x06, Tlvs([TsTlv.Tlv(0x01, [0x74, 0x6f, 0x6f, 0x66])]), 0, FlagsEmpty).0;
      var f := NewFlap(0x02, 0, Framed(s));
      && f.Ok? && f.value.channel == 2 && f.value.payload.Framed?
      && f.value.payload.snac.service == 23 && f.value.payload.snac.subtype == 6
      && f.value.payload.snac.payload.Tlvs? && |f.value.payload.snac.payload.items| == 1
  {
  }
}

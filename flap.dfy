/**
 * The FLAP frame of flap.go: the marker byte 0x2a, then a 5-byte big-endian
 * header (channel, sequence number, data length), then the payload.  The
 * payload is kept in a cursor `Buffer` (the same buffer as oscar/buf.go).
 */
module Flap {
  import opened Wire
  import opened OscarBuffer

  const Marker: uint8 := 0x2a

  datatype FlapHeader = FlapHeader(channel: uint8, sequence: uint16, dataLength: uint16)

  /** Why `UnmarshalBinary` fails. */
  datatype FlapError =
    | EmptyInput        // `ReadByte` on no input: io.EOF
    | MissingMarker     // "FLAP missing 0x2a header"
    | NoHeader          // `binary.Read` with no bytes after the marker: io.EOF
    | ShortHeader       // `binary.Read` with 1 to 4 bytes after the marker: io.ErrUnexpectedEOF

  datatype Decoded = Decoded(header: FlapHeader, body: bytes)

  datatype Result = Ok(value: Decoded) | Err(error: FlapError)

  /** The header as `binary.Write` lays out the struct: 1 + 2 + 2 bytes. */
  function HeaderBytes(h: FlapHeader): (r: bytes)
    ensures |r| == 5
  {
    [h.channel] + Be16(h.sequence) + Be16(h.dataLength)
  }

  /** The wire form: marker, header, then the payload as given. */
  function Frame(h: FlapHeader, body: bytes): (r: bytes)
    ensures |r| == 6 + |body|
    ensures r[0] == Marker && r[6..] == body
  {
    [Marker] + HeaderBytes(h) + body
  }

  /**
   * What `UnmarshalBinary` reads from `input`: the header from bytes 1..5 and
   * the body as EVERYTHING after byte 5, whatever the declared length says.
   */
  function Decode(input: bytes): (r: Result)
    ensures r.Err? <==> |input| < 6 || input[0] != Marker
    ensures r.Err? ==> (r.error == EmptyInput <==> |input| == 0)
    ensures r.Err? ==> (r.error == MissingMarker <==> |input| > 0 && input[0] != Marker)
    ensures r.Ok? ==> r.value.body == input[6..]
  {
    if |input| == 0 then Err(EmptyInput)
    else if input[0] != Marker then Err(MissingMarker)
    else if |input| == 1 then Err(NoHeader)
    else if |input| < 6 then Err(ShortHeader)
    else Ok(Decoded(FlapHeader(input[1], Uint16At(input[2..]), Uint16At(input[4..])), input[6..]))
  }

  class Flap {
    var header: FlapHeader
    /** The payload (Go embeds the buffer by value). */
    const data: Buffer

    /** `NewFLAP`: sequence number and data length 0, empty payload. */
    constructor NewFLAP(channel: uint8)
      ensures header == FlapHeader(channel, 0, 0)
      ensures fresh(data) && data.d == []
    {
      header := FlapHeader(channel, 0, 0);
      data := new Buffer();
    }

    /** The zero value `&FLAP{}`. */
    constructor Empty()
      ensures header == FlapHeader(0, 0, 0)
      ensures fresh(data) && data.d == []
    {
      header := FlapHeader(0, 0, 0);
      data := new Buffer();
    }

    /** `Len`: the frame length the header declares. */
    function Len(): nat
      reads this
    {
      6 + header.dataLength
    }

    /**
     * `MarshalBinary`: stores `uint16(len(data))` as the declared length (even
     * when it then fails), and fails exactly when that truncation lost bytes,
     * since the byte count written then differs from the declared length.
     */
    method MarshalBinary() returns (out: bytes, err: bool)
      modifies this
      ensures header == old(header).(dataLength := Trunc16(|data.d|))
      ensures err <==> |data.d| > 0xffff
      ensures err ==> out == []
      ensures !err ==> out == Frame(header, data.d) && |out| == Len()
    {
      header := header.(dataLength := Trunc16(|data.d|));
      var buf := new Buffer();
      buf.WriteUint8(Marker);
      buf.WriteUint8(header.channel);
      buf.WriteUint16(header.sequence);
      buf.WriteUint16(header.dataLength);
      var n, werr := buf.Write(data.Bytes());
      if n != header.dataLength {
        return [], true;
      }
      if werr {
        return [], true;
      }
      assert buf.d == Frame(header, data.d);
      out := buf.Bytes();
      err := false;
    }

    /**
     * `UnmarshalBinary`: on an error the frame is left as it was; otherwise
     * the header is replaced and every byte after it is APPENDED to the payload.
     */
    method UnmarshalBinary(input: bytes) returns (err: Option<FlapError>)
      modifies this, data
      ensures err.Some? <==> Decode(input).Err?
      ensures err.Some? ==> err.value == Decode(input).error
      ensures err.Some? ==> header == old(header) && data.d == old(data.d)
      ensures err.None? ==> header == Decode(input).value.header && data.d == old(data.d) + input[6..]
    {
      var r := Decode(input);
      if r.Err? {
        return Some(r.error);
      }
      header := r.value.header;
      var _, _ := data.Write(r.value.body);
      err := None;
    }
  }

  /** Decoding the wire form of a frame recovers its header and payload exactly. */
  lemma DecodeFrame(h: FlapHeader, body: bytes)
    ensures Decode(Frame(h, body)) == Ok(Decoded(h, body))
  {
    var s := Frame(h, body);
    assert s[2..] == Be16(h.sequence) + (Be16(h.dataLength) + body);
    Be16RoundTrip(h.sequence, Be16(h.dataLength) + body);
    assert s[4..] == Be16(h.dataLength) + body;
    Be16RoundTrip(h.dataLength, body);
  }

  /** Every input that decodes is the wire form of what it decodes to. */
  lemma FrameOfDecode(input: bytes)
    requires Decode(input).Ok?
    ensures Frame(Decode(input).value.header, Decode(input).value.body) == input
  {
    var h := Decode(input).value.header;
    Uint16AtInverse(input[2..]);
    Uint16AtInverse(input[4..]);
    assert HeaderBytes(h) == input[1..6];
  }

  /** The decoded frame `2a 01 00 01 00 04 00 00 00 01` of flap_test.go. */
  lemma DecodeTestVector()
    ensures Decode([0x2a, 1, 0, 1, 0, 4, 0, 0, 0, 1]) == Ok(Decoded(FlapHeader(1, 1, 4), [0, 0, 0, 1]))
  {
    var s: bytes := [0x2a, 1, 0, 1, 0, 4, 0, 0, 0, 1];
    assert s[2..][0] == 0 && s[2..][1] == 1;
    assert s[4..][0] == 0 && s[4..][1] == 4;
  }

  /**
   * A channel-1 frame stamped with sequence number 1 and payload `00 00 00 01`
   * marshals to `2a 01 00 01 00 04 00 00 00 01`.
   */
  method MarshalTestVector() returns (out: bytes, err: bool)
    ensures !err && out == [0x2a, 1, 0, 1, 0, 4, 0, 0, 0, 1]
  {
    var f := new Flap.NewFLAP(1);
    f.header := f.header.(sequence := 1);
    var _, _ := f.data.Write([0, 0, 0, 1]);
    out, err := f.MarshalBinary();
  }

  /**
   * Marshalling a frame of at most 65535 payload bytes and unmarshalling the
   * result into `&FLAP{}` recovers channel, sequence number and payload, and
   * the declared length is the payload's length.
   */
  method MarshalThenUnmarshal(channel: uint8, sequence: uint16, body: bytes)
    returns (err: bool, h: FlapHeader, body': bytes)
    requires |body| <= 0xffff
    ensures !err && h == FlapHeader(channel, sequence, |body|) && body' == body
  {
    var f := new Flap.NewFLAP(channel);
    f.header := f.header.(sequence := sequence);
    var _, _ := f.data.Write(body);
    var wire;
    wire, err := f.MarshalBinary();
    var g := new Flap.Empty();
    DecodeFrame(f.header, body);
    var uerr := g.UnmarshalBinary(wire);
    h, body' := g.header, g.data.Bytes();
  }

  /** A payload longer than 65535 bytes cannot be marshalled. */
  method MarshalOversized(body: bytes) returns (err: bool)
    requires |body| > 0xffff
    ensures err
  {
    var f := new Flap.NewFLAP(2);
    var _, _ := f.data.Write(body);
    var out;
    out, err := f.MarshalBinary();
  }
}

// src/structures/TLV.ts: the TypeScript TLV (type, length, value) record.
// Unlike the Go codec it reads the type and the length as SIGNED 16-bit
// values and takes the payload with `slice`, so a short or oddly sized input
// never fails once the four header bytes are there.

module TsTlv {
  import opened Wire
  import opened NodeBuffer

  /** A TLV: its `type` and its `payload`; the `length` getter is `|payload|`. */
  datatype Tlv = Tlv(tlvType: int, payload: bytes)
  {
    function Length(): nat { |payload| }
  }

  /** `toBuffer`: u16 type, u16 length, payload. Throws when either header
      field is out of the unsigned 16-bit range. */
  function ToBuffer(t: Tlv): (r: Outcome<bytes>)
    ensures r.Ok? <==> 0 <= t.tlvType < 0x1_0000 && t.Length() < 0x1_0000
    ensures r.Ok? ==> (|r.value| == 4 + t.Length()
                       && Uint16At(r.value) == t.tlvType && Uint16At(r.value[2..]) == t.Length()
                       && r.value[4..] == t.payload)
  {
    var r := Cat(Cat(WriteUInt16(t.tlvType), WriteUInt16(t.Length())), Ok(t.payload));
    if r.Ok? then
      assert r.value[2..] == WriteUInt16(t.Length()).value + t.payload;
      r
    else r
  }

  /** `fromBuffer`: throws when fewer than four bytes are present (the header
      reads run past the end). Otherwise the type is read as a signed value
      and the payload is `slice(4, 4 + len)` with `len` signed too: a
      non-negative length takes that many bytes, or fewer when the input ends
      first; a length in -4..-1 gives an empty payload; one below -4 puts the
      end of the slice that many bytes (less four) before the end of the input. */
  function FromBuffer(b: bytes): (r: Outcome<Tlv>)
    ensures r.Ok? <==> |b| >= 4
    ensures r.Ok? ==> r.value.tlvType == ReadInt16(b)
    ensures r.Ok? ==> var len := ReadInt16(b[2..]);
      && (0 <= len ==> r.value.payload == if 4 + len <= |b| then b[4..4 + len] else b[4..])
      && (len < 0 ==> r.value.payload == if len < -4 && |b| + 4 + len > 4 then b[4..|b| + 4 + len] else [])
  {
    if |b| < 4 then Throws
    else Ok(Tlv(ReadInt16(b[0..2]), Slice(b, 4, 4 + ReadInt16(b[2..4]))))
  }

  /** Decoding the encoding of a TLV, followed by anything, gives it back when
      the type and the length fit the signed 16-bit range. */
  lemma RoundTrip(t: Tlv, rest: bytes)
    requires 0 <= t.tlvType < 0x8000 && t.Length() < 0x8000
    ensures ToBuffer(t).Ok? && FromBuffer(ToBuffer(t).value + rest) == Ok(t)
  {
    var b := ToBuffer(t).value + rest;
    assert b[..4 + t.Length()] == ToBuffer(t).value;
    assert b[2..] == ToBuffer(t).value[2..] + rest;
    assert b[4..4 + t.Length()] == t.payload;
  }

  /** A type at or above 0x8000 comes back negative. */
  lemma HighTypeReadsNegative(t: Tlv)
    requires 0x8000 <= t.tlvType < 0x1_0000 && t.Length() < 0x8000
    ensures ToBuffer(t).Ok? && FromBuffer(ToBuffer(t).value).value.tlvType == t.tlvType - 0x1_0000
  {
  }

  /** `forUsername`, `forBOSAddress`, `forCookie`: strings as bytes. */
  function ForUsername(username: bytes): Tlv { Tlv(0x01, username) }
  function ForBOSAddress(address: bytes): Tlv { Tlv(0x05, address) }
  function ForCookie(cookie: bytes): Tlv { Tlv(0x06, cookie) }

  /** `forError(code)`: `Buffer.from([0, code])` keeps the low 8 bits of the code. */
  function ForError(code: int): Tlv { Tlv(0x08, [0, code % 0x100]) }

  /** The factories' encodings: type 1, 5 or 6 followed by the string, and
      type 8 with a two-byte payload whose second byte is the code. */
  lemma FactoryEncodings(s: bytes, code: int)
    requires |s| < 0x1_0000
    ensures ToBuffer(ForUsername(s)) == Ok([0, 1] + Be16(|s|) + s)
    ensures ToBuffer(ForBOSAddress(s)) == Ok([0, 5] + Be16(|s|) + s)
    ensures ToBuffer(ForCookie(s)) == Ok([0, 6] + Be16(|s|) + s)
    ensures ToBuffer(ForError(code)) == Ok([0, 8, 0, 2, 0, code % 0x100])
  {
    assert Be16(1) == [0, 1] && Be16(5) == [0, 5] && Be16(6) == [0, 6];
    assert Be16(8) == [0, 8] && Be16(2) == [0, 2];
    var e := ForError(code);
    assert e.Length() == 2;
    assert ToBuffer(e).value == [0, 8] + [0, 2] + e.payload == [0, 8, 0, 2, 0, code % 0x100];
  }

  /** A TLV list marshalled in order (`ts.map(t => t.toBuffer())`). */
  function ListBytes(ts: seq<Tlv>): (r: Outcome<bytes>)
    ensures r.Ok? <==> forall i :: 0 <= i < |ts| ==> ToBuffer(ts[i]).Ok?
  {
    ConcatMap(ts, ToBuffer)
  }
}

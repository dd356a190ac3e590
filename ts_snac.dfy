// src/structures/SNAC.ts: the TypeScript SNAC record, its rate-limit
// payload structures and the module-level request-id counter.

module TsSnac {
  import opened Wire
  import opened NodeBuffer
  import opened TsTlv

  // ---- rate-limit structures ---------------------------------------------

  /** `RateClass`: an id, eight 32-bit levels and a one-byte status. */
  datatype RateClass = RateClass(
    id: int, windowSize: int, clearLevel: int, alertLevel: int, limitLevel: int,
    disconnectLevel: int, currentLevel: int, maxLevel: int, lastTime: int, currentStat: int)

  predicate IsU32(v: int) { 0 <= v < 0x1_0000_0000 }

  predicate RateClassInRange(c: RateClass) {
    0 <= c.id < 0x1_0000 && IsU32(c.windowSize) && IsU32(c.clearLevel) && IsU32(c.alertLevel)
    && IsU32(c.limitLevel) && IsU32(c.disconnectLevel) && IsU32(c.currentLevel)
    && IsU32(c.maxLevel) && IsU32(c.lastTime) && 0 <= c.currentStat < 0x100
  }

  /** The eight 32-bit fields of a rate class, in buffer order. */
  function Levels(c: RateClass): seq<int> {
    [c.windowSize, c.clearLevel, c.alertLevel, c.limitLevel, c.disconnectLevel, c.currentLevel, c.maxLevel, c.lastTime]
  }

  /** 32-bit values written one after the other. */
  function Be32s(vs: seq<uint32>): (r: bytes)
    ensures |r| == 4 * |vs|
  {
    if vs == [] then [] else Be32(vs[0]) + Be32s(vs[1..])
  }

  /** Value `i` of `Be32s(vs)` reads back at offset `4 * i`. */
  lemma {:induction false} Be32sAt(vs: seq<uint32>, tail: bytes, i: nat)
    requires i < |vs|
    ensures Uint32At((Be32s(vs) + tail)[4 * i..]) == vs[i]
    decreases i
  {
    var rest := Be32s(vs[1..]) + tail;
    assert Be32s(vs) + tail == Be32(vs[0]) + rest;
    if i == 0 {
      Be32RoundTrip(vs[0], rest);
    } else {
      Be32sAt(vs[1..], tail, i - 1);
      assert (Be32(vs[0]) + rest)[4 * i..] == rest[4 * (i - 1)..];
    }
  }

  /** `RateClass.toBuffer`: a 35-byte buffer with the u16 id at 0, the eight
      u32 fields at 2, 6, ..., 30 and the u8 status at 34; any field out of
      range throws. */
  function RateClassBytes(c: RateClass): (r: Outcome<bytes>)
    ensures r.Ok? <==> RateClassInRange(c)
    ensures r.Ok? ==> (|r.value| == 35 && Uint16At(r.value) == c.id
                       && (forall i :: 0 <= i < 8 ==> Uint32At(r.value[2 + 4 * i..]) == Levels(c)[i])
                       && r.value[34] == c.currentStat)
  {
    if RateClassInRange(c) then
      var b := Be16(c.id) + Be32s(Levels(c)) + [c.currentStat];
      forall i | 0 <= i < 8
        ensures Uint32At(b[2 + 4 * i..]) == Levels(c)[i]
      {
        Be32sAt(Levels(c), [c.currentStat], i);
        assert b[2 + 4 * i..] == (Be32s(Levels(c)) + [c.currentStat])[4 * i..];
      }
      Ok(b)
    else Throws
  }

  /** `RateGroupPair`: a (service, subtype) pair. */
  datatype RateGroupPair = RateGroupPair(service: int, subtype: int)

  /** `RateGroupPair.toBuffer`: two SIGNED 16-bit writes, 4 bytes. */
  function PairBytes(p: RateGroupPair): (r: Outcome<bytes>)
    ensures r.Ok? <==> -0x8000 <= p.service < 0x8000 && -0x8000 <= p.subtype < 0x8000
    ensures r.Ok? ==> |r.value| == 4 && ReadInt16(r.value) == p.service && ReadInt16(r.value[2..]) == p.subtype
  {
    var r := Cat(WriteInt16(p.service), WriteInt16(p.subtype));
    if r.Ok? then
      assert r.value[2..] == WriteInt16(p.subtype).value;
      r
    else r
  }

  /** `RatedServiceGroup`: a group id and its pairs. */
  datatype RatedServiceGroup = RatedServiceGroup(rateGroupId: int, pairs: seq<RateGroupPair>)

  predicate GroupInRange(g: RatedServiceGroup) {
    -0x8000 <= g.rateGroupId < 0x8000 && |g.pairs| < 0x8000
    && forall i :: 0 <= i < |g.pairs| ==> PairBytes(g.pairs[i]).Ok?
  }

  /** `RatedServiceGroup.toBuffer`: signed 16-bit id, signed 16-bit pair
      count at offset 2, then the pairs, 4 + 4n bytes. */
  function GroupBytes(g: RatedServiceGroup): (r: Outcome<bytes>)
    ensures r.Ok? <==> GroupInRange(g)
    ensures r.Ok? ==> (|r.value| == 4 + 4 * |g.pairs|
                       && ReadInt16(r.value) == g.rateGroupId && ReadInt16(r.value[2..]) == |g.pairs|)
  {
    var r := Cat(Cat(WriteInt16(g.rateGroupId), WriteInt16(|g.pairs|)), ConcatMap(g.pairs, PairBytes));
    if r.Ok? then
      ConcatMapSize(g.pairs, PairBytes, 4);
      assert r.value[2..] == WriteInt16(|g.pairs|).value + ConcatMap(g.pairs, PairBytes).value;
      r
    else r
  }

  /** Pair `k` of a group occupies bytes `4 + 4k` to `8 + 4k`. */
  lemma GroupPairAt(g: RatedServiceGroup, k: nat)
    requires GroupInRange(g) && k < |g.pairs|
    ensures GroupBytes(g).value[4 + 4 * k..8 + 4 * k] == PairBytes(g.pairs[k]).value
  {
    ConcatMapAt4(g.pairs, PairBytes, k);
    var head := WriteInt16(g.rateGroupId).value + WriteInt16(|g.pairs|).value;
    assert GroupBytes(g).value == head + ConcatMap(g.pairs, PairBytes).value;
  }

  /** `Rate`: a class with its service group. */
  datatype Rate = Rate(rateClass: RateClass, group: RatedServiceGroup)

  /** `Rate.toBuffer`: the class's 35 bytes, then the group's. */
  function RateBytes(rate: Rate): (r: Outcome<bytes>)
    ensures r.Ok? <==> RateClassInRange(rate.rateClass) && GroupInRange(rate.group)
    ensures r.Ok? ==> (|r.value| == 39 + 4 * |rate.group.pairs|
                       && r.value[..35] == RateClassBytes(rate.rateClass).value
                       && r.value[35..] == GroupBytes(rate.group).value)
  {
    Cat(RateClassBytes(rate.rateClass), GroupBytes(rate.group))
  }

  // ---- the SNAC ------------------------------------------------------------

  /** A SNAC payload is a raw Buffer or a TLV list. */
  datatype Payload = Raw(data: bytes) | Tlvs(items: seq<Tlv>)

  datatype Snac = Snac(service: int, subtype: int, payload: Payload, requestId: int, flags: bytes)

  /** `FLAGS_EMPTY`: four zero bytes. */
  const FlagsEmpty: bytes := [0, 0, 0, 0]

  /** The first request id the module-level counter hands out. */
  const FirstRequestId: int := 0x2000

  /** The constructor: `requestID || snacID++`, so a nonzero id is kept and a
      zero one takes the counter, which then advances. Returns the SNAC and
      the counter's new value. */
  function Make(next: int, service: int, subtype: int, payload: Payload, requestId: int, flags: bytes): (r: (Snac, int))
    ensures requestId != 0 ==> r.0.requestId == requestId && r.1 == next
    ensures requestId == 0 ==> r.0.requestId == next && r.1 == next + 1
    ensures r.0.service == service && r.0.subtype == subtype && r.0.payload == payload && r.0.flags == flags
  {
    if requestId != 0 then (Snac(service, subtype, payload, requestId, flags), next)
    else (Snac(service, subtype, payload, next, flags), next + 1)
  }

  /** Header bytes 4 and 5 after `set(flags, 4)` and the request-id write at
      6..9: the first two flag bytes, zero-filled when fewer are given. */
  function FlagField(flags: bytes): (r: bytes)
    ensures |r| == 2
    ensures |flags| >= 2 ==> r == flags[..2]
  {
    (flags + [0, 0])[..2]
  }

  /** The payload part of `toBuffer`: a Buffer copied as-is, a TLV list
      marshalled in order, nothing for an empty list. */
  function PayloadBytes(p: Payload): (r: Outcome<bytes>)
    ensures p.Raw? ==> r == Ok(p.data)
    ensures p == Tlvs([]) ==> r == Ok([])
    ensures p.Tlvs? ==> r == ListBytes(p.items)
  {
    match p
    case Raw(d) => Ok(d)
    case Tlvs(ts) => ListBytes(ts)
  }

  predicate Encodable(s: Snac) {
    0 <= s.service < 0x1_0000 && 0 <= s.subtype < 0x1_0000 && |s.flags| <= 6
    && IsU32(s.requestId) && PayloadBytes(s.payload).Ok?
  }

  /** `toBuffer`: a 10-byte header (u16 service, u16 subtype, flags at 4,
      u32 request id at 6) and the payload. `set` throws for flags longer
      than the six bytes left after offset 4. */
  function ToBuffer(s: Snac): (r: Outcome<bytes>)
    ensures r.Ok? <==> Encodable(s)
    ensures r.Ok? ==> (|r.value| == 10 + |PayloadBytes(s.payload).value|
                       && Uint16At(r.value) == s.service && Uint16At(r.value[2..]) == s.subtype
                       && r.value[4..6] == FlagField(s.flags) && Uint32At(r.value[6..]) == s.requestId
                       && r.value[10..] == PayloadBytes(s.payload).value)
  {
    var flags := if |s.flags| <= 6 then Ok(FlagField(s.flags)) else Throws;
    var header := Cat(Cat(Cat(WriteUInt16(s.service), WriteUInt16(s.subtype)), flags), WriteUInt32(s.requestId));
    var r := Cat(header, PayloadBytes(s.payload));
    if r.Ok? then
      HeaderLayout(WriteUInt16(s.service).value, WriteUInt16(s.subtype).value, flags.value, WriteUInt32(s.requestId).value, PayloadBytes(s.payload).value);
      r
    else r
  }

  /** Where each header field lands in `a + b + f + c + p`. */
  lemma HeaderLayout(a: bytes, b: bytes, f: bytes, c: bytes, p: bytes)
    requires |a| == 2 && |b| == 2 && |f| == 2 && |c| == 4
    ensures var w := a + b + f + c + p;
      && |w| == 10 + |p| && Uint16At(w) == Uint16At(a) && Uint16At(w[2..]) == Uint16At(b)
      && w[4..6] == f && Uint32At(w[6..]) == Uint32At(c) && w[10..] == p
  {
    var w := a + b + f + c + p;
    assert w[2..] == b + f + c + p;
    assert w[6..] == c + p;
    assert w[6..][2..] == c[2..] + p;
  }

  /** The nine (service, subtype) pairs whose payload `fromBuffer` keeps raw. */
  predicate RawPair(service: int, subtype: int) {
    || (service == 0x01 && subtype == 0x17)
    || (service == 0x01 && subtype == 0x14)
    || (service == 0x01 && subtype == 0x07)
    || (service == 0x01 && subtype == 0x08)
    || (service == 0x01 && subtype == 0x0e)
    || (service == 0x04 && subtype == 0x02)
    || (service == 0x09 && subtype == 0x04)
    || (service == 0x0a && subtype == 0x02)
    || (service == 0x04 && subtype == 0x06)
  }

  /** The payload `fromBuffer` takes: raw `slice(10, 10 + payloadLength)` for
      the nine pairs, otherwise the TLV list `blob` reads from the rest
      (`blob` stands for `TLV.fromBufferBlob`, which is not part of this model). */
  function ReadPayload(buf: bytes, payloadLength: int, blob: bytes -> Outcome<seq<Tlv>>): Outcome<Payload>
    requires |buf| >= 10
  {
    if RawPair(ReadInt16(buf), ReadInt16(buf[2..])) then Ok(Raw(Slice(buf, 10, 10 + payloadLength)))
    else if blob(buf[10..]).Ok? then Ok(Tlvs(blob(buf[10..]).value))
    else Throws
  }

  /** `SNAC.fromBuffer(buf, payloadLength)` with the counter at `next`:
      the assertion fails below 10 bytes; service, subtype and request id are
      read as SIGNED values; flags are bytes 4 and 5; then the constructor runs,
      so a request id of zero on the wire takes the counter. */
  function Parse(next: int, buf: bytes, payloadLength: int, blob: bytes -> Outcome<seq<Tlv>>): (r: Outcome<(Snac, int)>)
    ensures r.Ok? <==> |buf| >= 10 && (RawPair(ReadInt16(buf), ReadInt16(buf[2..])) || blob(buf[10..]).Ok?)
    ensures r.Ok? ==> (r.value.0.service == ReadInt16(buf) && r.value.0.subtype == ReadInt16(buf[2..])
                       && r.value.0.flags == buf[4..6])
    ensures r.Ok? && ReadInt32(buf[6..]) != 0 ==> r.value.0.requestId == ReadInt32(buf[6..]) && r.value.1 == next
    ensures r.Ok? && ReadInt32(buf[6..]) == 0 ==> r.value.0.requestId == next && r.value.1 == next + 1
  {
    if |buf| < 10 then Throws
    else
      var payload := ReadPayload(buf, payloadLength, blob);
      if payload.Throws? then Throws
      else Ok(Make(next, ReadInt16(buf[0..2]), ReadInt16(buf[2..4]), payload.value, ReadInt32(buf[6..10]), buf[4..6]))
  }

  /** A SNAC with one of the nine raw pairs, a raw payload and a request id
      that reads back positive comes back from its own encoding with its
      flags cut to two bytes, leaving the counter alone, whenever the length
      passed covers the payload. */
  lemma RawRoundTrip(s: Snac, next: int, payloadLength: int, blob: bytes -> Outcome<seq<Tlv>>)
    requires Encodable(s) && RawPair(s.service, s.subtype) && s.payload.Raw?
    requires 0 < s.requestId < 0x8000_0000 && payloadLength >= |s.payload.data|
    ensures Parse(next, ToBuffer(s).value, payloadLength, blob) == Ok((s.(flags := FlagField(s.flags)), next))
  {
    var b := ToBuffer(s).value;
    assert b[..2] == Be16(s.service);
    assert ReadInt16(b) == s.service && ReadInt16(b[2..]) == s.subtype;
    assert ReadInt32(b[6..]) == s.requestId;
    assert Slice(b, 10, 10 + payloadLength) == b[10..];
  }

  /** The same for a TLV payload outside the raw pairs, given a
      `fromBufferBlob` that reads back what the list marshals to. */
  lemma TlvRoundTrip(s: Snac, next: int, payloadLength: int, blob: bytes -> Outcome<seq<Tlv>>)
    requires Encodable(s) && !RawPair(s.service, s.subtype) && s.payload.Tlvs?
    requires s.service < 0x8000 && s.subtype < 0x8000 && 0 < s.requestId < 0x8000_0000
    requires blob(ListBytes(s.payload.items).value) == Ok(s.payload.items)
    ensures Parse(next, ToBuffer(s).value, payloadLength, blob) == Ok((s.(flags := FlagField(s.flags)), next))
  {
    var b := ToBuffer(s).value;
    assert ReadInt16(b) == s.service && ReadInt16(b[2..]) == s.subtype;
    assert ReadInt32(b[6..]) == s.requestId;
  }

  /** `forRateClass`'s payload: the u16 rate count, then each rate's bytes in order. */
  function RatesPayload(rates: seq<Rate>): (r: Outcome<bytes>)
    ensures r.Ok? <==> |rates| < 0x1_0000 && forall i :: 0 <= i < |rates| ==> RateBytes(rates[i]).Ok?
    ensures r.Ok? ==> |r.value| >= 2 && Uint16At(r.value) == |rates| && r.value[2..] == ConcatMap(rates, RateBytes).value
  {
    var r := Cat(WriteUInt16(|rates|), ConcatMap(rates, RateBytes));
    if r.Ok? then
      assert r.value[2..] == ConcatMap(rates, RateBytes).value;
      r
    else r
  }

  /** `SNAC.forRateClass` with the counter at `next`: a raw payload, the
      counter's id and the empty flags; throws before touching the counter
      when the payload cannot be written. */
  function ForRateClass(next: int, service: int, subtype: int, rates: seq<Rate>): (r: Outcome<(Snac, int)>)
    ensures r.Ok? <==> RatesPayload(rates).Ok?
    ensures r.Ok? ==> r.value == (Snac(service, subtype, Raw(RatesPayload(rates).value), next, FlagsEmpty), next + 1)
  {
    var payload := RatesPayload(rates);
    if payload.Throws? then Throws else Ok(Make(next, service, subtype, Raw(payload.value), 0, FlagsEmpty))
  }

  /** The module-level `snacID` counter. Every id it has handed out
      (`issued`) is below `next`, so no two constructions that take the
      counter get the same id, and none gets zero. */
  class RequestIds {
    var next: int
    ghost var issued: set<int>

    ghost predicate Valid()
      reads this
    {
      FirstRequestId <= next && forall i :: i in issued ==> FirstRequestId <= i < next
    }

    constructor ()
      ensures Valid() && next == FirstRequestId && issued == {}
    {
      next := FirstRequestId;
      issued := {};
    }

    /** `new SNAC(service, subtype, payload, requestID, flags)`. */
    method New(service: int, subtype: int, payload: Payload, requestId: int, flags: bytes) returns (s: Snac)
      requires Valid()
      modifies this
      ensures Valid()
      ensures (s, next) == Make(old(next), service, subtype, payload, requestId, flags)
      ensures s.requestId != 0
      ensures requestId == 0 ==> s.requestId !in old(issued) && issued == old(issued) + {s.requestId}
      ensures requestId != 0 ==> issued == old(issued)
    {
      if requestId != 0 {
        s := Snac(service, subtype, payload, requestId, flags);
      } else {
        s := Snac(service, subtype, payload, next, flags);
        issued := issued + {next};
        next := next + 1;
      }
    }

    /** `SNAC.fromBuffer(buf, payloadLength)`. */
    method FromBuffer(buf: bytes, payloadLength: int, blob: bytes -> Outcome<seq<Tlv>>) returns (r: Outcome<Snac>)
      requires Valid()
      modifies this
      ensures Valid()
      ensures var p := Parse(old(next), buf, payloadLength, blob);
        && (r.Ok? <==> p.Ok?)
        && (r.Ok? ==> r.value == p.value.0 && next == p.value.1)
        && (r.Throws? ==> next == old(next))
    {
      if |buf| < 10 {
        return Throws;
      }
      var service := ReadInt16(buf[0..2]);
      var subtype := ReadInt16(buf[2..4]);
      var flags := buf[4..6];
      var requestId := ReadInt32(buf[6..10]);
      var payload := ReadPayload(buf, payloadLength, blob);
      if payload.Throws? {
        return Throws;
      }
      var s := New(service, subtype, payload.value, requestId, flags);
      return Ok(s);
    }

    /** `SNAC.forRateClass(service, subtype, rates)`. */
    method ForRates(service: int, subtype: int, rates: seq<Rate>) returns (r: Outcome<Snac>)
      requires Valid()
      modifies this
      ensures Valid()
      ensures var p := ForRateClass(old(next), service, subtype, rates);
        && (r.Ok? <==> p.Ok?)
        && (r.Ok? ==> r.value == p.value.0 && next == p.value.1)
        && (r.Throws? ==> next == old(next))
    {
      var payload := RatesPayload(rates);
      if payload.Throws? {
        return Throws;
      }
      var s := New(service, subtype, Raw(payload.value), 0, FlagsEmpty);
      return Ok(s);
    }
  }
}

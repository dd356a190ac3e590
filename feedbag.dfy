/**
 * The feedbag (server-stored buddy list) service, SNAC family 0x13, of
 * services/0x13_feedbag.go: the wire form of one stored item, the limits
 * reply and the empty list reply.
 */
module Feedbag {
  import opened Wire
  import Tlv
  import Snac
  import opened Models
  import opened Session
  import opened Handler

  /** The item kinds the service names (`FeedbagItemType`). */
  const TypeUser: uint16 := 0x0000
  const TypeGroup: uint16 := 0x0001
  const TypePermit: uint16 := 0x0002
  const TypeDeny: uint16 := 0x0003
  const TypePDSetting: uint16 := 0x0004
  const TypePresenceInfo: uint16 := 0x0005
  const TypeIgnoreList: uint16 := 0x000e
  const TypeLastUpdateTime: uint16 := 0x000f
  const TypeRosterImportTime: uint16 := 0x0013
  const TypeIconInfo: uint16 := 0x0014

  /** `FeedbagItem`. */
  datatype Item = Item(name: bytes, group: uint16, itemId: uint16, itemType: uint16, tlvs: seq<Tlv.TLV>)

  // ---------------------------------------------------------------------
  // The wire form of an item
  // ---------------------------------------------------------------------

  /**
   * The bytes of an item: the name with a two-byte length, the group, item,
   * type and TLV-count words, then the records.  `None` where `Bytes`
   * panics: a name over 65535 bytes (`LPUint16String`).
   */
  function ItemBytes(f: Item): (r: Option<bytes>)
    ensures r.None? <==> |f.name| > 0xffff
  {
    if |f.name| > 0xffff then None
    else Some(Be16(|f.name|) + f.name + Be16(f.group) + Be16(f.itemId) + Be16(f.itemType)
              + Be16(Trunc16(|f.tlvs|)) + Tlv.MarshalAll(f.tlvs))
  }

  /** `FeedbagItem.Bytes`: the fixed part, then one marshalled record at a time. */
  method Bytes(f: Item) returns (r: Option<bytes>)
    ensures r == ItemBytes(f)
  {
    if |f.name| > 0xffff {
      return None;
    }
    var buf := Be16(|f.name|) + f.name;
    buf := buf + Be16(f.group);
    buf := buf + Be16(f.itemId);
    buf := buf + Be16(f.itemType);
    buf := buf + Be16(Trunc16(|f.tlvs|));
    ghost var head := buf;
    var i := 0;
    while i < |f.tlvs|
      invariant 0 <= i <= |f.tlvs|
      invariant buf == head + Tlv.MarshalAll(f.tlvs[..i])
    {
      buf := buf + Tlv.Marshal(f.tlvs[i]);
      Snac.AppendStep(head, f.tlvs, i);
      i := i + 1;
    }
    assert f.tlvs[..|f.tlvs|] == f.tlvs;
    return Some(buf);
  }

  /** The bytes the records of `ts` occupy when each declares its own length: 4 + data per record. */
  function Size(ts: seq<Tlv.TLV>): nat {
    if ts == [] then 0 else 4 + |ts[0].data| + Size(ts[1..])
  }

  lemma {:induction false} MarshalAllSize(ts: seq<Tlv.TLV>)
    requires Tlv.AllWellFormed(ts)
    ensures |Tlv.MarshalAll(ts)| == Size(ts)
  {
    if ts != [] {
      assert Tlv.WellFormed(ts[0]);
      assert Tlv.AllWellFormed(ts[1..]) by {
        forall i | 0 <= i < |ts[1..]| ensures Tlv.WellFormed(ts[1..][i]) {
          assert ts[1..][i] == ts[i + 1];
        }
      }
      MarshalAllSize(ts[1..]);
    }
  }

  /** An item takes 10 bytes plus its name plus 4 + data per record. */
  lemma ItemLength(f: Item)
    requires |f.name| <= 0xffff && Tlv.AllWellFormed(f.tlvs)
    ensures |ItemBytes(f).value| == 10 + |f.name| + Size(f.tlvs)
  {
    MarshalAllSize(f.tlvs);
  }

  /**
   * How a client reads an item: the name by its two-byte length, the three
   * words, the count, and records to the end, which must number `count`.
   */
  function ReadItem(b: bytes): (r: Option<Item>)
    ensures r.Some? ==> |b| >= 10 && |r.value.name| == Uint16At(b)
  {
    if |b| < 2 || |b| < 10 + Uint16At(b) then None
    else
      var n := Uint16At(b);
      match Tlv.ParseAll(b[10 + n..])
      case None => None
      case Some(ts) =>
        if Uint16At(b[8 + n..]) != |ts| then None
        else Some(Item(b[2..2 + n], Uint16At(b[2 + n..]), Uint16At(b[4 + n..]), Uint16At(b[6 + n..]), ts))
  }

  /** The fixed part of an item over any tail. */
  lemma Fields(name: bytes, g: uint16, i: uint16, t: uint16, c: uint16, rest: bytes)
    requires |name| <= 0xffff
    ensures var b := Be16(|name|) + name + Be16(g) + Be16(i) + Be16(t) + Be16(c) + rest;
      var n := |name|;
      && |b| >= 10 + n && Uint16At(b) == n && b[2..2 + n] == name
      && Uint16At(b[2 + n..]) == g && Uint16At(b[4 + n..]) == i && Uint16At(b[6 + n..]) == t
      && Uint16At(b[8 + n..]) == c && b[10 + n..] == rest
  {
    var n := |name|;
    var b := Be16(n) + name + Be16(g) + Be16(i) + Be16(t) + Be16(c) + rest;
    var w := Be16(g) + (Be16(i) + (Be16(t) + (Be16(c) + rest)));
    assert b == Be16(n) + (name + w);
    Wire.Be16RoundTrip(n, name + w);
    assert b[2 + n..] == w;
    Wire.Be16RoundTrip(g, w[2..]);
    assert b[4 + n..] == w[2..];
    Wire.Be16RoundTrip(i, w[4..]);
    assert b[6 + n..] == w[4..];
    Wire.Be16RoundTrip(t, w[6..]);
    assert b[8 + n..] == w[6..];
    Wire.Be16RoundTrip(c, rest);
  }

  /** Every item whose name and record count fit their words reads back as itself. */
  lemma ItemRoundTrip(f: Item)
    requires |f.name| <= 0xffff && |f.tlvs| <= 0xffff && Tlv.AllWellFormed(f.tlvs)
    ensures ReadItem(ItemBytes(f).value) == Some(f)
  {
    assert Trunc16(|f.tlvs|) == |f.tlvs|;
    Fields(f.name, f.group, f.itemId, f.itemType, |f.tlvs| as uint16, Tlv.MarshalAll(f.tlvs));
    Tlv.MarshalAllRoundTrip(f.tlvs);
  }

  // ---------------------------------------------------------------------
  // The replies
  // ---------------------------------------------------------------------

  /** The 21 per-kind item limits the 0x02 reply lists in TLV 4. */
  const MaxItemTable: seq<uint16> :=
    [0x3D, 0x3D, 0x64, 0x64, 0x01, 0x01, 0x32, 0x00, 0x00, 0x03, 0x00,
     0x00, 0x00, 0x80, 0xFF, 0x14, 0xC8, 0x01, 0x00, 0x01, 0x00]

  /**
   * The same 21 limits, taken as a slice of the table: the proofs about the
   * reply then reason about its encoding generically instead of evaluating
   * it word by word.
   */
  const MaxItems: seq<uint16> := MaxItemTable[0..21]

  /** The word loop of lines 91-94: each limit's `Word` written in turn. */
  method MaxItemsData() returns (b: bytes)
    ensures b == Words(MaxItems)
  {
    b := [];
    var i := 0;
    while i < |MaxItems|
      invariant 0 <= i <= |MaxItems|
      invariant b == Words(MaxItems[..i])
    {
      b := b + Be16(MaxItems[i]);
      WordsSnoc(MaxItems, i);
      i := i + 1;
    }
    assert MaxItems[..|MaxItems|] == MaxItems;
  }

  /** The records of the 0x02 reply, in the order written, with `m` the data of TLV 4. */
  function LimitsWith(m: bytes): (r: seq<Tlv.TLV>)
    ensures |r| == 6
  {
    [Tlv.NewTLV(0x04, m), Tlv.NewTLV(0x02, Be16(0xfe)), Tlv.NewTLV(0x03, Be16(0x01fc)),
     Tlv.NewTLV(0x05, Be16(0)), Tlv.NewTLV(0x06, Be16(0x61)), Tlv.NewTLV(0x07, Be16(0x0a))]
  }

  function Limits(): (r: seq<Tlv.TLV>)
    ensures |r| == 6
  {
    LimitsWith(Words(MaxItems))
  }

  /** The 0x02 reply body: the six records with no count in front. */
  function LimitsBody(): bytes {
    Tlv.MarshalAll(Limits())
  }

  lemma ReadLimitsWith(m: bytes)
    requires |m| <= 0xffff
    ensures Tlv.ParseAll(Tlv.MarshalAll(LimitsWith(m))) == Some(LimitsWith(m))
  {
    var ts := LimitsWith(m);
    assert Tlv.AllWellFormed(ts) by {
      forall i | 0 <= i < 6 ensures Tlv.WellFormed(ts[i]) {
      }
    }
    Tlv.MarshalAllRoundTrip(ts);
  }

  /** A client reads back the six records of the 0x03 reply. */
  lemma ReadLimits()
    ensures Tlv.ParseAll(LimitsBody()) == Some(Limits())
  {
    assert |MaxItems| == 21;
    ReadLimitsWith(Words(MaxItems));
  }

  /**
   * The six records: TLV 4 with 42 bytes whose `k`-th word is the `k`-th
   * limit, then TLVs 2, 3, 5, 6, 7 with one word each.
   */
  lemma LimitsFields()
    ensures |Limits()[0].data| == 42 && Limits()[0].typ == 4
    ensures forall k :: 0 <= k < 21 ==> Limits()[0].data[2 * k..2 * k + 2] == Be16(MaxItems[k])
    ensures Limits()[1].data == Be16(0xfe) && Limits()[2].data == Be16(0x01fc) && Limits()[3].data == Be16(0)
    ensures Limits()[4].data == Be16(0x61) && Limits()[5].data == Be16(0x0a)
    ensures [Limits()[1].typ, Limits()[2].typ, Limits()[3].typ, Limits()[4].typ, Limits()[5].typ] == [2, 3, 5, 6, 7]
  {
    assert |MaxItems| == 21;
    FieldsOf(MaxItems);
  }

  lemma FieldsOf(ws: seq<uint16>)
    requires |ws| == 21
    ensures var ts := LimitsWith(Words(ws));
      && |ts[0].data| == 42 && ts[0].typ == 4
      && (forall k :: 0 <= k < 21 ==> ts[0].data[2 * k..2 * k + 2] == Be16(ws[k]))
      && ts[1].data == Be16(0xfe) && ts[2].data == Be16(0x01fc) && ts[3].data == Be16(0)
      && ts[4].data == Be16(0x61) && ts[5].data == Be16(0x0a)
      && [ts[1].typ, ts[2].typ, ts[3].typ, ts[4].typ, ts[5].typ] == [2, 3, 5, 6, 7]
  {
    WordsAll(ws);
  }

  /** The 0x04 reply body: version 0, item count `len(items)` of the empty list, last change time 0. */
  function ListBody(): (r: bytes)
    ensures |r| == 7
  {
    [0] + Be16(0) + Be32(0)
  }

  /** A client reads version 0, no items and time 0. */
  lemma ReadList()
    ensures ListBody()[0] == 0 && Uint16At(ListBody()[1..]) == 0 && Uint32At(ListBody()[3..]) == 0
  {
    var b := ListBody();
    assert b[1..] == Be16(0) + Be32(0);
    Wire.Be16RoundTrip(0, Be32(0));
    assert b[3..] == Be32(0) + [];
    Wire.Be32RoundTrip(0, []);
  }

  // ---------------------------------------------------------------------
  // The handler
  // ---------------------------------------------------------------------

  /** What one SNAC does: frames sent, context and error returned. */
  datatype FeedbagEffect = FeedbagEffect(sends: seq<Out>, ctx: Ctx, err: Option<Fault>)

  /**
   * `HandleSNAC`: the session's logger is fetched before the switch, so a
   * context without a session panics whatever the subtype.
   */
  function HandleSpec(ctx: Ctx, closed: bool, subtype: uint16): (e: FeedbagEffect)
    ensures e.ctx == ctx
    ensures e.err == Some(Panic) <==> ctx.Nil? || ctx.session.None?
    ensures subtype != 0x02 && subtype != 0x04 ==> e.sends == [] && (e.err.Some? ==> e.err == Some(Panic))
    ensures e.err.Some? ==> e.err in {Some(Panic), Some(Io)}
  {
    if ctx.Nil? || ctx.session.None? then FeedbagEffect([], ctx, Some(Panic))
    else if subtype == 0x02 then
      var o := SnacOut(0x13, 0x03, LimitsBody()); FeedbagEffect([o], ctx, SendResult(closed, o))
    else if subtype == 0x04 then
      var o := SnacOut(0x13, 0x06, ListBody()); FeedbagEffect([o], ctx, SendResult(closed, o))
    else FeedbagEffect([], ctx, None)
  }

  method HandleSNAC(ctx: Ctx, subtype: uint16) returns (ctx': Ctx, err: Option<Fault>)
    modifies Sessions(ctx)
    ensures var e := HandleSpec(ctx, old(ClosedOf(ctx)), subtype);
      && ctx' == e.ctx && err == e.err
      && (ctx.Ctx? && ctx.session.Some? ==> Emitted(ctx.session.value, e.sends, false))
  {
    if ctx.Nil? || ctx.session.None? {
      return ctx, Some(Panic);
    }
    if subtype == 0x02 {
      var body := LimitsReply();
      var e := SendOne(ctx.session.value, 0x13, 0x03, body);
      return ctx, if e then Some(Io) else None;
    } else if subtype == 0x04 {
      var body := ListReply();
      var e := SendOne(ctx.session.value, 0x13, 0x06, body);
      return ctx, if e then Some(Io) else None;
    }
    return ctx, None;
  }

  /** The body of SNAC 0x13:3 as lines 66-100 build it. */
  method LimitsReply() returns (body: bytes)
    ensures body == LimitsBody()
  {
    var reply := new Snac.Snac.NewSNAC(0x13, 0x03);
    var data := MaxItemsData();
    reply.WriteTLV(Tlv.NewTLV(0x04, data));
    ghost var d0 := reply.data.d;
    reply.WriteTLV(Tlv.NewTLV(0x02, Be16(0xfe)));
    ghost var d1 := reply.data.d;
    reply.WriteTLV(Tlv.NewTLV(0x03, Be16(0x01fc)));
    ghost var d2 := reply.data.d;
    reply.WriteTLV(Tlv.NewTLV(0x05, Be16(0)));
    ghost var d3 := reply.data.d;
    reply.WriteTLV(Tlv.NewTLV(0x06, Be16(0x61)));
    ghost var d4 := reply.data.d;
    reply.WriteTLV(Tlv.NewTLV(0x07, Be16(0x0a)));
    LimitsWritten(data, d0, d1, d2, d3, d4, reply.data.d);
    body := reply.data.d;
  }

  /** The body of SNAC 0x13:6 as lines 108-114 build it. */
  method ListReply() returns (body: bytes)
    ensures body == ListBody()
  {
    var reply := new Snac.Snac.NewSNAC(0x13, 0x06);
    var items: seq<Item> := [];
    reply.data.WriteUint8(0);
    reply.data.WriteUint16(Trunc16(|items|));
    reply.data.WriteUint32(0);
    body := reply.data.d;
  }

  /** The six writes of lines 66-100 leave the marshalled records. */
  lemma LimitsWritten(m: bytes, d0: bytes, d1: bytes, d2: bytes, d3: bytes, d4: bytes, d5: bytes)
    requires d0 == [] + Tlv.Marshal(Tlv.NewTLV(0x04, m))
    requires d1 == d0 + Tlv.Marshal(Tlv.NewTLV(0x02, Be16(0xfe)))
    requires d2 == d1 + Tlv.Marshal(Tlv.NewTLV(0x03, Be16(0x01fc)))
    requires d3 == d2 + Tlv.Marshal(Tlv.NewTLV(0x05, Be16(0)))
    requires d4 == d3 + Tlv.Marshal(Tlv.NewTLV(0x06, Be16(0x61)))
    requires d5 == d4 + Tlv.Marshal(Tlv.NewTLV(0x07, Be16(0x0a)))
    ensures d5 == Tlv.MarshalAll(LimitsWith(m))
  {
    var ts := LimitsWith(m);
    Snac.MarshalAllSnoc([], ts[0]);
    assert [] + [ts[0]] == ts[..1];
    Snac.MarshalAllSnoc(ts[..1], ts[1]);
    assert ts[..1] + [ts[1]] == ts[..2];
    Snac.MarshalAllSnoc(ts[..2], ts[2]);
    assert ts[..2] + [ts[2]] == ts[..3];
    Snac.MarshalAllSnoc(ts[..3], ts[3]);
    assert ts[..3] + [ts[3]] == ts[..4];
    Snac.MarshalAllSnoc(ts[..4], ts[4]);
    assert ts[..4] + [ts[4]] == ts[..5];
    Snac.MarshalAllSnoc(ts[..5], ts[5]);
    assert ts[..5] + [ts[5]] == ts;
  }

}

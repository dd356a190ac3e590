/**
 * The ICBM service (SNAC family 0x04) of 0x04_ICBM.go: the client's channel
 * parameters (subtype 0x02), their echo (0x04), and an instant message sent
 * through the server (0x06), which is parsed, stored, handed to the delivery
 * routine and optionally acknowledged.
 */
module Icbm {
  import opened Wire
  import opened OscarBuffer
  import Tlv
  import opened Models
  import opened Session
  import opened Handler

  /** The 16 bytes of the parameter record: the seven fields big-endian, in declaration order. */
  function ChannelBytes(ch: ChannelSettings): (r: bytes)
    ensures |r| == 16
  {
    Be16(ch.id) + Be32(ch.messageFlags) + Be16(ch.maxMessageSnacSize) + Be16(ch.maxSenderWarningLevel)
      + Be16(ch.maxReceiverWarningLevel) + Be16(ch.minimumMessageInterval) + Be16(ch.unknown)
  }

  /** `binary.Read` into the record: fails on fewer than 16 bytes, ignores any excess. */
  function ParseChannel(b: bytes): (r: Option<ChannelSettings>)
    ensures r.Some? <==> |b| >= 16
  {
    if |b| < 16 then None
    else Some(ChannelSettings(Uint16At(b), Uint32At(b[2..]), Uint16At(b[6..]), Uint16At(b[8..]),
                              Uint16At(b[10..]), Uint16At(b[12..]), Uint16At(b[14..])))
  }

  /** Reading the record back from its bytes gives the record, whatever follows. */
  lemma ChannelRoundTrip(ch: ChannelSettings, rest: bytes)
    ensures ParseChannel(ChannelBytes(ch) + rest) == Some(ch)
  {
    var b := ChannelBytes(ch) + rest;
    ChannelLayout(Be16(ch.id), Be32(ch.messageFlags), Be16(ch.maxMessageSnacSize), Be16(ch.maxSenderWarningLevel),
                  Be16(ch.maxReceiverWarningLevel), Be16(ch.minimumMessageInterval), Be16(ch.unknown), rest);
    Be16RoundTrip(ch.id, b[2..]);
    Be32RoundTrip(ch.messageFlags, b[6..]);
    Be16RoundTrip(ch.maxMessageSnacSize, b[8..]);
    Be16RoundTrip(ch.maxSenderWarningLevel, b[10..]);
    Be16RoundTrip(ch.maxReceiverWarningLevel, b[12..]);
    Be16RoundTrip(ch.minimumMessageInterval, b[14..]);
    Be16RoundTrip(ch.unknown, rest);
  }

  /** Where each field of the record lands in the bytes. */
  lemma ChannelLayout(p0: bytes, p1: bytes, p2: bytes, p3: bytes, p4: bytes, p5: bytes, p6: bytes, rest: bytes)
    requires |p0| == 2 && |p1| == 4 && |p2| == 2 && |p3| == 2 && |p4| == 2 && |p5| == 2 && |p6| == 2
    ensures var b := p0 + p1 + p2 + p3 + p4 + p5 + p6 + rest;
      && b == p0 + b[2..] && b[2..] == p1 + b[6..] && b[6..] == p2 + b[8..] && b[8..] == p3 + b[10..]
      && b[10..] == p4 + b[12..] && b[12..] == p5 + b[14..] && b[14..] == p6 + rest
  {
    var b := p0 + p1 + p2 + p3 + p4 + p5 + p6 + rest;
    var r6 := p6 + rest;
    var r5 := p5 + r6;
    var r4 := p4 + r5;
    var r3 := p3 + r4;
    var r2 := p2 + r3;
    var r1 := p1 + r2;
    AppendAssoc(p0 + p1 + p2 + p3 + p4 + p5, p6, rest);
    AppendAssoc(p0 + p1 + p2 + p3 + p4, p5, r6);
    AppendAssoc(p0 + p1 + p2 + p3, p4, r5);
    AppendAssoc(p0 + p1 + p2, p3, r4);
    AppendAssoc(p0 + p1, p2, r3);
    AppendAssoc(p0, p1, r2);
    assert b == p0 + r1;
    assert b[2..] == r1 && b[6..] == r2 && b[8..] == r3 && b[10..] == r4 && b[12..] == r5 && b[14..] == r6;
  }



  /** And writing a parsed record gives back the 16 bytes it was read from. */
  lemma ChannelInverse(b: bytes)
    requires |b| >= 16
    ensures ChannelBytes(ParseChannel(b).value) == b[..16]
  {
    Uint16AtInverse(b);
    Uint32AtInverse(b[2..]);
    Uint16AtInverse(b[6..]);
    Uint16AtInverse(b[8..]);
    Uint16AtInverse(b[10..]);
    Uint16AtInverse(b[12..]);
    Uint16AtInverse(b[14..]);
    assert b[..16] == b[..2] + b[2..][..4] + b[6..][..2] + b[8..][..2] + b[10..][..2] + b[12..][..2] + b[14..][..2];
  }

  /** The head of a subtype-0x06 body, read with every read error ignored. */
  datatype Incoming = Incoming(cookie: uint64, channel: uint16, to: bytes, rest: bytes)

  /**
   * The message id, the channel and the recipient, and the unread bytes
   * left.  A short read yields 0 (or the empty name) and consumes nothing,
   * except that a name whose length byte overruns consumes that byte.
   */
  function ReadIncoming(body: bytes): (r: Incoming)
    ensures |body| >= 8 ==> r.cookie == Uint64At(body)
    ensures |body| >= 10 ==> r.channel == Uint16At(body[8..])
    ensures |r.rest| <= |body|
  {
    var cookie := if |body| < 8 then 0 else Uint64At(body);
    var d1 := if |body| < 8 then body else body[8..];
    var channel := if |d1| < 2 then 0 else Uint16At(d1);
    var d2 := if |d1| < 2 then d1 else d1[2..];
    var to := if |d2| == 0 || |d2| - 1 < d2[0] then [] else d2[1..1 + d2[0]];
    var d3 := if |d2| == 0 then d2 else if |d2| - 1 < d2[0] then d2[1..] else d2[1 + d2[0]..];
    Incoming(cookie, channel, to, d3)
  }

  /** The reads of lines 102-104 on the SNAC body buffer. */
  method ReadIncomingFrom(buf: Buffer) returns (inc: Incoming)
    modifies buf
    ensures inc == ReadIncoming(old(buf.d)) && buf.d == inc.rest
  {
    var cookie, _ := buf.ReadUint64();
    var channel, _ := buf.ReadUint16();
    var to, _ := buf.ReadLPString();
    inc := Incoming(cookie, channel, to, buf.d);
  }

  /** The outcome of parsing TLV 2's fragments: the message text, or why not. */
  datatype Fragment = Contents(contents: bytes) | Refused(fault: Fault)

  /** `Seek(n)`: drop `n` bytes, or everything when fewer remain. */
  function Skip(d: bytes, n: nat): (r: bytes)
    ensures |r| <= |d|
  {
    if n > |d| then [] else d[n..]
  }

  /**
   * The capabilities fragment: id 5, version 1, a length, then that many
   * bytes that are skipped; then the text fragment.
   */
  function ParseFragment(d: bytes): Fragment {
    if |d| < 1 || d[0] != 5 then Refused(BadFragment)
    else if |d| < 2 || d[1] != 1 then Refused(BadFragment)
    else if |d| < 4 then Refused(BadFragment)
    else ParseText(Skip(d[4..], Uint16At(d[2..])))
  }

  /**
   * The text fragment: id 1, version 1, a length that counts 4 bytes of
   * charset and language (skipped) before the text.  The text's length is
   * the declared length minus 4 in 16-bit arithmetic, so a declared length
   * under 4 wraps to nearly 65536.
   */
  function ParseText(e: bytes): (r: Fragment)
    ensures r.Contents? ==> |e| >= 4 && e[0] == 1 && e[1] == 1
    ensures r.Contents? ==> |r.contents| == (Uint16At(e[2..]) as int - 4) % 0x1_0000
  {
    if |e| < 1 || e[0] != 1 then Refused(BadFragment)
    else if |e| < 2 || e[1] != 1 then Refused(BadFragment)
    else if |e| < 4 then Refused(BadFragment)
    else
      var n := (Uint16At(e[2..]) as int - 4) % 0x1_0000;
      var c := Skip(e[4..], 4);
      if n > |c| then Refused(Truncated) else Contents(c[..n])
  }

  /** The fragment parser of lines 122-177, on a cursor buffer. */
  method ReadFragment(data: bytes) returns (r: Fragment)
    ensures r == ParseFragment(data)
  {
    var buf := new Buffer();
    var _, _ := buf.Write(data);
    var id, err := buf.ReadUint8();
    if err || id != 5 {
      return Refused(BadFragment);
    }
    var version, err2 := buf.ReadUint8();
    if err2 || version != 1 {
      return Refused(BadFragment);
    }
    var length, err3 := buf.ReadUint16();
    if err3 {
      return Refused(BadFragment);
    }
    assert buf.d == data[4..] && length == Uint16At(data[2..]);
    buf.Seek(length);
    r := ReadText(buf);
  }

  /** The text half of the fragment parser. */
  method ReadText(buf: Buffer) returns (r: Fragment)
    modifies buf
    ensures r == ParseText(old(buf.d))
  {
    var id, err := buf.ReadUint8();
    if err || id != 1 {
      return Refused(BadFragment);
    }
    var version, err2 := buf.ReadUint8();
    if err2 || version != 1 {
      return Refused(BadFragment);
    }
    var length, err3 := buf.ReadUint16();
    if err3 {
      return Refused(BadFragment);
    }
    assert buf.d == old(buf.d)[4..] && length == Uint16At(old(buf.d)[2..]);
    buf.Seek(4);
    var _, contents, rerr := buf.Read((length as int - 4) % 0x1_0000);
    if rerr {
      return Refused(Truncated);
    }
    r := Contents(contents);
  }

  /** The acknowledgement body (0x04:0x0c): the message id, channel 2, the sender's username. */
  function AckReply(cookie: uint64, username: bytes): bytes {
    Be64(cookie) + Be16(2) + [Trunc8(|username|)] + username
  }

  /** The acknowledgement carries the message id and the sender, readable back. */
  lemma AckCarries(cookie: uint64, username: bytes)
    requires |username| <= 255
    ensures var a := AckReply(cookie, username);
      Uint64At(a) == cookie && Uint16At(a[8..]) == 2 && a[10] == |username| && a[11..] == username
  {
    var a := AckReply(cookie, username);
    assert a == Be64(cookie) + (Be16(2) + [Trunc8(|username|)] + username);
    Be64RoundTrip(cookie, Be16(2) + [Trunc8(|username|)] + username);
    assert a[8..] == Be16(2) + ([Trunc8(|username|)] + username);
  }

  /** What one 0x04 SNAC does: frames sent, context and error returned, the message stored and queued. */
  datatype IcbmEffect = IcbmEffect(sends: seq<Out>, ctx: Ctx, err: Option<Fault>, stored: Option<Message>)

  /** Subtype 0x06 on a live context. */
  function MessageSpec(db: Db, ctx: Ctx, closed: bool, body: bytes): (e: IcbmEffect)
    requires ctx.Ctx?
    ensures e.ctx == ctx && |e.sends| <= 1
    ensures e.stored.Some? ==> ctx.user.Some? && ReadIncoming(body).channel == 1 && db.canWrite
    ensures e.stored.Some? ==> e.stored.value.from == ctx.user.value.username && e.stored.value.to == ReadIncoming(body).to
    ensures e.stored.Some? ==> e.stored.value.cookie == ReadIncoming(body).cookie && !e.stored.value.delivered
  {
    if ctx.user.None? then IcbmEffect([], ctx, Some(NoUserInSession), None)
    else
      var inc := ReadIncoming(body);
      if inc.channel != 1 then IcbmEffect([], ctx, None, None)
      else ParsedSpec(db, ctx, closed, ctx.user.value, inc)
  }

  /** A channel-1 message: its TLVs, TLV 2's fragments, then acceptance. */
  function ParsedSpec(db: Db, ctx: Ctx, closed: bool, user: User, inc: Incoming): (e: IcbmEffect)
    requires ctx.Ctx?
    ensures e.ctx == ctx && |e.sends| <= 1
    ensures e.stored.Some? ==> Tlv.ParseAll(inc.rest).Some? && Tlv.Find(Tlv.ParseAll(inc.rest).value, 2).Some?
    ensures e.stored.Some? ==>
      ParseFragment(Tlv.Find(Tlv.ParseAll(inc.rest).value, 2).value.data) == Contents(e.stored.value.contents)
  {
      match Tlv.ParseAll(inc.rest)
        case None => IcbmEffect([], ctx, Some(Malformed), None)
        case Some(tlvs) =>
          match Tlv.Find(tlvs, 2)
          case None => IcbmEffect([], ctx, Some(MissingTlv(2)), None)
          case Some(t) =>
            match ParseFragment(t.data)
            case Refused(f) => IcbmEffect([], ctx, Some(f), None)
            case Contents(c) => AcceptSpec(db, ctx, closed, tlvs, Message(inc.cookie, user.username, inc.to, c, false, false))
  }

  /** A parsed message: stored and queued, then acknowledged when TLV 3 is present. */
  function AcceptSpec(db: Db, ctx: Ctx, closed: bool, tlvs: seq<Tlv.TLV>, m: Message): (e: IcbmEffect)
    requires ctx.Ctx?
    ensures e.ctx == ctx
    ensures e.stored.Some? <==> db.canWrite
    ensures e.stored.Some? ==> e.stored.value == m
    ensures e.sends != [] <==> db.canWrite && Tlv.Find(tlvs, 3).Some? && ctx.session.Some?
    ensures e.sends != [] ==> e.sends == [SnacOut(0x04, 0x0c, AckReply(m.cookie, m.from))]
  {
    if !db.canWrite then IcbmEffect([], ctx, Some(StoreFailed), None)
    else if Tlv.Find(tlvs, 3).None? then IcbmEffect([], ctx, None, Some(m))
    else if ctx.session.None? then IcbmEffect([], ctx, Some(Panic), Some(m))
    else
      var o := SnacOut(0x04, 0x0c, AckReply(m.cookie, m.from));
      IcbmEffect([o], ctx, SendResult(closed, o), Some(m))
  }

  /**
   * `HandleSNAC`: a nil context panics on the session lookup; 0x04 panics
   * on a context without channel settings or without a session.
   */
  function HandleSpec(db: Db, ctx: Ctx, closed: bool, subtype: uint16, body: bytes): (e: IcbmEffect)
    ensures ctx.Nil? ==> e == IcbmEffect([], ctx, Some(Panic), None)
    ensures |e.sends| <= 1
    ensures e.stored.Some? ==> subtype == 0x06
    ensures subtype != 0x02 ==> e.ctx == ctx
    ensures ctx.Ctx? && subtype == 0x02 && e.err.None? ==> e.ctx == ctx.(channel := ParseChannel(body))
    ensures ctx.Ctx? && subtype !in {0x02, 0x04, 0x06} ==> e == IcbmEffect([], ctx, None, None)
  {
    if ctx.Nil? then IcbmEffect([], ctx, Some(Panic), None)
    else if subtype == 0x02 then
      match ParseChannel(body)
      case None => IcbmEffect([], ctx, Some(Malformed), None)
      case Some(ch) => IcbmEffect([], ctx.(channel := Some(ch)), None, None)
    else if subtype == 0x04 then
      if ctx.channel.None? || ctx.session.None? then IcbmEffect([], ctx, Some(Panic), None)
      else IcbmEffect([SnacOut(0x04, 0x05, ChannelBytes(ctx.channel.value))], ctx, None, None)
    else if subtype == 0x06 then MessageSpec(db, ctx, closed, body)
    else IcbmEffect([], ctx, None, None)
  }

  /** The store and the delivery queue after a message was (or was not) accepted. */
  twostate predicate Recorded(store: Store, channels: Channels, stored: Option<Message>)
    reads store, channels
  {
    && store.db == (if stored.Some? then old(store.db).(messages := old(store.db.messages) + [stored.value]) else old(store.db))
    && channels.comm == (if stored.Some? then old(channels.comm) + [stored.value] else old(channels.comm))
    && channels.online == old(channels.online)
  }

  method HandleSNAC(store: Store, channels: Channels, ctx: Ctx, subtype: uint16, body: bytes)
    returns (ctx': Ctx, err: Option<Fault>)
    modifies store, channels, Sessions(ctx)
    ensures var e := HandleSpec(old(store.db), ctx, old(ClosedOf(ctx)), subtype, body);
      && ctx' == e.ctx && err == e.err
      && Recorded(store, channels, e.stored)
      && (ctx.Ctx? && ctx.session.Some? ==> Emitted(ctx.session.value, e.sends, false))
  {
    if ctx.Nil? {
      return ctx, Some(Panic);
    }
    if subtype == 0x02 {
      var ch := ParseChannel(body);
      if ch.None? {
        return ctx, Some(Malformed);
      }
      return ctx.(channel := Some(ch.value)), None;
    } else if subtype == 0x04 {
      if ctx.channel.None? || ctx.session.None? {
        return ctx, Some(Panic);
      }
      var _ := SendOne(ctx.session.value, 0x04, 0x05, ChannelBytes(ctx.channel.value));
      return ctx, None;
    } else if subtype == 0x06 {
      err := SendMessage(store, channels, ctx, body);
      return ctx, err;
    }
    return ctx, None;
  }

  /** Subtype 0x06: parse, store, queue for delivery, acknowledge when TLV 3 asks for it. */
  method SendMessage(store: Store, channels: Channels, ctx: Ctx, body: bytes) returns (err: Option<Fault>)
    requires ctx.Ctx?
    modifies store, channels, Sessions(ctx)
    ensures var e := MessageSpec(old(store.db), ctx, old(ClosedOf(ctx)), body);
      && e.ctx == ctx && err == e.err
      && Recorded(store, channels, e.stored)
      && (ctx.session.Some? ==> Emitted(ctx.session.value, e.sends, false))
  {
    if ctx.user.None? {
      return Some(NoUserInSession);
    }
    var user := ctx.user.value;
    var buf := new Buffer();
    var _, _ := buf.Write(body);
    assert buf.d == body;
    var inc := ReadIncomingFrom(buf);
    assert inc == ReadIncoming(body);
    if inc.channel != 1 {
      return None;
    }
    assert MessageSpec(old(store.db), ctx, old(ClosedOf(ctx)), body) == ParsedSpec(old(store.db), ctx, old(ClosedOf(ctx)), user, inc);
    err := ParseAndAccept(store, channels, ctx, user, inc);
  }

  /** Lines 111-200 for a channel-1 message. */
  method ParseAndAccept(store: Store, channels: Channels, ctx: Ctx, user: User, inc: Incoming) returns (err: Option<Fault>)
    requires ctx.Ctx?
    modifies store, channels, Sessions(ctx)
    ensures var e := ParsedSpec(old(store.db), ctx, old(ClosedOf(ctx)), user, inc);
      && e.ctx == ctx && err == e.err
      && Recorded(store, channels, e.stored)
      && (ctx.session.Some? ==> Emitted(ctx.session.value, e.sends, false))
  {
    var tlvs, perr := Tlv.UnmarshalTLVs(inc.rest);
    if perr {
      return Some(Malformed);
    }
    var messageTlv := Tlv.Find(tlvs, 2);
    if messageTlv.None? {
      return Some(MissingTlv(2));
    }
    var frag := ReadFragment(messageTlv.value.data);
    if frag.Refused? {
      return Some(frag.fault);
    }
    err := Accept(store, channels, ctx, tlvs, inc.cookie, user.username, inc.to, frag.contents);
  }

  /** Lines 179-200: insert the message, queue it, and acknowledge it if asked. */
  method Accept(store: Store, channels: Channels, ctx: Ctx, tlvs: seq<Tlv.TLV>, cookie: uint64, from: bytes, to: bytes, contents: bytes)
    returns (err: Option<Fault>)
    requires ctx.Ctx?
    modifies store, channels, Sessions(ctx)
    ensures var e := AcceptSpec(old(store.db), ctx, old(ClosedOf(ctx)), tlvs, Message(cookie, from, to, contents, false, false));
      && err == e.err
      && Recorded(store, channels, e.stored)
      && (ctx.session.Some? ==> Emitted(ctx.session.value, e.sends, false))
  {
    var m := store.InsertMessage(cookie, from, to, contents);
    if m.None? {
      return Some(StoreFailed);
    }
    channels.PushComm(m.value);
    var ack := Tlv.Find(tlvs, 3);
    if ack.None? {
      return None;
    }
    if ctx.session.None? {
      return Some(Panic);
    }
    var e := SendOne(ctx.session.value, 0x04, 0x0c, AckReply(cookie, from));
    return if e then Some(Io) else None;
  }

  /**
   * Setting the parameters and then asking for them sends back exactly the
   * 16 bytes the client set (subtype 0x04 echoes subtype 0x02).
   */
  lemma SettingsEcho(db: Db, ctx: Ctx, closed: bool, b: bytes, query: bytes)
    requires ctx.Ctx? && ctx.session.Some? && |b| >= 16
    ensures var set1 := HandleSpec(db, ctx, closed, 0x02, b);
      && set1.err.None?
      && HandleSpec(db, set1.ctx, closed, 0x04, query).sends == [SnacOut(0x04, 0x05, b[..16])]
  {
    ChannelInverse(b);
  }

  /** The body a client sends for a channel-1 message to `to` with the given TLVs. */
  function OutgoingBody(cookie: uint64, to: bytes, tlvs: seq<Tlv.TLV>): bytes {
    Be64(cookie) + Be16(1) + [Trunc8(|to|)] + to + Tlv.MarshalAll(tlvs)
  }

  /**
   * A well-formed channel-1 message whose TLV 2 holds a parsable fragment is
   * stored and queued as sent: its id, the sender's username, the
   * recipient and the text of the fragment.
   */
  lemma MessageStored(db: Db, ctx: Ctx, closed: bool, cookie: uint64, to: bytes, tlvs: seq<Tlv.TLV>)
    requires ctx.Ctx? && ctx.user.Some? && db.canWrite
    requires |to| <= 255 && Tlv.AllWellFormed(tlvs)
    requires Tlv.Find(tlvs, 2).Some? && ParseFragment(Tlv.Find(tlvs, 2).value.data).Contents?
    ensures MessageSpec(db, ctx, closed, OutgoingBody(cookie, to, tlvs)).stored ==
      Some(Message(cookie, ctx.user.value.username, to, ParseFragment(Tlv.Find(tlvs, 2).value.data).contents, false, false))
  {
    IncomingOf(cookie, to, Tlv.MarshalAll(tlvs));
    Tlv.MarshalAllRoundTrip(tlvs);
  }

  /** The head of an outgoing body reads back as written, leaving the TLV bytes. */
  lemma IncomingOf(cookie: uint64, to: bytes, rest: bytes)
    requires |to| <= 255
    ensures ReadIncoming(Be64(cookie) + Be16(1) + [Trunc8(|to|)] + to + rest) == Incoming(cookie, 1, to, rest)
  {
    var tail := Be16(1) + [Trunc8(|to|)] + to + rest;
    var body := Be64(cookie) + Be16(1) + [Trunc8(|to|)] + to + rest;
    assert body == Be64(cookie) + tail;
    Be64RoundTrip(cookie, tail);
    assert body[8..] == tail;
    Be16RoundTrip(1, [Trunc8(|to|)] + to + rest);
    var d2 := [Trunc8(|to|)] + to + rest;
    assert tail[2..] == d2;
    assert d2[1..1 + |to|] == to && d2[1 + |to|..] == rest;
  }
}

/**
 * The location services (SNAC family 0x02) of
 * services/0x02_location_services.go: the profile limits (subtype 0x02),
 * setting the profile and away message (0x04), asking for another user's
 * info (0x05) and the unexplained request 0x0b.
 */
module Location {
  import opened Wire
  import opened OscarBuffer
  import Tlv
  import Snac
  import UserInfo
  import opened Models
  import opened Session
  import opened Handler

  /** What one SNAC does: frames sent, context and error returned, the user written and the user pushed to `OnlineCh`. */
  datatype LocationEffect = LocationEffect(sends: seq<Out>, ctx: Ctx, err: Option<Fault>, update: Option<User>, pushed: Option<User>)

  function Reply(sends: seq<Out>, ctx: Ctx, err: Option<Fault>): LocationEffect {
    LocationEffect(sends, ctx, err, None, None)
  }

  /** The columns subtype 0x04 writes: the away message, the profile and their encodings (not the status). */
  const ProfileColumns: set<Column> := {AwayMessageColumn, AwayMessageEncodingColumn, ProfileColumn, ProfileEncodingColumn}

  // ---------------------------------------------------------------------
  // Subtype 0x02: limits
  // ---------------------------------------------------------------------

  /** The 0x02 reply SNAC 2:3: TLV 1 holding the maximum profile length 256. */
  function ParamsBody(): bytes {
    Tlv.Marshal(Tlv.NewTLV(0x01, Be16(256)))
  }

  /** A client reads one TLV of type 1 whose word is 256. */
  lemma ReadParams()
    ensures Tlv.ParseAll(ParamsBody()) == Some([Tlv.TLV(1, 2, Be16(256))])
    ensures Uint16At(Be16(256)) == 256
  {
    var t := Tlv.NewTLV(0x01, Be16(256));
    assert t == Tlv.TLV(1, 2, Be16(256));
    assert Tlv.MarshalAll([t]) == Tlv.Marshal(t) + [];
    Tlv.MarshalAllRoundTrip([t]);
    assert Tlv.MarshalAll([t]) == ParamsBody();
    Be16RoundTrip(256, []);
    assert Be16(256) + [] == Be16(256);
  }

  // ---------------------------------------------------------------------
  // Subtype 0x04: setting the profile and away message
  // ---------------------------------------------------------------------

  /**
   * The user after the TLVs are applied, or the encoding TLV that is
   * missing together with the user as far as it was edited before.
   */
  datatype Edit = Edited(user: User) | Missing(typ: uint16, partial: User)

  /**
   * TLV 4 (away message) needs TLV 3 (its encoding); TLV 2 (profile) needs
   * TLV 1 (its encoding).  The away message is checked first.
   */
  function EditOf(u: User, tlvs: seq<Tlv.TLV>): (r: Edit)
    ensures r.Missing? && r.typ == 3 <==> Tlv.Find(tlvs, 4).Some? && Tlv.Find(tlvs, 3).None?
    ensures r.Missing? && r.typ == 1 <==>
      (!(Tlv.Find(tlvs, 4).Some? && Tlv.Find(tlvs, 3).None?) && Tlv.Find(tlvs, 2).Some? && Tlv.Find(tlvs, 1).None?)
    ensures r.Missing? ==> r.typ in {1, 3}
    ensures r.Missing? && r.typ == 3 ==> r.partial == u
    ensures r.Missing? && r.typ == 1 ==>
      r.partial == if Tlv.Find(tlvs, 4).Some? then u.(awayMessage := Tlv.Find(tlvs, 4).value.data,
                                                   awayMessageEncoding := Tlv.Find(tlvs, 3).value.data) else u
    ensures r.Edited? ==>
      && r.user.awayMessage == (if Tlv.Find(tlvs, 4).Some? then Tlv.Find(tlvs, 4).value.data else u.awayMessage)
      && r.user.awayMessageEncoding == (if Tlv.Find(tlvs, 4).Some? then Tlv.Find(tlvs, 3).value.data else u.awayMessageEncoding)
      && r.user.profile == (if Tlv.Find(tlvs, 2).Some? then Tlv.Find(tlvs, 2).value.data else u.profile)
      && r.user.profileEncoding == (if Tlv.Find(tlvs, 2).Some? then Tlv.Find(tlvs, 1).value.data else u.profileEncoding)
      && r.user == u.(awayMessage := r.user.awayMessage, awayMessageEncoding := r.user.awayMessageEncoding,
                      profile := r.user.profile, profileEncoding := r.user.profileEncoding)
  {
    var away := Tlv.Find(tlvs, 4);
    var awayMime := Tlv.Find(tlvs, 3);
    if away.Some? && awayMime.None? then Missing(3, u)
    else
      var u1 := if away.Some? then u.(awayMessage := away.value.data, awayMessageEncoding := awayMime.value.data) else u;
      var profile := Tlv.Find(tlvs, 2);
      var profileMime := Tlv.Find(tlvs, 1);
      if profile.Some? && profileMime.None? then Missing(1, u1)
      else Edited(if profile.Some? then u1.(profile := profile.value.data, profileEncoding := profileMime.value.data) else u1)
  }

  /** Online without an away message, away with one. */
  function StatusFor(u: User): (s: Status)
    ensures s == Online <==> u.awayMessage == []
    ensures s == Away <==> u.awayMessage != []
  {
    if u.awayMessage == [] then Online else Away
  }

  /**
   * Subtype 0x04.  A malformed TLV list or a missing encoding ends the
   * connection's context (a nil context); a failed write keeps the context,
   * whose user (a shared reference) already carries the edits.
   */
  function SetInfoSpec(db: Db, ctx: Ctx, body: bytes): (e: LocationEffect)
    requires ctx.Ctx?
    ensures e.sends == [] && e.update == e.pushed
    ensures e.ctx.Nil? <==> ctx.user.Some? && e.err.Some? && (e.err.value.Malformed? || e.err.value.MissingTlv?)
    ensures e.ctx.Ctx? && ctx.user.Some? ==> e.ctx.user.Some? && e.ctx.user.value.status == StatusFor(e.ctx.user.value)
    ensures e.pushed.Some? <==> e.err.None? && ctx.user.Some?
    ensures e.pushed.Some? ==> db.canWrite && e.ctx.user == e.pushed
  {
    match ctx.user
    case None => Reply([], ctx, Some(NoUserInSession))
    case Some(u) =>
      match Tlv.ParseAll(body)
      case None => Reply([], Nil, Some(Malformed))
      case Some(tlvs) =>
        match EditOf(u, tlvs)
        case Missing(t, _) => Reply([], Nil, Some(MissingTlv(t)))
        case Edited(e) =>
          var u' := e.(status := StatusFor(e));
          if !db.canWrite then Reply([], ctx.(user := Some(u')), Some(StoreFailed))
          else LocationEffect([], ctx.(user := Some(u')), None, Some(u'), Some(u'))
  }

  /**
   * The context's `*User` as subtype 0x04 leaves it.  The fields are
   * assigned in place before the handler can fail, so a failed write keeps
   * every edit and the new status, and an away message copied before the
   * profile's encoding turns out missing stays on the user.
   */
  function HeldAfterSetInfo(u: User, body: bytes): (r: User)
    ensures Tlv.ParseAll(body).None? ==> r == u
    ensures r == u.(awayMessage := r.awayMessage, awayMessageEncoding := r.awayMessageEncoding,
                    profile := r.profile, profileEncoding := r.profileEncoding, status := r.status)
  {
    match Tlv.ParseAll(body)
    case None => u
    case Some(tlvs) =>
      match EditOf(u, tlvs)
      case Missing(_, p) => p
      case Edited(e) => e.(status := StatusFor(e))
  }

  /** The context's `*User` after any subtype: only 0x04 writes to it. */
  function Held(ctx: Ctx, subtype: uint16, body: bytes): (r: Option<User>)
    ensures ctx.Ctx? && subtype != 0x04 ==> r == ctx.user
    ensures ctx.Ctx? ==> (r.Some? <==> ctx.user.Some?)
  {
    if ctx.Nil? || ctx.user.None? then None
    else if subtype == 0x04 then Some(HeldAfterSetInfo(ctx.user.value, body))
    else ctx.user
  }

  /**
   * Whenever subtype 0x04 hands back a context, its user is the held
   * `*User`: the value the model threads and the object Go mutates agree.
   */
  lemma HeldIsReturned(db: Db, ctx: Ctx, body: bytes)
    requires ctx.Ctx? && ctx.user.Some?
    requires SetInfoSpec(db, ctx, body).ctx.Ctx?
    ensures SetInfoSpec(db, ctx, body).ctx.user == Held(ctx, 0x04, body)
  {
  }

  /**
   * TLVs 4, 3 and 2 without TLV 1: the handler fails for the missing
   * profile encoding and returns a nil context, but the away message and
   * its encoding have already been written into the user it shares with the
   * caller; the profile has not.
   */
  lemma AwayKeptOnProfileError(db: Db, ctx: Ctx, body: bytes, tlvs: seq<Tlv.TLV>)
    requires ctx.Ctx? && ctx.user.Some? && Tlv.ParseAll(body) == Some(tlvs)
    requires Tlv.Find(tlvs, 4).Some? && Tlv.Find(tlvs, 3).Some? && Tlv.Find(tlvs, 2).Some? && Tlv.Find(tlvs, 1).None?
    ensures SetInfoSpec(db, ctx, body) == Reply([], Nil, Some(MissingTlv(1)))
    ensures Held(ctx, 0x04, body) == Some(ctx.user.value.(awayMessage := Tlv.Find(tlvs, 4).value.data,
                                                        awayMessageEncoding := Tlv.Find(tlvs, 3).value.data))
  {
  }

  // ---------------------------------------------------------------------
  // Subtype 0x05: user info query
  // ---------------------------------------------------------------------

  /**
   * The request type and the screen name.  A body shorter than two bytes,
   * or a name whose length byte overruns, is refused; nothing after the
   * type reads as the empty name.
   */
  function ReadQuery(body: bytes): (r: Option<(uint16, bytes)>)
    ensures r.None? <==> |body| < 2 || (|body| > 2 && |body| - 3 < body[2] as int)
    ensures r.Some? ==> r.value.0 == Uint16At(body)
    ensures r.Some? && |body| == 2 ==> r.value.1 == []
    ensures r.Some? && |body| > 2 ==> r.value.1 == body[3..3 + body[2] as int]
  {
    if |body| < 2 then None
    else
      var d := body[2..];
      if |d| == 0 then Some((Uint16At(body), []))
      else if |d| - 1 < d[0] as int then None
      else Some((Uint16At(body), d[1..1 + d[0] as int]))
  }

  /** The body a client sends for request type `t` about `name`. */
  function QueryBytes(t: uint16, name: bytes): bytes {
    Be16(t) + [Trunc8(|name|)] + name
  }

  /** A query a client writes is read back as written, whatever follows it. */
  lemma QueryRoundTrip(t: uint16, name: bytes, rest: bytes)
    requires |name| <= 255
    ensures ReadQuery(QueryBytes(t, name) + rest) == Some((t, name))
  {
    var b := QueryBytes(t, name) + rest;
    assert b == Be16(t) + ([Trunc8(|name|)] + name + rest);
    Be16RoundTrip(t, [Trunc8(|name|)] + name + rest);
    assert b[3..3 + |name|] == name;
  }

  /** The five user info TLVs of a reply: class 0, status, idle, sign-on and member-since. */
  function InfoTlvs(r: User, code: Status -> uint32, clock: Clock): (ts: seq<Tlv.TLV>)
    ensures |ts| == 5 && Tlv.AllWellFormed(ts)
  {
    [Tlv.NewTLV(0x01, Be32(0)), Tlv.NewTLV(0x06, Be32(code(r.status))), Tlv.NewTLV(0x0f, Be32(clock.idle)),
     Tlv.NewTLV(0x03, Be32(clock.now)), Tlv.NewTLV(0x05, Be32(r.createdAt))]
  }

  /** The TLVs a request type adds: the profile for 1, the away message for 3, none otherwise. */
  function Extra(r: User, t: uint16): seq<Tlv.TLV> {
    if t == 1 then [Tlv.NewTLV(0x01, r.profileEncoding), Tlv.NewTLV(0x02, r.profile)]
    else if t == 3 then [Tlv.NewTLV(0x03, r.awayMessageEncoding), Tlv.NewTLV(0x04, r.awayMessage)]
    else []
  }

  /** The 0x05 reply SNAC 2:6: the user info block, then the requested TLVs. */
  function InfoReply(r: User, t: uint16, code: Status -> uint32, clock: Clock): bytes {
    UserInfo.Block(r.screenName, InfoTlvs(r, code, clock)) + Tlv.MarshalAll(Extra(r, t))
  }

  /** The 0x05 reply when no user has the name: SNAC 2:1 with error code 0x14 (no match). */
  function NoMatch(): Out {
    SnacOut(0x02, 0x01, Be16(0x14))
  }

  /**
   * A client reads back the user's screen name, five block TLVs, and then
   * the profile (type 1) or the away message (type 3) with its encoding.
   */
  lemma ReadInfoReply(r: User, t: uint16, code: Status -> uint32, clock: Clock)
    requires |r.screenName| <= 255
    requires |r.profile| <= 0xffff && |r.profileEncoding| <= 0xffff
    requires |r.awayMessage| <= 0xffff && |r.awayMessageEncoding| <= 0xffff
    ensures var info := UserInfo.Read(InfoReply(r, t, code, clock));
      && info == Some(UserInfo.Info(r.screenName, 0, 5, InfoTlvs(r, code, clock) + Extra(r, t)))
      && (t == 1 ==> info.value.tlvs[5].data == r.profileEncoding && info.value.tlvs[6].data == r.profile)
      && (t == 3 ==> info.value.tlvs[5].data == r.awayMessageEncoding && info.value.tlvs[6].data == r.awayMessage)
      && (t != 1 && t != 3 ==> |info.value.tlvs| == 5)
  {
    UserInfo.ReadBlock(r.screenName, InfoTlvs(r, code, clock), Extra(r, t));
  }

  /** Subtype 0x05: read the request, look the name up, reply. */
  function QuerySpec(db: Db, ctx: Ctx, closed: bool, code: Status -> uint32, clock: Clock, body: bytes): (e: LocationEffect)
    requires ctx.Ctx?
    ensures e.ctx == ctx && e.update.None? && e.pushed.None? && |e.sends| <= 1
    ensures e.sends != [] ==> ctx.session.Some? && ReadQuery(body).Some?
    ensures ReadQuery(body).Some? && ctx.session.Some? && UserByScreenName(db, ReadQuery(body).value.1).Found? ==>
      var (t, name) := ReadQuery(body).value;
      e.sends == [SnacOut(0x02, 0x06, InfoReply(UserByScreenName(db, name).user, t, code, clock))]
    ensures ReadQuery(body).Some? && ctx.session.Some? && UserByScreenName(db, ReadQuery(body).value.1).NotFound? ==>
      e == Reply([NoMatch()], ctx, None)
  {
    match ReadQuery(body)
    case None => Reply([], ctx, Some(Malformed))
    case Some((t, name)) =>
      match UserByScreenName(db, name)
      case StoreFailure => Reply([], ctx, Some(StoreFailed))
      case NotFound =>
        if ctx.session.None? then Reply([], ctx, Some(Panic))
        else Reply([NoMatch()], ctx, None)
      case Found(r) =>
        if ctx.session.None? then Reply([], ctx, Some(Panic))
        else var o := SnacOut(0x02, 0x06, InfoReply(r, t, code, clock)); Reply([o], ctx, SendResult(closed, o))
  }

  // ---------------------------------------------------------------------
  // The handler
  // ---------------------------------------------------------------------

  /** The 0x0b reply SNAC 2:0xc: the words 1 and 0. */
  function UnknownBody(): bytes {
    Be16(1) + Be16(0)
  }

  /** `HandleSNAC`; a context without a session panics where a reply is sent. */
  function HandleSpec(code: Status -> uint32, clock: Clock, db: Db, ctx: Ctx, closed: bool, subtype: uint16, body: bytes): (e: LocationEffect)
    ensures ctx.Nil? ==> e == Reply([], ctx, Some(Panic))
    ensures |e.sends| <= 1
    ensures e.update.Some? || e.pushed.Some? ==> subtype == 0x04
    ensures subtype != 0x04 ==> e.ctx == ctx
    ensures ctx.Ctx? && subtype !in {0x02, 0x04, 0x05, 0x0b} ==> e == Reply([], ctx, None)
  {
    if ctx.Nil? then Reply([], ctx, Some(Panic))
    else if subtype == 0x02 then SendSpec(ctx, closed, SnacOut(0x02, 0x03, ParamsBody()))
    else if subtype == 0x04 then SetInfoSpec(db, ctx, body)
    else if subtype == 0x05 then QuerySpec(db, ctx, closed, code, clock, body)
    else if subtype == 0x0b then SendSpec(ctx, closed, SnacOut(0x02, 0x0c, UnknownBody()))
    else Reply([], ctx, None)
  }

  /** A fixed reply: sent on the context's session, a crash without one. */
  function SendSpec(ctx: Ctx, closed: bool, o: Out): LocationEffect
    requires ctx.Ctx?
  {
    if ctx.session.None? then Reply([], ctx, Some(Panic)) else Reply([o], ctx, SendResult(closed, o))
  }

  /** Sends a fixed reply SNAC on the context's session. */
  method SendReply(ctx: Ctx, family: uint16, subtype: uint16, body: bytes) returns (err: Option<Fault>)
    requires ctx.Ctx?
    modifies Sessions(ctx)
    ensures var e := SendSpec(ctx, old(ClosedOf(ctx)), SnacOut(family, subtype, body));
      && err == e.err && (ctx.session.Some? ==> Emitted(ctx.session.value, e.sends, false))
  {
    if ctx.session.None? {
      return Some(Panic);
    }
    var e := SendOne(ctx.session.value, family, subtype, body);
    return if e then Some(Io) else None;
  }

  /** The store and the online channel after a SNAC. */
  twostate predicate Applied(store: Store, channels: Channels, e: LocationEffect)
    reads store, channels
  {
    && store.db == (if e.update.Some? then old(store.db).(users := ReplaceColumns(old(store.db.users), e.update.value, ProfileColumns)) else old(store.db))
    && channels.online == (if e.pushed.Some? then old(channels.online) + [e.pushed.value] else old(channels.online))
    && channels.comm == old(channels.comm)
  }

  /** `held` is the context's `*User` as the handler leaves it, whatever it returns. */
  method HandleSNAC(code: Status -> uint32, clock: Clock, store: Store, channels: Channels, ctx: Ctx, subtype: uint16, body: bytes)
    returns (ctx': Ctx, err: Option<Fault>, held: Option<User>)
    modifies store, channels, Sessions(ctx)
    ensures var e := HandleSpec(code, clock, old(store.db), ctx, old(ClosedOf(ctx)), subtype, body);
      && ctx' == e.ctx && err == e.err && held == Held(ctx, subtype, body)
      && Applied(store, channels, e)
      && (ctx.Ctx? && ctx.session.Some? ==> Emitted(ctx.session.value, e.sends, false))
  {
    if ctx.Nil? {
      return ctx, Some(Panic), None;
    }
    if subtype == 0x04 {
      ctx', err, held := SetInfo(store, channels, ctx, body);
    } else {
      err := Answer(code, clock, store, ctx, subtype, body);
      ctx', held := ctx, ctx.user;
    }
  }

  /** The subtypes that only answer: the reply is sent, the store and the channels are not touched. */
  method Answer(code: Status -> uint32, clock: Clock, store: Store, ctx: Ctx, subtype: uint16, body: bytes) returns (err: Option<Fault>)
    requires ctx.Ctx? && subtype != 0x04
    modifies Sessions(ctx)
    ensures var e := HandleSpec(code, clock, store.db, ctx, old(ClosedOf(ctx)), subtype, body);
      && e.ctx == ctx && err == e.err && e.update.None? && e.pushed.None?
      && (ctx.session.Some? ==> Emitted(ctx.session.value, e.sends, false))
  {
    if subtype == 0x02 {
      var params := ParamsBodyOf();
      err := SendReply(ctx, 0x02, 0x03, params);
    } else if subtype == 0x05 {
      err := Query(code, clock, store, ctx, body);
    } else if subtype == 0x0b {
      var unknown := UnknownBodyOf();
      err := SendReply(ctx, 0x02, 0x0c, unknown);
    } else {
      err := None;
    }
  }


  /** The 0x02 reply body: one TLV 1 carrying the word 256. */
  method ParamsBodyOf() returns (b: bytes)
    ensures b == ParamsBody()
  {
    var params := new Snac.Snac.NewSNAC(0x02, 0x03);
    params.WriteTLV(Tlv.NewTLV(0x01, Be16(256)));
    b := params.data.d;
  }

  /** The 0x0b reply body: the words 1 and 0. */
  method UnknownBodyOf() returns (b: bytes)
    ensures b == UnknownBody()
  {
    var unknown := new Snac.Snac.NewSNAC(0x02, 0x0c);
    unknown.data.WriteUint16(1);
    unknown.data.WriteUint16(0);
    b := unknown.data.d;
  }

  /** The TLV lookups of subtype 0x04, copying each present field into the user as it is found. */
  method EditUser(u: User, tlvs: seq<Tlv.TLV>) returns (r: Edit)
    ensures r == EditOf(u, tlvs)
  {
    var user := u;
    var awayMessage := Tlv.Find(tlvs, 0x04);
    if awayMessage.Some? {
      var awayMime := Tlv.Find(tlvs, 0x03);
      if awayMime.None? {
        return Missing(3, user);
      }
      user := user.(awayMessage := awayMessage.value.data, awayMessageEncoding := awayMime.value.data);
    }
    var profile := Tlv.Find(tlvs, 0x02);
    if profile.Some? {
      var profileMime := Tlv.Find(tlvs, 0x01);
      if profileMime.None? {
        return Missing(1, user);
      }
      user := user.(profile := profile.value.data, profileEncoding := profileMime.value.data);
    }
    return Edited(user);
  }

  /** Subtype 0x04: apply the TLVs, derive the status, save four columns, push the user. */
  method SetInfo(store: Store, channels: Channels, ctx: Ctx, body: bytes) returns (ctx': Ctx, err: Option<Fault>, held: Option<User>)
    requires ctx.Ctx?
    modifies store, channels
    ensures var e := SetInfoSpec(old(store.db), ctx, body);
      && ctx' == e.ctx && err == e.err && e.sends == []
      && Applied(store, channels, e)
    ensures held == Held(ctx, 0x04, body)
  {
    if ctx.user.None? {
      return ctx, Some(NoUserInSession), None;
    }
    var user := ctx.user.value;
    var tlvs, perr := Tlv.UnmarshalTLVs(body);
    if perr {
      return Nil, Some(Malformed), Some(user);
    }
    var edit := EditUser(user, tlvs);
    if edit.Missing? {
      return Nil, Some(MissingTlv(edit.typ)), Some(edit.partial);
    }
    user := edit.user;
    if user.awayMessage == [] {
      user := user.(status := Online);
    } else {
      user := user.(status := Away);
    }
    held := Some(user);
    var uerr := store.UpdateColumns(user, ProfileColumns);
    if uerr {
      return ctx.(user := Some(user)), Some(StoreFailed), held;
    }
    channels.PushOnline(user);
    return ctx.(user := Some(user)), None, held;
  }

  /** Subtype 0x05: read the request type and name from the body buffer, look the user up, reply. */
  method Query(code: Status -> uint32, clock: Clock, store: Store, ctx: Ctx, body: bytes) returns (err: Option<Fault>)
    requires ctx.Ctx?
    modifies Sessions(ctx)
    ensures var e := QuerySpec(store.db, ctx, old(ClosedOf(ctx)), code, clock, body);
      && e.ctx == ctx && err == e.err
      && (ctx.session.Some? ==> Emitted(ctx.session.value, e.sends, false))
  {
    var query := ParseQuery(body);
    if query.None? {
      return Some(Malformed);
    }
    var (requestType, name) := query.value;
    var found := UserByScreenName(store.db, name);
    if found.StoreFailure? {
      return Some(StoreFailed);
    }
    if ctx.session.None? {
      return Some(Panic);
    }
    var session := ctx.session.value;
    if found.NotFound? {
      var _ := SendOne(session, 0x02, 0x01, Be16(0x14));
      return None;
    }
    var reply := InfoReplyOf(found.user, requestType, code, clock);
    var e := SendOne(session, 0x02, 0x06, reply);
    return if e then Some(Io) else None;
  }

  /** The request type and screen name read from a 0x05 body on a fresh buffer. */
  method ParseQuery(body: bytes) returns (r: Option<(uint16, bytes)>)
    ensures r == ReadQuery(body)
  {
    var data := new Buffer();
    var _, _ := data.Write(body);
    assert data.d == body;
    var requestType, terr := data.ReadUint16();
    if terr {
      return None;
    }
    var name, nerr := data.ReadLPString();
    if nerr {
      return None;
    }
    return Some((requestType, name));
  }

  /** Lines 106-138: the reply body built on a fresh SNAC. */
  method InfoReplyOf(r: User, t: uint16, code: Status -> uint32, clock: Clock) returns (body: bytes)
    ensures body == InfoReply(r, t, code, clock)
  {
    var resp := new Snac.Snac.NewSNAC(0x02, 0x06);
    var tlvs := InfoTlvs(r, code, clock);
    UserInfo.Append(resp, r.screenName, tlvs);
    assert resp.data.d == UserInfo.Block(r.screenName, tlvs);
    AppendExtra(resp, r, t);
    body := resp.data.d;
  }

  /** Lines 126-138: the profile or the away message TLVs, as the request type asks. */
  method AppendExtra(resp: Snac.Snac, r: User, t: uint16)
    modifies resp.data
    ensures resp.data.d == old(resp.data.d) + Tlv.MarshalAll(Extra(r, t))
  {
    var extra := Extra(r, t);
    PairMarshal(extra);
    if t == 1 || t == 3 {
      resp.WriteTLV(extra[0]);
      resp.WriteTLV(extra[1]);
    }
  }

  lemma PairMarshal(ts: seq<Tlv.TLV>)
    ensures |ts| == 2 ==> Tlv.MarshalAll(ts) == Tlv.Marshal(ts[0]) + Tlv.Marshal(ts[1])
    ensures ts == [] ==> Tlv.MarshalAll(ts) == []
  {
    if |ts| == 2 {
      var rest := ts[1..];
      assert rest[0] == ts[1] && rest[1..] == [];
      assert Tlv.MarshalAll(rest) == Tlv.Marshal(ts[1]) + [];
    }
  }

  // ---------------------------------------------------------------------
  // Properties across subtypes
  // ---------------------------------------------------------------------

  /** The body a client sends to set an away message with its encoding. */
  function AwayBody(enc: bytes, msg: bytes): bytes {
    Tlv.MarshalAll([Tlv.NewTLV(3, enc), Tlv.NewTLV(4, msg)])
  }

  /** Setting an away message changes exactly the away message, its encoding and the status. */
  lemma SetAway(db: Db, ctx: Ctx, enc: bytes, msg: bytes)
    requires ctx.Ctx? && ctx.user.Some? && db.canWrite && |enc| <= 0xffff && |msg| <= 0xffff
    ensures var u' := ctx.user.value.(awayMessage := msg, awayMessageEncoding := enc, status := if msg == [] then Online else Away);
      SetInfoSpec(db, ctx, AwayBody(enc, msg)) == LocationEffect([], ctx.(user := Some(u')), None, Some(u'), Some(u'))
  {
    var ts := [Tlv.NewTLV(3, enc), Tlv.NewTLV(4, msg)];
    Tlv.MarshalAllRoundTrip(ts);
    assert Tlv.Find(ts, 4) == Some(ts[1]) by { assert Tlv.FirstIndex(ts[1..], 4) == 0; }
    assert Tlv.Find(ts, 3) == Some(ts[0]);
    assert Tlv.Find(ts, 2).None? by { assert Tlv.FirstIndex(ts[1..][1..], 2) == 0; }
  }

  /** Asking for the away message (type 3) of a stored user sends that row's info and away message. */
  lemma QueryAway(code: Status -> uint32, clock: Clock, db: Db, ctx: Ctx, closed: bool, row: User)
    requires ctx.Ctx? && ctx.session.Some? && |row.screenName| <= 255
    requires UserByScreenName(db, row.screenName) == Found(row)
    ensures QuerySpec(db, ctx, closed, code, clock, QueryBytes(3, row.screenName)).sends == [SnacOut(0x02, 0x06, InfoReply(row, 3, code, clock))]
  {
    QueryRoundTrip(3, row.screenName, []);
    assert QueryBytes(3, row.screenName) + [] == QueryBytes(3, row.screenName);
  }

  /** Writing the four profile columns of a row copies exactly those fields. */
  lemma AssignProfile(row: User, u: User)
    ensures Assign(row, u, ProfileColumns) == row.(awayMessage := u.awayMessage, awayMessageEncoding := u.awayMessageEncoding,
                                                   profile := u.profile, profileEncoding := u.profileEncoding)
  {
    assert StatusColumn !in ProfileColumns;
  }

  /** After the away message is written, the stored row carries it and keeps its old status. */
  lemma StoredAfterAway(db: Db, u: User, enc: bytes, msg: bytes)
    requires db.canRead && UserByScreenName(db, u.screenName) == Found(u)
    ensures var u' := u.(awayMessage := msg, awayMessageEncoding := enc, status := if msg == [] then Online else Away);
      UserByScreenName(db.(users := ReplaceColumns(db.users, u', ProfileColumns)), u.screenName)
        == Found(u.(awayMessage := msg, awayMessageEncoding := enc))
  {
    var u' := u.(awayMessage := msg, awayMessageEncoding := enc, status := if msg == [] then Online else Away);
    FindAfterColumns(db, ByScreenName(u.screenName), u', ProfileColumns);
    AssignProfile(u, u');
  }

  /** A 0x04 SNAC setting an away message is dispatched to `SetInfoSpec`. */
  lemma SetAwayDispatch(code: Status -> uint32, clock: Clock, db: Db, ctx: Ctx, closed: bool, enc: bytes, msg: bytes)
    requires ctx.Ctx? && ctx.user.Some? && db.canWrite && |enc| <= 0xffff && |msg| <= 0xffff
    ensures var u' := ctx.user.value.(awayMessage := msg, awayMessageEncoding := enc, status := if msg == [] then Online else Away);
      HandleSpec(code, clock, db, ctx, closed, 0x04, AwayBody(enc, msg)) == LocationEffect([], ctx.(user := Some(u')), None, Some(u'), Some(u'))
  {
    SetAway(db, ctx, enc, msg);
  }

  /** A 0x05 query for a stored user's away message sends that row's info. */
  lemma QueryAwayDispatch(code: Status -> uint32, clock: Clock, db: Db, ctx: Ctx, closed: bool, row: User)
    requires ctx.Ctx? && ctx.session.Some? && |row.screenName| <= 255
    requires UserByScreenName(db, row.screenName) == Found(row)
    ensures HandleSpec(code, clock, db, ctx, closed, 0x05, QueryBytes(3, row.screenName)).sends == [SnacOut(0x02, 0x06, InfoReply(row, 3, code, clock))]
  {
    QueryAway(code, clock, db, ctx, closed, row);
  }

  /**
   * Setting an away message (0x04 with TLVs 3 and 4) and then asking for
   * that user's away message (0x05, type 3) returns the new message and
   * encoding.  The status in the reply is the stored row's, which 0x04 does
   * not write.
   */
  lemma SetThenQueryAway(code: Status -> uint32, clock: Clock, db: Db, ctx: Ctx, closed: bool, enc: bytes, msg: bytes)
    requires ctx.Ctx? && ctx.user.Some? && ctx.session.Some? && db.canRead && db.canWrite
    requires |enc| <= 0xffff && |msg| <= 0xffff && |ctx.user.value.screenName| <= 255
    requires UserByScreenName(db, ctx.user.value.screenName) == Found(ctx.user.value)
    ensures var u' := ctx.user.value.(awayMessage := msg, awayMessageEncoding := enc, status := if msg == [] then Online else Away);
      HandleSpec(code, clock, db, ctx, closed, 0x04, AwayBody(enc, msg)) == LocationEffect([], ctx.(user := Some(u')), None, Some(u'), Some(u'))
    ensures var u' := ctx.user.value.(awayMessage := msg, awayMessageEncoding := enc, status := if msg == [] then Online else Away);
      var db1 := db.(users := ReplaceColumns(db.users, u', ProfileColumns));
      var row := ctx.user.value.(awayMessage := msg, awayMessageEncoding := enc);
      HandleSpec(code, clock, db1, ctx.(user := Some(u')), closed, 0x05, QueryBytes(3, ctx.user.value.screenName)).sends
        == [SnacOut(0x02, 0x06, InfoReply(row, 3, code, clock))]
  {
    var u := ctx.user.value;
    SetAwayDispatch(code, clock, db, ctx, closed, enc, msg);
    var u' := u.(awayMessage := msg, awayMessageEncoding := enc, status := if msg == [] then Online else Away);
    var db1 := db.(users := ReplaceColumns(db.users, u', ProfileColumns));
    StoredAfterAway(db, u, enc, msg);
    QueryAwayDispatch(code, clock, db1, ctx.(user := Some(u')), closed, u.(awayMessage := msg, awayMessageEncoding := enc));
  }
}

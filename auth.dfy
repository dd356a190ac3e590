/**
 * The authorization/registration service (SNAC family 0x17) of
 * services/0x17_authorization_registration_service.go: the MD5 challenge
 * (subtype 0x06), the login (subtype 0x02) that issues a cookie, and the
 * check of that cookie when the client reconnects on channel 1.
 * MD5 (RFC 1321) and the JSON encoding of the cookie (RFC 8259) are
 * uninterpreted functions; the random cipher is a parameter.
 */
module Auth {
  import opened Wire
  import Tlv
  import opened Models
  import opened Session
  import opened Handler

  /** The salt appended to every digest: "AOL Instant Messenger (SM)". */
  const AimMd5String: bytes := [
    0x41, 0x4f, 0x4c, 0x20, 0x49, 0x6e, 0x73, 0x74, 0x61, 0x6e, 0x74, 0x20, 0x4d,
    0x65, 0x73, 0x73, 0x65, 0x6e, 0x67, 0x65, 0x72, 0x20, 0x28, 0x53, 0x4d, 0x29]

  datatype AuthorizationCookie = AuthorizationCookie(uin: int, x: bytes)

  /** The foreign primitives: MD5, and `json.Marshal`/`json.Unmarshal` of the cookie. */
  datatype Crypto = Crypto(
    md5: bytes -> bytes,
    marshal: AuthorizationCookie -> bytes,
    unmarshal: bytes -> Option<AuthorizationCookie>)

  /** What the JSON codec is relied on for: decoding an encoded cookie gives it back. */
  ghost predicate JsonRoundTrips(c: Crypto) {
    forall k :: c.unmarshal(c.marshal(k)) == Some(k)
  }

  /** One lower-case hexadecimal digit, as `fmt`'s `%x` writes it. */
  function HexDigit(n: nat): (r: uint8)
    requires n < 16
    ensures (0x30 <= r <= 0x39) || (0x61 <= r <= 0x66)
  {
    if n < 10 then 0x30 + n else 0x61 + (n - 10)
  }

  /** `fmt.Sprintf("%x", b)`: two lower-case digits per byte, high nibble first. */
  function Hex(b: bytes): (r: bytes)
    ensures |r| == 2 * |b|
    ensures forall k :: 0 <= k < |b| ==> r[2 * k..2 * k + 2] == [HexDigit(b[k] as nat / 16), HexDigit(b[k] as nat % 16)]
  {
    if b == [] then [] else [HexDigit(b[0] / 16), HexDigit(b[0] % 16)] + Hex(b[1..])
  }

  /** Distinct digests have distinct hex forms, so comparing hex compares digests. */
  lemma {:induction false} HexInjective(a: bytes, b: bytes)
    requires Hex(a) == Hex(b)
    ensures a == b
  {
    if a != [] {
      assert |b| == |a|;
      assert Hex(a)[0] == Hex(b)[0] && Hex(a)[1] == Hex(b)[1];
      assert a[0] / 16 == b[0] / 16 && a[0] % 16 == b[0] % 16;
      assert Hex(a)[2..] == Hex(a[1..]) && Hex(b)[2..] == Hex(b[1..]);
      HexInjective(a[1..], b[1..]);
      assert a == [a[0]] + a[1..] && b == [b[0]] + b[1..];
    }
  }

  /** MD5 of the user's cipher, password and the salt, fed to the hasher in that order. */
  function Digest(c: Crypto, u: User): bytes {
    c.md5(u.cipher + u.password + AimMd5String)
  }

  /** The cookie a successful login hands out for `u`. */
  function MintCookie(c: Crypto, u: User): bytes {
    c.marshal(AuthorizationCookie(u.uin, Hex(Digest(c, u))))
  }

  /**
   * The cookie a channel-1 payload carries: TLVs after the first 4 bytes,
   * the first TLV 6, decoded as JSON.
   */
  function CookieIn(c: Crypto, payload: bytes): (r: Option<AuthorizationCookie>)
    ensures |payload| < 4 ==> r.None?
    ensures r.Some? ==> Tlv.ParseAll(payload[4..]).Some? && Tlv.Find(Tlv.ParseAll(payload[4..]).value, 6).Some?
  {
    if |payload| < 4 then None
    else match Tlv.ParseAll(payload[4..])
      case None => None
      case Some(tlvs) =>
        match Tlv.Find(tlvs, 6)
        case None => None
        case Some(t) => c.unmarshal(t.data)
  }

  datatype CookieResult = Authenticated(user: User) | Rejected(fault: Fault)

  /**
   * `AuthenticateFLAPCookie` as written: a payload under 4 bytes panics on
   * the slice `[4:]`, and a cookie naming a UIN with no user row panics on
   * the nil user (`UserByUIN` returns `nil, nil`).
   */
  function AuthenticateFLAPCookie(c: Crypto, db: Db, payload: bytes): (r: CookieResult)
    ensures |payload| < 4 ==> r == Rejected(Panic)
    ensures r.Authenticated? <==>
      && CookieIn(c, payload).Some?
      && UserByUIN(db, CookieIn(c, payload).value.uin).Found?
      && Hex(Digest(c, UserByUIN(db, CookieIn(c, payload).value.uin).user)) == CookieIn(c, payload).value.x
    ensures r.Authenticated? ==> r.user == UserByUIN(db, CookieIn(c, payload).value.uin).user
    ensures CookieIn(c, payload).Some? && UserByUIN(db, CookieIn(c, payload).value.uin).NotFound? ==> r == Rejected(Panic)
  {
    if |payload| < 4 then Rejected(Panic)
    else match Tlv.ParseAll(payload[4..])
      case None => Rejected(Malformed)
      case Some(tlvs) =>
        match Tlv.Find(tlvs, 6)
        case None => Rejected(MissingTlv(6))
        case Some(t) =>
          match c.unmarshal(t.data)
          case None => Rejected(BadCookie)
          case Some(k) =>
            match UserByUIN(db, k.uin)
            case StoreFailure => Rejected(StoreFailed)
            case NotFound => Rejected(Panic)
            case Found(u) => if Hex(Digest(c, u)) != k.x then Rejected(UnexpectedHash) else Authenticated(u)
  }

  /**
   * The same check with the two crashes turned into errors: a short payload
   * is malformed and an unknown UIN is an unknown user.  It accepts exactly
   * the cookies the original accepts, and never panics.
   */
  function AuthenticateCookie(c: Crypto, db: Db, payload: bytes): (r: CookieResult)
    ensures r != Rejected(Panic)
    ensures r.Authenticated? <==> AuthenticateFLAPCookie(c, db, payload).Authenticated?
    ensures r.Authenticated? ==> r == AuthenticateFLAPCookie(c, db, payload)
  {
    if |payload| < 4 then Rejected(Malformed)
    else match AuthenticateFLAPCookie(c, db, payload)
      case Rejected(Panic) => Rejected(UnknownUser)
      case other => other
  }

  /**
   * The input that crashes the original: a well-formed cookie for a UIN with
   * no user row.  The original panics; the corrected check rejects it.
   */
  lemma UnknownUinPanics(c: Crypto, db: Db, k: AuthorizationCookie)
    requires c.unmarshal(c.marshal(k)) == Some(k) && |c.marshal(k)| <= 0xffff
    requires db.canRead && forall j :: 0 <= j < |db.users| ==> db.users[j].uin != k.uin
    ensures AuthenticateFLAPCookie(c, db, [0, 0, 0, 1] + Tlv.Marshal(Tlv.NewTLV(6, c.marshal(k)))) == Rejected(Panic)
    ensures AuthenticateCookie(c, db, [0, 0, 0, 1] + Tlv.Marshal(Tlv.NewTLV(6, c.marshal(k)))) == Rejected(UnknownUser)
  {
    var t := Tlv.NewTLV(6, c.marshal(k));
    var p := [0, 0, 0, 1] + Tlv.Marshal(t);
    CarriedCookie(c, k, [0, 0, 0, 1]);
    assert UserByUIN(db, k.uin) == NotFound;
  }

  /** A payload of four bytes and one TLV 6 carries the cookie the TLV holds. */
  lemma CarriedCookie(c: Crypto, k: AuthorizationCookie, prefix: seq<uint8>)
    requires c.unmarshal(c.marshal(k)) == Some(k) && |c.marshal(k)| <= 0xffff && |prefix| == 4
    ensures CookieIn(c, prefix + Tlv.Marshal(Tlv.NewTLV(6, c.marshal(k)))) == Some(k)
  {
    var t := Tlv.NewTLV(6, c.marshal(k));
    var p := prefix + Tlv.Marshal(t);
    assert p[4..] == Tlv.Marshal(t);
    Tlv.MarshalAllRoundTrip([t]);
    assert Tlv.MarshalAll([t]) == Tlv.Marshal(t);
  }

  /**
   * A minted cookie verifies: presented later (after any 4 bytes), it
   * authenticates the user its UIN finds, as long as that user's cipher and
   * password are those it was minted from.
   */
  lemma CookieVerifies(c: Crypto, db: Db, u: User, prefix: bytes)
    requires JsonRoundTrips(c) && |MintCookie(c, u)| <= 0xffff && |prefix| == 4
    requires UserByUIN(db, u.uin).Found?
    requires UserByUIN(db, u.uin).user.cipher == u.cipher && UserByUIN(db, u.uin).user.password == u.password
    ensures AuthenticateFLAPCookie(c, db, prefix + Tlv.Marshal(Tlv.NewTLV(6, MintCookie(c, u)))) == Authenticated(UserByUIN(db, u.uin).user)
  {
    var k := AuthorizationCookie(u.uin, Hex(Digest(c, u)));
    assert c.unmarshal(c.marshal(k)) == Some(k);
    CarriedCookie(c, k, prefix);
  }

  /** The body of the 0x17:0x03 error reply: the username TLV and TLV 8 = `00 04`. */
  function ErrorReply(username: Tlv.TLV): bytes {
    Tlv.Marshal(username) + Tlv.Marshal(Tlv.NewTLV(0x08, [0, 4]))
  }

  /** The body of the 0x17:0x07 key reply: the cipher's length as a word, then the cipher. */
  function KeyReply(cipher: bytes): (r: bytes)
    ensures |r| == 2 + |cipher| && r[2..] == cipher
  {
    Be16(Trunc16(|cipher|)) + cipher
  }

  /** The body of the successful 0x17:0x03 reply: TLVs 1, 5 (BOS address), 6 (cookie), 0x11 (email). */
  function LoginReply(username: Tlv.TLV, bosAddress: bytes, cookie: bytes, email: bytes): bytes {
    Tlv.Marshal(username) + Tlv.Marshal(Tlv.NewTLV(0x05, bosAddress))
      + Tlv.Marshal(Tlv.NewTLV(0x06, cookie)) + Tlv.Marshal(Tlv.NewTLV(0x11, email))
  }

  /** The empty channel-4 frame that tells the client to leave. */
  const Disco: Out := Out(4, [])

  /** What one 0x17 SNAC does: frames sent, context and error returned, the user row written, whether it disconnects. */
  datatype AuthEffect = AuthEffect(sends: seq<Out>, ctx: Ctx, err: Option<Fault>, update: Option<User>, disconnect: bool)

  function Reply(sends: seq<Out>, ctx: Ctx, err: Option<Fault>): AuthEffect {
    AuthEffect(sends, ctx, err, None, false)
  }

  /** Subtype 0x06, the MD5 key request. */
  function KeySpec(cipher: bytes, db: Db, ctx: Ctx, closed: bool, body: bytes): (e: AuthEffect)
    ensures e.ctx == ctx && !e.disconnect && |e.sends| <= 1
    ensures e.update.Some? ==> Tlv.ParseAll(body).Some? && Tlv.Find(Tlv.ParseAll(body).value, 1).Some?
    ensures e.update.Some? ==>
      var lookup := UserByUsername(db, Tlv.Find(Tlv.ParseAll(body).value, 1).value.data);
      lookup.Found? && e.update.value == lookup.user.(cipher := cipher)
    ensures e.err.None? ==> e.sends != []
  {
    match Tlv.ParseAll(body)
    case None => Reply([], ctx, Some(Panic))
    case Some(tlvs) =>
      match Tlv.Find(tlvs, 1)
      case None => Reply([], ctx, Some(MissingTlv(1)))
      case Some(un) =>
        match UserByUsername(db, un.data)
        case StoreFailure => Reply([], ctx, Some(StoreFailed))
        case NotFound =>
          var o := SnacOut(0x17, 0x03, ErrorReply(un));
          Reply([o], ctx, SendResult(closed, o))
        case Found(u) =>
          var u' := u.(cipher := cipher);
          if !db.canWrite then AuthEffect([], ctx, Some(StoreFailed), Some(u'), false)
          else
            var o := SnacOut(0x17, 0x07, KeyReply(cipher));
            AuthEffect([o], ctx, SendResult(closed, o), Some(u'), false)
  }

  /** Subtype 0x02, the login: every outcome after the username TLV returns a background context. */
  function LoginSpec(c: Crypto, bosAddress: bytes, db: Db, ctx: Ctx, closed: bool, body: bytes): (e: AuthEffect)
    ensures e.update.None? && |e.sends| <= 2
    ensures Tlv.ParseAll(body).Some? && Tlv.Find(Tlv.ParseAll(body).value, 1).Some? ==> e.ctx == Background
    ensures e.disconnect ==> Tlv.ParseAll(body).Some? && Tlv.Find(Tlv.ParseAll(body).value, 1).Some?
    ensures e.disconnect ==> UserByUsername(db, Tlv.Find(Tlv.ParseAll(body).value, 1).value.data).Found?
  {
    match Tlv.ParseAll(body)
    case None => Reply([], ctx, Some(Panic))
    case Some(tlvs) =>
      match Tlv.Find(tlvs, 1)
      case None => Reply([], ctx, Some(MissingTlv(1)))
      case Some(un) =>
        match UserByUsername(db, un.data)
        case StoreFailure => Reply([], Background, Some(StoreFailed))
        case NotFound =>
          var o := SnacOut(0x17, 0x03, ErrorReply(un));
          Reply([o], Background, SendResult(closed, o))
        case Found(u) => ProofSpec(c, bosAddress, closed, tlvs, un, u)
  }

  /** The login of a known user: the proof in TLV 0x25 decides between refusal and a cookie. */
  function ProofSpec(c: Crypto, bosAddress: bytes, closed: bool, tlvs: seq<Tlv.TLV>, un: Tlv.TLV, u: User): (e: AuthEffect)
    ensures e.ctx == Background && e.update.None?
    ensures e.disconnect <==> Tlv.Find(tlvs, 0x25).Some? && Tlv.Find(tlvs, 0x25).value.data == Digest(c, u)
    ensures Tlv.Find(tlvs, 0x25).Some? ==> |e.sends| == 2 && e.sends[1] == Disco
    ensures e.disconnect ==> e.sends[0] == SnacOut(0x17, 0x03, LoginReply(un, bosAddress, MintCookie(c, u), u.email))
  {
    match Tlv.Find(tlvs, 0x25)
    case None => Reply([], Background, Some(MissingTlv(0x25)))
    case Some(proof) =>
      if Digest(c, u) != proof.data then
        Reply([SnacOut(0x17, 0x03, ErrorReply(un)), Disco], Background, SendResult(closed, Disco))
      else
        var o := SnacOut(0x17, 0x03, LoginReply(un, bosAddress, MintCookie(c, u), u.email));
        AuthEffect([o, Disco], Background, if closed then Some(Io) else None, None, true)
  }

  /** `HandleSNAC`: a context without a session panics before the subtype is looked at. */
  function HandleSpec(c: Crypto, cipher: bytes, bosAddress: bytes, db: Db, ctx: Ctx, closed: bool, subtype: uint16, body: bytes): (e: AuthEffect)
    ensures ctx.Nil? || ctx.session.None? ==> e.err == Some(Panic) && e.sends == [] && e.update.None?
    ensures e.update.Some? ==> subtype == 0x06
    ensures e.disconnect ==> subtype == 0x02
    ensures subtype != 0x02 ==> e.ctx == ctx
    ensures subtype != 0x02 && subtype != 0x06 && ctx.Ctx? && ctx.session.Some? ==> e == Reply([], ctx, None)
  {
    if ctx.Nil? || ctx.session.None? then Reply([], ctx, Some(Panic))
    else if subtype == 0x06 then KeySpec(cipher, db, ctx, closed, body)
    else if subtype == 0x02 then LoginSpec(c, bosAddress, db, ctx, closed, body)
    else Reply([], ctx, None)
  }

  /** The handler: parses, queries and writes the store, and sends on the context's session. */
  method HandleSNAC(c: Crypto, cipher: bytes, bosAddress: bytes, store: Store, ctx: Ctx, subtype: uint16, body: bytes)
    returns (ctx': Ctx, err: Option<Fault>)
    modifies store, Sessions(ctx)
    ensures var e := HandleSpec(c, cipher, bosAddress, old(store.db), ctx, old(ClosedOf(ctx)), subtype, body);
      && ctx' == e.ctx && err == e.err
      && store.db == (if e.update.Some? then AfterUpdate(old(store.db), e.update.value) else old(store.db))
      && (ctx.Ctx? && ctx.session.Some? ==> Emitted(ctx.session.value, e.sends, e.disconnect))
  {
    if ctx.Nil? || ctx.session.None? {
      return ctx, Some(Panic);
    }
    if subtype == 0x06 {
      ctx', err := KeyRequest(cipher, store, ctx, ctx.session.value, body);
    } else if subtype == 0x02 {
      ctx', err := Login(c, bosAddress, store, ctx, ctx.session.value, body);
    } else {
      ctx', err := ctx, None;
    }
  }

  /** Subtype 0x06: stores the new cipher on the user's row and sends it back. */
  method KeyRequest(cipher: bytes, store: Store, ctx: Ctx, session: Session, body: bytes)
    returns (ctx': Ctx, err: Option<Fault>)
    requires ctx.Ctx? && ctx.session == Some(session)
    modifies store, session
    ensures var e := KeySpec(cipher, old(store.db), ctx, old(session.closed), body);
      && ctx' == e.ctx && err == e.err
      && store.db == (if e.update.Some? then AfterUpdate(old(store.db), e.update.value) else old(store.db))
      && Emitted(session, e.sends, e.disconnect)
  {
    var tlvs, perr := Tlv.UnmarshalTLVs(body);
    if perr {
      return ctx, Some(Panic);
    }
    var un := Tlv.Find(tlvs, 1);
    if un.None? {
      return ctx, Some(MissingTlv(1));
    }
    var found := UserByUsername(store.db, un.value.data);
    match found
    case StoreFailure =>
      return ctx, Some(StoreFailed);
    case NotFound =>
      var e := SendOne(session, 0x17, 0x03, ErrorReply(un.value));
      return ctx, if e then Some(Io) else None;
    case Found(u) =>
      var uerr := store.Update(u.(cipher := cipher));
      if uerr {
        return ctx, Some(StoreFailed);
      }
      var e := SendOne(session, 0x17, 0x07, KeyReply(cipher));
      return ctx, if e then Some(Io) else None;
  }

  /** Subtype 0x02: checks the MD5 proof and either refuses or hands out a cookie, then tells the client to leave. */
  method Login(c: Crypto, bosAddress: bytes, store: Store, ctx: Ctx, session: Session, body: bytes)
    returns (ctx': Ctx, err: Option<Fault>)
    requires ctx.Ctx? && ctx.session == Some(session)
    modifies session
    ensures var e := LoginSpec(c, bosAddress, store.db, ctx, old(session.closed), body);
      && ctx' == e.ctx && err == e.err && e.update.None?
      && Emitted(session, e.sends, e.disconnect)
  {
    var tlvs, perr := Tlv.UnmarshalTLVs(body);
    if perr {
      return ctx, Some(Panic);
    }
    var un := Tlv.Find(tlvs, 1);
    if un.None? {
      return ctx, Some(MissingTlv(1));
    }
    var found := UserByUsername(store.db, un.value.data);
    match found
    case StoreFailure =>
      return Background, Some(StoreFailed);
    case NotFound =>
      var e := SendOne(session, 0x17, 0x03, ErrorReply(un.value));
      return Background, if e then Some(Io) else None;
    case Found(u) =>
      ctx', err := CheckProof(c, bosAddress, session, tlvs, un.value, u);
  }

  /** The proof check of `Login` for a known user. */
  method CheckProof(c: Crypto, bosAddress: bytes, session: Session, tlvs: seq<Tlv.TLV>, un: Tlv.TLV, u: User)
    returns (ctx': Ctx, err: Option<Fault>)
    modifies session
    ensures var e := ProofSpec(c, bosAddress, old(session.closed), tlvs, un, u);
      && ctx' == e.ctx && err == e.err && e.update.None?
      && Emitted(session, e.sends, e.disconnect)
  {
    var proof := Tlv.Find(tlvs, 0x25);
    if proof.None? {
      return Background, Some(MissingTlv(0x25));
    }
    var expected := c.md5(u.cipher + u.password + AimMd5String);
    if expected != proof.value.data {
      var e := SendSnacThenFrame(session, 0x17, 0x03, ErrorReply(un), Disco);
      return Background, if e then Some(Io) else None;
    }
    var cookie := c.marshal(AuthorizationCookie(u.uin, Hex(expected)));
    var reply := LoginReply(un, bosAddress, cookie, u.email);
    var _ := SendSnacThenFrame(session, 0x17, 0x03, reply, Disco);
    var derr := session.Disconnect();
    return Background, if derr then Some(Io) else None;
  }

  /**
   * The challenge and the login agree: after the key request for a known
   * user stores cipher `k` and replies with it, a login whose proof is
   * MD5(k, password, salt) is accepted, and the cookie it mints verifies.
   */
  lemma ChallengeThenLogin(c: Crypto, k: bytes, db: Db, ctx: Ctx, closed: bool, keyBody: bytes, loginBody: bytes, bosAddress: bytes)
    requires UniqueUins(db.users) && db.canRead && db.canWrite
    requires ctx.Ctx? && ctx.session.Some?
    requires Tlv.ParseAll(keyBody).Some? && Tlv.Find(Tlv.ParseAll(keyBody).value, 1).Some?
    requires UserByUsername(db, Tlv.Find(Tlv.ParseAll(keyBody).value, 1).value.data).Found?
    requires Tlv.ParseAll(loginBody).Some?
    requires Tlv.Find(Tlv.ParseAll(loginBody).value, 1) == Tlv.Find(Tlv.ParseAll(keyBody).value, 1)
    requires Tlv.Find(Tlv.ParseAll(loginBody).value, 0x25).Some?
    requires Tlv.Find(Tlv.ParseAll(loginBody).value, 0x25).value.data ==
      c.md5(k + UserByUsername(db, Tlv.Find(Tlv.ParseAll(keyBody).value, 1).value.data).user.password + AimMd5String)
    ensures var e := HandleSpec(c, k, bosAddress, db, ctx, closed, 0x06, keyBody);
      && e.update.Some? && e.sends == [SnacOut(0x17, 0x07, KeyReply(k))]
      && var e' := HandleSpec(c, k, bosAddress, AfterUpdate(db, e.update.value), ctx, closed, 0x02, loginBody);
      && e'.disconnect && |e'.sends| > 0
      && e'.sends[0] == SnacOut(0x17, 0x03, LoginReply(Tlv.Find(Tlv.ParseAll(keyBody).value, 1).value, bosAddress, MintCookie(c, e.update.value), e.update.value.email))
  {
    var un := Tlv.Find(Tlv.ParseAll(keyBody).value, 1).value;
    var u := UserByUsername(db, un.data).user;
    var u' := u.(cipher := k);
    KeyAccepted(c, k, bosAddress, db, ctx, closed, keyBody, un, u);
    FindAfterUpdate(db, ByUsername(un.data), u');
    LoginAccepted(c, k, bosAddress, AfterUpdate(db, u'), ctx, closed, loginBody, un, u');
  }

  /** A key request for a known user, with the store writable, stores the cipher and replies with it. */
  lemma KeyAccepted(c: Crypto, k: bytes, bosAddress: bytes, db: Db, ctx: Ctx, closed: bool, keyBody: bytes, un: Tlv.TLV, u: User)
    requires ctx.Ctx? && ctx.session.Some? && db.canWrite
    requires Tlv.ParseAll(keyBody).Some? && Tlv.Find(Tlv.ParseAll(keyBody).value, 1) == Some(un)
    requires UserByUsername(db, un.data) == Found(u)
    ensures var o := SnacOut(0x17, 0x07, KeyReply(k));
      HandleSpec(c, k, bosAddress, db, ctx, closed, 0x06, keyBody) == AuthEffect([o], ctx, SendResult(closed, o), Some(u.(cipher := k)), false)
  {
  }

  /** A login for a known user whose proof is that user's digest is accepted with a cookie, then disconnects. */
  lemma LoginAccepted(c: Crypto, k: bytes, bosAddress: bytes, db: Db, ctx: Ctx, closed: bool, loginBody: bytes, un: Tlv.TLV, u: User)
    requires ctx.Ctx? && ctx.session.Some?
    requires Tlv.ParseAll(loginBody).Some? && Tlv.Find(Tlv.ParseAll(loginBody).value, 1) == Some(un)
    requires UserByUsername(db, un.data) == Found(u)
    requires Tlv.Find(Tlv.ParseAll(loginBody).value, 0x25).Some? && Tlv.Find(Tlv.ParseAll(loginBody).value, 0x25).value.data == Digest(c, u)
    ensures HandleSpec(c, k, bosAddress, db, ctx, closed, 0x02, loginBody) ==
      AuthEffect([SnacOut(0x17, 0x03, LoginReply(un, bosAddress, MintCookie(c, u), u.email)), Disco], Background, if closed then Some(Io) else None, None, true)
  {
  }

}

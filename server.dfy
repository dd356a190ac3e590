/**
 * What server.go does with one frame (`handleFn`, lines 116-204) and when a
 * connection ends (`handleCloseFn`, lines 206-223): note the user's
 * activity, then act on the frame's channel.  Channel 1 carries the hello
 * echo or a login cookie, channel 2 a SNAC for the registered service of its
 * family, channel 4 the client's sign-off and channel 5 a keep-alive.
 *
 * A handler error of kind `Panic` stands for a Go panic; it crashes the
 * server, which the model reports as `crashed` instead of carrying on.
 */
module Server {
  import opened Wire
  import Snac
  import Tlv
  import Flap
  import opened Models
  import opened Session
  import opened Handler
  import Managers
  import Auth
  import Generic
  import Location
  import BuddyList
  import Icbm
  import Feedbag
  import Reassembly

  /** The values the handlers read from outside the connection: clock, hashing, JSON, random cipher, map order, addresses. */
  datatype Env = Env(
    order: seq<uint16>,
    code: Status -> uint32,
    clock: Clock,
    crypto: Auth.Crypto,
    cipher: bytes,
    bosAddress: bytes)

  /** The server-wide state a frame can change: the store, the two channels and the session registry. */
  datatype World = World(db: Db, online: seq<User>, comm: seq<Message>, registry: map<bytes, Session?>)

  // ---------------------------------------------------------------------
  // One SNAC, handed to the service registered for its family
  // ---------------------------------------------------------------------

  /**
   * What a service's `HandleSNAC` does, in the same terms for every service.
   * `held` is the context's `*User` as the service leaves it: Go shares that
   * object between the context the service was given and the one it
   * returns, so edits made before an error are still on it.
   */
  datatype Step = Step(sends: seq<Out>, ctx: Ctx, err: Option<Fault>, world: World, disconnect: bool, held: Option<User>)

  /** The context's user, or none for a nil context. */
  function UserOf(ctx: Ctx): Option<User> {
    if ctx.Ctx? then ctx.user else None
  }

  function WithColumns(db: Db, update: Option<User>, cols: set<Column>): Db {
    if update.Some? then db.(users := ReplaceColumns(db.users, update.value, cols)) else db
  }

  function WithPush<T>(q: seq<T>, pushed: Option<T>): seq<T> {
    if pushed.Some? then q + [pushed.value] else q
  }

  /** The effect of `service.HandleSNAC` for each kind of service, read off that service's own model. */
  function ServiceSpec(env: Env, svc: Managers.Service, w: World, ctx: Ctx, closed: bool, subtype: uint16, body: bytes): (s: Step)
    requires Generic.Offered(env.order)
    ensures s.world.registry == w.registry
    ensures s.disconnect ==> svc == Managers.AuthorizationRegistration
    ensures s.held.Some? <==> UserOf(ctx).Some?
    ensures s.held.Some? ==> s.held.value.screenName == UserOf(ctx).value.screenName
    ensures svc !in {Managers.GenericServiceControls, Managers.LocationServices} ==> s.held == UserOf(ctx)
  {
    match svc
    case GenericServiceControls => GenericStep(env, w, ctx, closed, subtype)
    case LocationServices => LocationStep(env, w, ctx, closed, subtype, body)
    case BuddyListManagement => BuddyListStep(w, ctx, closed, subtype, body)
    case Icbm => IcbmStep(w, ctx, closed, subtype, body)
    case Feedbag => FeedbagStep(w, ctx, closed, subtype)
    case AuthorizationRegistration => AuthStep(env, w, ctx, closed, subtype, body)
  }

  /** 0x01: the status column written, the user pushed online. */
  function GenericStep(env: Env, w: World, ctx: Ctx, closed: bool, subtype: uint16): (s: Step)
    requires Generic.Offered(env.order)
    ensures s.world.registry == w.registry && !s.disconnect
    ensures s.held.Some? <==> UserOf(ctx).Some?
    ensures s.held.Some? ==> s.held.value.screenName == UserOf(ctx).value.screenName
  {
    var e := Generic.HandleSpec(env.order, env.code, env.clock, w.db, ctx, closed, subtype);
    Step(e.sends, e.ctx, e.err, w.(db := WithColumns(w.db, e.update, {StatusColumn}), online := WithPush(w.online, e.pushed)), false,
         UserOf(e.ctx))
  }

  /** 0x02: the profile columns written, the user pushed online. */
  function LocationStep(env: Env, w: World, ctx: Ctx, closed: bool, subtype: uint16, body: bytes): (s: Step)
    ensures s.world.registry == w.registry && !s.disconnect
    ensures s.held.Some? <==> UserOf(ctx).Some?
    ensures s.held.Some? ==> s.held.value.screenName == UserOf(ctx).value.screenName
  {
    var e := Location.HandleSpec(env.code, env.clock, w.db, ctx, closed, subtype, body);
    Step(e.sends, e.ctx, e.err, w.(db := WithColumns(w.db, e.update, Location.ProfileColumns), online := WithPush(w.online, e.pushed)), false,
         Location.Held(ctx, subtype, body))
  }

  /** 0x03: the buddy rows edited. */
  function BuddyListStep(w: World, ctx: Ctx, closed: bool, subtype: uint16, body: bytes): (s: Step)
    ensures s.world.registry == w.registry && !s.disconnect && s.held == UserOf(ctx)
  {
    var e := BuddyList.HandleSpec(w.db, ctx, closed, subtype, body);
    Step(e.sends, e.ctx, e.err, w.(db := e.db), false, UserOf(ctx))
  }

  /** 0x04: a message stored and queued for delivery. */
  function IcbmStep(w: World, ctx: Ctx, closed: bool, subtype: uint16, body: bytes): (s: Step)
    ensures s.world.registry == w.registry && !s.disconnect && s.held == UserOf(ctx)
  {
    var e := Icbm.HandleSpec(w.db, ctx, closed, subtype, body);
    var db := if e.stored.Some? then w.db.(messages := w.db.messages + [e.stored.value]) else w.db;
    Step(e.sends, e.ctx, e.err, w.(db := db, comm := WithPush(w.comm, e.stored)), false, UserOf(ctx))
  }

  /** 0x13: replies only. */
  function FeedbagStep(w: World, ctx: Ctx, closed: bool, subtype: uint16): (s: Step)
    ensures s.world == w && !s.disconnect && s.held == UserOf(ctx)
  {
    var e := Feedbag.HandleSpec(ctx, closed, subtype);
    Step(e.sends, e.ctx, e.err, w, false, UserOf(ctx))
  }

  /** 0x17: the user's cipher written, and possibly a disconnect. */
  function AuthStep(env: Env, w: World, ctx: Ctx, closed: bool, subtype: uint16, body: bytes): (s: Step)
    ensures s.world.registry == w.registry && s.held == UserOf(ctx)
  {
    var e := Auth.HandleSpec(env.crypto, env.cipher, env.bosAddress, w.db, ctx, closed, subtype, body);
    Step(e.sends, e.ctx, e.err, w.(db := if e.update.Some? then AfterUpdate(w.db, e.update.value) else w.db), e.disconnect,
         UserOf(ctx))
  }

  /**
   * A service's handling of one SNAC as a value: the frame-level functions
   * take it as a parameter, so that what they say about frames holds
   * whatever the services do.
   */
  type Serve = (Managers.Service, World, Ctx, bool, uint16, bytes) -> Step

  /** The services as modelled here. */
  function ServeOf(env: Env): Serve
    requires Generic.Offered(env.order)
  {
    (svc: Managers.Service, w: World, ctx: Ctx, closed: bool, subtype: uint16, body: bytes) => ServiceSpec(env, svc, w, ctx, closed, subtype, body)
  }

  // ---------------------------------------------------------------------
  // One frame
  // ---------------------------------------------------------------------

  /** The context, the session's screen name and the world after the activity note at the top of `handleFn`. */
  datatype Touch = Touch(ctx: Ctx, name: bytes, world: World)

  /**
   * Lines 124-135: with a user in the context, its last activity becomes
   * now (the context holds a reference to the same user), the session takes
   * its screen name and is registered under it.
   */
  function TouchSpec(env: Env, w: World, ctx: Ctx, name: bytes): (t: Touch)
    requires ctx.Ctx? && ctx.session.Some?
    ensures ctx.user.None? ==> t == Touch(ctx, name, w)
    ensures ctx.user.Some? ==>
      && t.ctx.Ctx? && t.ctx.user == Some(ctx.user.value.(lastActivityAt := env.clock.now))
      && t.name == ctx.user.value.screenName
      && t.world.registry == w.registry[ctx.user.value.screenName := ctx.session.value]
    ensures t.ctx.Ctx? && t.ctx.session == ctx.session && t.ctx.channel == ctx.channel
    ensures t.world.db == w.db && t.world.online == w.online && t.world.comm == w.comm
  {
    if ctx.user.None? then Touch(ctx, name, w)
    else
      var u := ctx.user.value;
      Touch(ctx.(user := Some(u.(lastActivityAt := env.clock.now))), u.screenName,
            w.(registry := w.registry[u.screenName := ctx.session.value]))
  }

  /**
   * `handleCloseFn`, lines 206-223: only with a user in the context, set it
   * away (status column written, failures only logged), hand it to the
   * online channel, close the connection and clear its registry entry.
   * The second component says whether the connection is closed.
   */
  function CloseSpec(ctx: Ctx, w: World): (r: (World, bool))
    requires ctx.Ctx?
    ensures ctx.user.None? ==> r == (w, false)
    ensures ctx.user.Some? ==>
      var away := ctx.user.value.(status := Away);
      && r.0.online == w.online + [away] && r.0.comm == w.comm
      && r.0.db == (if w.db.canWrite then w.db.(users := ReplaceColumns(w.db.users, away, {StatusColumn})) else w.db)
      && r.0.registry == (if ctx.session.Some? then w.registry[ctx.user.value.screenName := null] else w.registry)
      && r.1 == ctx.session.Some?
  {
    if ctx.user.None? then (w, false)
    else
      var u := ctx.user.value;
      var away := u.(status := Away);
      var db := if w.db.canWrite then w.db.(users := ReplaceColumns(w.db.users, away, {StatusColumn})) else w.db;
      (World(db, w.online + [away], w.comm, if ctx.session.Some? then w.registry[u.screenName := null] else w.registry),
       ctx.session.Some?)
  }

  /**
   * The result of one frame: the context handed to the next frame, whether
   * the server crashed, the frames sent, whether the connection was closed,
   * the session's screen name and the world afterwards.
   */
  datatype Outcome = Outcome(ctx: Ctx, crashed: bool, sends: seq<Out>, closes: bool, name: bytes, world: World)

  /**
   * Lines 145-170: the hello echo, or a login cookie checked by
   * `AuthenticateFLAPCookie` as written, whose panics (a payload under 4
   * bytes, a UIN with no user row) crash the server.
   */
  function ChannelOne(env: Env, t: Touch, closed: bool, body: bytes): (o: Outcome)
    requires t.ctx.Ctx?
    ensures !o.closes && o.world == t.world
    ensures o.crashed <==> body != Reassembly.Hello && Auth.AuthenticateFLAPCookie(env.crypto, t.world.db, body) == Auth.Rejected(Panic)
    ensures body != Reassembly.Hello && |body| < 4 ==> o.crashed
    ensures o.sends != [] <==> body != Reassembly.Hello && Auth.AuthenticateFLAPCookie(env.crypto, t.world.db, body).Authenticated?
    ensures o.sends != [] ==> o.ctx.Ctx? && o.ctx.user.Some? && o.name == o.ctx.user.value.screenName
    ensures o.sends != [] ==> o.sends == [SnacOut(0x01, 0x03, Words(env.order))]
    ensures o.sends == [] ==> o.ctx == t.ctx && o.name == t.name
  {
    if body == Reassembly.Hello then Outcome(t.ctx, false, [], false, t.name, t.world)
    else match Auth.AuthenticateFLAPCookie(env.crypto, t.world.db, body)
      case Rejected(Panic) => Outcome(t.ctx, true, [], false, t.name, t.world)
      case Rejected(_) => Outcome(t.ctx, false, [], false, t.name, t.world)
      case Authenticated(u) =>
        Outcome(t.ctx.(user := Some(u)), false, [SnacOut(0x01, 0x03, Words(env.order))], false, u.screenName, t.world)
  }

  /**
   * Lines 171-191: a payload too short for a SNAC header closes the
   * connection; a family with no service is ignored; otherwise the
   * service's context is kept, and its error closes the connection.
   */
  function ChannelTwo(serve: Serve, services: map<uint16, Managers.Service>, t: Touch, closed: bool, body: bytes): (o: Outcome)
    requires t.ctx.Ctx?
    ensures o.name == t.name
    ensures |body| < 10 ==> o.ctx == t.ctx && !o.crashed && o.sends == [] && o.closes && o.world == CloseSpec(t.ctx, t.world).0
    ensures o.crashed || o.sends != [] ==> |body| >= 10 && Snac.ParseHeader(body).value.family in services
    ensures |body| >= 10 && Snac.ParseHeader(body).value.family !in services ==> o == Outcome(t.ctx, false, [], false, t.name, t.world)
  {
    if |body| < 10 then
      var c := CloseSpec(t.ctx, t.world);
      Outcome(t.ctx, false, [], true, t.name, c.0)
    else
      var h := Snac.ParseHeader(body).value;
      if h.family !in services then Outcome(t.ctx, false, [], false, t.name, t.world)
      else Served(serve, services[h.family], t, closed, h.subtype, body[10..])
  }

  /**
   * Lines 183-189: the service's context is kept; a panic crashes, any
   * other error closes the connection.  The close handler is given the
   * context from before the service, but its user is the shared `*User`,
   * so it sees the service's edits.
   */
  function Served(serve: Serve, svc: Managers.Service, t: Touch, closed: bool, subtype: uint16, body: bytes): (o: Outcome)
    requires t.ctx.Ctx?
    ensures var s := serve(svc, t.world, t.ctx, closed, subtype, body);
      && o.ctx == s.ctx && o.sends == s.sends && o.name == t.name
      && (o.crashed <==> s.err == Some(Panic))
      && (o.closes <==> s.disconnect || (s.err.Some? && s.err != Some(Panic)))
      && (s.err.Some? && s.err != Some(Panic) ==> o.world == CloseSpec(t.ctx.(user := s.held), s.world).0)
      && (s.err.None? ==> o.world == s.world)
  {
    ServedBy(serve(svc, t.world, t.ctx, closed, subtype, body), t.ctx, t.name)
  }

  /** `Served` once the service's effect `s` is known. */
  function ServedBy(s: Step, ctx: Ctx, name: bytes): Outcome
    requires ctx.Ctx?
  {
    if s.err == Some(Panic) then Outcome(s.ctx, true, s.sends, s.disconnect, name, s.world)
    else if s.err.Some? then Outcome(s.ctx, false, s.sends, true, name, CloseSpec(ctx.(user := s.held), s.world).0)
    else Outcome(s.ctx, false, s.sends, s.disconnect, name, s.world)
  }

  /** `handleFn` on a frame, given the world, the context, the connection state and the session's screen name before it. */
  function FrameSpec(env: Env, serve: Serve, services: map<uint16, Managers.Service>, w: World, ctx: Ctx, closed: bool, name: bytes,
                     frame: Flap.Decoded): (o: Outcome)
    ensures o.crashed ==> ctx.Nil? || frame.header.channel in {1, 2}
    ensures ctx.Ctx? && ctx.session.None? ==> o == Outcome(ctx, false, [], false, name, w)
    ensures o.sends != [] ==> frame.header.channel in {1, 2}
    ensures frame.header.channel !in {1, 2, 4} ==> !o.closes && o.sends == []
  {
    if ctx.Nil? then Outcome(ctx, true, [], false, name, w)
    else if ctx.session.None? then Outcome(ctx, false, [], false, name, w)
    else
      var t := TouchSpec(env, w, ctx, name);
      if frame.header.channel == 1 then ChannelOne(env, t, closed, frame.body)
      else if frame.header.channel == 2 then ChannelTwo(serve, services, t, closed, frame.body)
      else if frame.header.channel == 4 then
        var c := CloseSpec(t.ctx, t.world);
        Outcome(t.ctx, false, [], c.1, t.name, c.0)
      else Outcome(t.ctx, false, [], false, t.name, t.world)
  }

  /** `handleFn` as a value: the functions of the connection loop take it as a parameter. */
  type FrameFn = (World, Ctx, bool, bytes, Flap.Decoded) -> Outcome

  /** The frame handler as modelled here. */
  function HandleFnOf(env: Env, serve: Serve, services: map<uint16, Managers.Service>): FrameFn
  {
    (w: World, ctx: Ctx, closed: bool, name: bytes, frame: Flap.Decoded) => FrameSpec(env, serve, services, w, ctx, closed, name, frame)
  }

  /**
   * The SNAC 1:3 sent on login lists each family of `ServiceVersions`
   * exactly once as a word, and nothing else: 10 bytes in all.
   */
  lemma FamiliesListed(order: seq<uint16>)
    requires Generic.Enumerates(order)
    ensures |Words(order)| == 2 * |Generic.ServiceVersions| == 10
    ensures forall k :: 0 <= k < |order| ==> Words(order)[2 * k..2 * k + 2] == Be16(order[k]) && order[k] in Generic.ServiceVersions
    ensures forall f :: f in Generic.ServiceVersions ==> exists k :: 0 <= k < |order| && Words(order)[2 * k..2 * k + 2] == Be16(f)
  {
    Generic.ServiceVersionsSize();
    Generic.EnumeratesSize(order);
    forall k | 0 <= k < |order| ensures Words(order)[2 * k..2 * k + 2] == Be16(order[k]) {
      WordsAt(order, k);
    }
    forall f | f in Generic.ServiceVersions ensures exists k :: 0 <= k < |order| && Words(order)[2 * k..2 * k + 2] == Be16(f) {
      var k :| 0 <= k < |order| && order[k] == f;
      WordsAt(order, k);
    }
  }

  /**
   * The server crashes on a frame exactly when the context is nil, the
   * frame is a channel-1 cookie whose check panics, or the frame is a SNAC
   * for a registered service whose handler panics.
   */
  lemma CrashIff(env: Env, serve: Serve, services: map<uint16, Managers.Service>, w: World, ctx: Ctx, closed: bool, name: bytes, frame: Flap.Decoded)
    ensures FrameSpec(env, serve, services, w, ctx, closed, name, frame).crashed <==>
      || ctx.Nil?
      || (&& ctx.session.Some? && frame.header.channel == 1 && frame.body != Reassembly.Hello
          && Auth.AuthenticateFLAPCookie(env.crypto, w.db, frame.body) == Auth.Rejected(Panic))
      || (&& ctx.session.Some? && frame.header.channel == 2 && |frame.body| >= 10
          && Snac.ParseHeader(frame.body).value.family in services
          && var h := Snac.ParseHeader(frame.body).value;
             serve(services[h.family], TouchSpec(env, w, ctx, name).world, TouchSpec(env, w, ctx, name).ctx,
                   closed, h.subtype, frame.body[10..]).err == Some(Panic))
  {
  }

  /**
   * A SNAC whose service returns an error other than a panic closes the
   * connection and runs the close handler on the user the service left
   * behind (`held`): it is set away, handed to the online channel and
   * unregistered.
   */
  lemma HandlerErrorCloses(env: Env, serve: Serve, services: map<uint16, Managers.Service>, w: World, ctx: Ctx, closed: bool, name: bytes,
                           frame: Flap.Decoded, held: User)
    requires ctx.Ctx? && ctx.session.Some?
    requires frame.header.channel == 2 && |frame.body| >= 10
    requires Snac.ParseHeader(frame.body).value.family in services
    requires var h := Snac.ParseHeader(frame.body).value;
      var t := TouchSpec(env, w, ctx, name);
      var s := serve(services[h.family], t.world, t.ctx, closed, h.subtype, frame.body[10..]);
      s.err.Some? && s.err != Some(Panic) && s.held == Some(held)
    ensures var o := FrameSpec(env, serve, services, w, ctx, closed, name, frame);
      && o.closes && !o.crashed
      && o.world.registry[held.screenName] == null
      && o.world.online[|o.world.online| - 1] == held.(status := Away)
  {
    var t := TouchSpec(env, w, ctx, name);
    var h := Snac.ParseHeader(frame.body).value;
    var s := serve(services[h.family], t.world, t.ctx, closed, h.subtype, frame.body[10..]);
    assert FrameSpec(env, serve, services, w, ctx, closed, name, frame) == Served(serve, services[h.family], t, closed, h.subtype, frame.body[10..]);
    var c := CloseSpec(t.ctx.(user := s.held), s.world);
    assert c.0.online == s.world.online + [held.(status := Away)];
  }

  /**
   * A SNAC 2:4 with TLVs 4, 3 and 2 but no TLV 1 from a signed-on user: the
   * service fails for the missing profile encoding after copying the away
   * message into the shared user, so the connection closes and the user
   * pushed to the online channel carries the new away message.
   */
  lemma AwayEditSurvivesClose(env: Env, services: map<uint16, Managers.Service>, w: World, ctx: Ctx, closed: bool, name: bytes,
                              frame: Flap.Decoded, u: User, tlvs: seq<Tlv.TLV>)
    requires Generic.Offered(env.order)
    requires ctx.Ctx? && ctx.session.Some? && ctx.user == Some(u)
    requires frame.header.channel == 2 && |frame.body| >= 10
    requires Snac.ParseHeader(frame.body).value.family == 0x02 && Snac.ParseHeader(frame.body).value.subtype == 0x04
    requires services.Keys == {0x02} && services[0x02] == Managers.LocationServices
    requires Tlv.ParseAll(frame.body[10..]) == Some(tlvs)
    requires Tlv.Find(tlvs, 4).Some? && Tlv.Find(tlvs, 3).Some? && Tlv.Find(tlvs, 2).Some? && Tlv.Find(tlvs, 1).None?
    ensures var o := FrameSpec(env, ServeOf(env), services, w, ctx, closed, name, frame);
      && o.closes && !o.crashed && o.ctx == Nil
      && o.world.online == w.online + [u.(lastActivityAt := env.clock.now, awayMessage := Tlv.Find(tlvs, 4).value.data,
                                         awayMessageEncoding := Tlv.Find(tlvs, 3).value.data, status := Away)]
  {
    var t := TouchSpec(env, w, ctx, name);
    var body := frame.body[10..];
    var s := LocationProfileError(env, t, closed, body, tlvs);
    assert FrameSpec(env, ServeOf(env), services, w, ctx, closed, name, frame) == Served(ServeOf(env), Managers.LocationServices, t, closed, 0x04, body);
    assert t.ctx.(user := s.held).user == Some(u.(lastActivityAt := env.clock.now, awayMessage := Tlv.Find(tlvs, 4).value.data,
                                                  awayMessageEncoding := Tlv.Find(tlvs, 3).value.data));
  }

  /** The location service's step for the SNAC of `AwayEditSurvivesClose`. */
  lemma LocationProfileError(env: Env, t: Touch, closed: bool, body: bytes, tlvs: seq<Tlv.TLV>) returns (s: Step)
    requires Generic.Offered(env.order) && t.ctx.Ctx? && t.ctx.user.Some?
    requires Tlv.ParseAll(body) == Some(tlvs)
    requires Tlv.Find(tlvs, 4).Some? && Tlv.Find(tlvs, 3).Some? && Tlv.Find(tlvs, 2).Some? && Tlv.Find(tlvs, 1).None?
    ensures s == ServeOf(env)(Managers.LocationServices, t.world, t.ctx, closed, 0x04, body)
    ensures s.err == Some(MissingTlv(1)) && s.ctx == Nil && s.world == t.world
    ensures s.held == Some(t.ctx.user.value.(awayMessage := Tlv.Find(tlvs, 4).value.data,
                                             awayMessageEncoding := Tlv.Find(tlvs, 3).value.data))
  {
    Location.AwayKeptOnProfileError(t.world.db, t.ctx, body, tlvs);
    s := ServiceSpec(env, Managers.LocationServices, t.world, t.ctx, closed, 0x04, body);
  }

  /**
   * While a user is signed on, any frame, even a keep-alive on channel 5,
   * stamps the user's activity with the current time and registers the
   * session under the user's screen name.
   */
  lemma KeepAliveTouches(env: Env, serve: Serve, services: map<uint16, Managers.Service>, w: World, ctx: Ctx, closed: bool, name: bytes,
                         frame: Flap.Decoded, s: Session, u: User)
    requires ctx.Ctx? && ctx.session == Some(s) && ctx.user == Some(u) && frame.header.channel == 5
    ensures var o := FrameSpec(env, serve, services, w, ctx, closed, name, frame);
      && o.ctx == ctx.(user := Some(u.(lastActivityAt := env.clock.now)))
      && o.world == w.(registry := w.registry[u.screenName := s])
      && o.name == u.screenName && o.sends == [] && !o.closes && !o.crashed
  {
  }

  // ---------------------------------------------------------------------
  // The connection loop
  // ---------------------------------------------------------------------

  /** What the connection's session holds: the frames written, the counter, whether it is closed and greeted, the screen name. */
  datatype Peer = Peer(written: seq<bytes>, sequence: uint16, closed: bool, greeted: bool, name: bytes)

  /** What `Handle` carries from one frame to the next: the context, whether the server crashed, the world and the session. */
  datatype Carry = Carry(ctx: Ctx, crashed: bool, world: World, peer: Peer)

  /** The context holds the connection's session `s`, or no session at all. */
  predicate Bound(ctx: Ctx, s: Session) {
    ctx.Nil? || ctx.session.None? || ctx.session == Some(s)
  }

  function PeerOf(s: Session): Peer
    reads s
  {
    Peer(s.written, s.sequenceNumber, s.closed, s.greetedClient, s.screenName)
  }

  /**
   * `ctx = h.handleFn(ctx, flap)` (line 111) on the carried state.  A
   * context without the session leaves the session alone; with it, the
   * session receives the frame's sends and closes as `FrameSpec` says.
   */
  function HandleOne(handle: FrameFn, c: Carry, frame: Flap.Decoded): (r: Carry)
    ensures r.peer.greeted == c.peer.greeted && c.peer.written <= r.peer.written
    ensures c.peer.closed ==> r.peer.closed && r.peer.written == c.peer.written
  {
    var live := c.ctx.Ctx? && c.ctx.session.Some?;
    var o := handle(c.world, c.ctx, live && c.peer.closed, if live then c.peer.name else [], frame);
    Carry(o.ctx, o.crashed, o.world,
          if !live then c.peer
          else Peer(c.peer.written + Delivered(c.peer.sequence, c.peer.closed, o.sends), Iterate(c.peer.sequence, |o.sends|),
                    c.peer.closed || o.closes, c.peer.greeted, o.name))
  }

  /** With a nil context `handleFn` panics; with a context lacking the session, the session is left alone. */
  lemma FrameWithoutSession(env: Env, serve: Serve, services: map<uint16, Managers.Service>, c: Carry, frame: Flap.Decoded)
    ensures c.ctx.Nil? ==> HandleOne(HandleFnOf(env, serve, services), c, frame) == c.(crashed := true)
    ensures c.ctx.Ctx? && c.ctx.session.None? ==> HandleOne(HandleFnOf(env, serve, services), c, frame) == c.(crashed := false)
  {
  }

  /** The inner loop (lines 89-111) handing the extracted frames over in order; after a crash nothing more happens. */
  function HandleAll(handle: FrameFn, c: Carry, frames: seq<Flap.Decoded>): (r: Carry)
    ensures c.crashed ==> r == c
    ensures r.peer.greeted == c.peer.greeted && c.peer.written <= r.peer.written
    ensures c.peer.closed ==> r.peer.closed && r.peer.written == c.peer.written
    decreases |frames|
  {
    if frames == [] then c
    else
      var before := HandleAll(handle, c, frames[..|frames| - 1]);
      if before.crashed then before else HandleOne(handle, before, frames[|frames| - 1])
  }

  /** Lines 54-60: the first time round the hello is sent, its error ignored, and the session is marked greeted. */
  function Greeting(p: Peer): (q: Peer)
    ensures q.greeted && q.closed == p.closed && q.name == p.name
    ensures p.greeted ==> q == p
    ensures !p.greeted ==> q.sequence == Next(p.sequence) && q.written == p.written + (if p.closed then [] else [Framed(1, q.sequence, Reassembly.Hello)])
  {
    if p.greeted then p
    else
      var n := Next(p.sequence);
      p.(written := p.written + (if p.closed then [] else [Framed(1, n, Reassembly.Hello)]), sequence := n, greeted := true)
  }

  /** The loop's state between reads: what is carried, the accumulation buffer, and whether `Handle` has returned. */
  datatype Loop = Loop(carry: Carry, buf: bytes, done: bool)

  /**
   * One pass of the outer loop of `Handle` (lines 52-112) on what the
   * client offered, `r`.  On a closed connection the read fails: the
   * session is disconnected again and the close handler runs on the
   * context, which panics for a nil one.  A timeout reads again; an empty
   * read or any other error returns.  Otherwise the bytes are appended and
   * every complete frame is handled.
   */
  function RoundSpec(handle: FrameFn, c: Carry, buf: bytes, r: Reassembly.Read): (l: Loop)
    ensures l.carry.peer.greeted && (l.carry.crashed ==> l.done || c.crashed)
    ensures c.peer.closed ==>
      && l.done && l.carry.peer.closed && l.carry.peer.written == c.peer.written && l.buf == buf
      && (l.carry.crashed <==> c.ctx.Nil? || c.crashed)
      && l.carry.world == (if c.ctx.Nil? then c.world else CloseSpec(c.ctx, c.world).0)
    ensures !c.peer.closed && (r.Failed? || r == Reassembly.Got([])) ==> l == Loop(c.(peer := Greeting(c.peer)), buf, true)
    ensures !c.peer.closed && r.TimedOut? ==> l == Loop(c.(peer := Greeting(c.peer)), buf, false)
    ensures !c.peer.closed && r.Got? && r.chunk != [] ==> l.buf == Reassembly.Cut(buf + r.chunk).1
  {
    var g := c.(peer := Greeting(c.peer));
    match Reassembly.Arrived(g.peer.closed, r)
    case ClosedConnection =>
      var p := g.peer.(closed := true);
      if c.ctx.Nil? then Loop(Carry(c.ctx, true, c.world, p), buf, true)
      else Loop(Carry(c.ctx, c.crashed, CloseSpec(c.ctx, c.world).0, p), buf, true)
    case TimedOut => Loop(g, buf, false)
    case Failed => Loop(g, buf, true)
    case Got(chunk) =>
      if chunk == [] then Loop(g, buf, true)
      else
        var cut := Reassembly.Cut(buf + chunk);
        var h := HandleAll(handle, g, cut.0);
        Loop(h, cut.1, h.crashed)
  }

  /** A pass of the outer loop as a value, so that what is said about the loop holds whatever a pass does. */
  type RoundFn = (Carry, bytes, Reassembly.Read) -> Loop

  /** The pass of the outer loop as modelled here. */
  function RoundOf(handle: FrameFn): RoundFn
  {
    (c: Carry, buf: bytes, r: Reassembly.Read) => RoundSpec(handle, c, buf, r)
  }

  /** `Handle` over what the client offers to each read, `offers`, in order, until a round returns or crashes. */
  function Run(round: RoundFn, l: Loop, offers: seq<Reassembly.Read>): (r: Loop)
    ensures l.done ==> r == l
    decreases |offers|
  {
    if offers == [] then l
    else
      var before := Run(round, l, offers[..|offers| - 1]);
      if before.done then before else round(before.carry, before.buf, offers[|offers| - 1])
  }

  /** Making one more offer, unless `Handle` has returned. */
  lemma RunNext(round: RoundFn, l: Loop, offers: seq<Reassembly.Read>, i: nat)
    requires i < |offers|
    ensures var before := Run(round, l, offers[..i]);
      Run(round, l, offers[..i + 1]) == if before.done then before else round(before.carry, before.buf, offers[i])
  {
    assert offers[..i + 1][..i] == offers[..i];
  }

  /** Once a read has been made, the client has been greeted. */
  lemma {:induction false} RunGreets(handle: FrameFn, l: Loop, offers: seq<Reassembly.Read>)
    requires !l.done && |offers| > 0
    ensures Run(RoundOf(handle), l, offers).carry.peer.greeted
    decreases |offers|
  {
    var front := offers[..|offers| - 1];
    if front != [] {
      RunGreets(handle, l, front);
    }
  }

  /** Handing over one more frame, unless the server has crashed. */
  lemma HandleAllNext(handle: FrameFn, c: Carry, frames: seq<Flap.Decoded>, i: nat)
    requires i < |frames|
    ensures var before := HandleAll(handle, c, frames[..i]);
      HandleAll(handle, c, frames[..i + 1]) == if before.crashed then before else HandleOne(handle, before, frames[i])
  {
    assert frames[..i + 1][..i] == frames[..i];
  }

  /** Handing over `a` and then `b` is handing over `a + b`. */
  lemma {:induction false} HandleAllAppend(handle: FrameFn, c: Carry, a: seq<Flap.Decoded>, b: seq<Flap.Decoded>)
    ensures HandleAll(handle, c, a + b) == HandleAll(handle, HandleAll(handle, c, a), b)
    decreases |b|
  {
    if b == [] {
      assert a + b == a;
    } else {
      var ab, front, last := a + b, b[..|b| - 1], b[|b| - 1];
      assert ab[..|ab| - 1] == a + front && ab[|ab| - 1] == last;
      var before := HandleAll(handle, c, a + front);
      assert before == HandleAll(handle, HandleAll(handle, c, a), front) by {
        HandleAllAppend(handle, c, a, front);
      }
      assert HandleAll(handle, c, ab) == if before.crashed then before else HandleOne(handle, before, last);
    }
  }

  /** Once a frame crashes the server, the frames after it are never handled. */
  lemma CrashStops(handle: FrameFn, c: Carry, frames: seq<Flap.Decoded>, i: nat)
    requires i <= |frames| && HandleAll(handle, c, frames[..i]).crashed
    ensures HandleAll(handle, c, frames) == HandleAll(handle, c, frames[..i])
  {
    assert frames == frames[..i] + frames[i..];
    HandleAllAppend(handle, c, frames[..i], frames[i..]);
  }

  /** Running the offers `a` and then `b` is running `a + b`. */
  lemma {:induction false} RunAppend(round: RoundFn, l: Loop, a: seq<Reassembly.Read>, b: seq<Reassembly.Read>)
    ensures Run(round, l, a + b) == Run(round, Run(round, l, a), b)
    decreases |b|
  {
    if b == [] {
      assert a + b == a;
    } else {
      var ab, front, last := a + b, b[..|b| - 1], b[|b| - 1];
      assert ab[..|ab| - 1] == a + front && ab[|ab| - 1] == last;
      var before := Run(round, l, a + front);
      assert before == Run(round, Run(round, l, a), front) by {
        RunAppend(round, l, a, front);
      }
      assert Run(round, l, ab) == if before.done then before else round(before.carry, before.buf, last);
    }
  }

  /** Once a round returns, the offers after it are never made. */
  lemma RunStops(round: RoundFn, l: Loop, offers: seq<Reassembly.Read>, i: nat)
    requires i <= |offers| && Run(round, l, offers[..i]).done
    ensures Run(round, l, offers) == Run(round, l, offers[..i])
  {
    assert offers == offers[..i] + offers[i..];
    RunAppend(round, l, offers[..i], offers[i..]);
  }

  /** The context `after` holds the session of `before`, or no session at all. */
  predicate Keeps(before: Ctx, after: Ctx) {
    after.Nil? || after.session.None? || (before.Ctx? && after.session == before.session)
  }

  lemma GenericKeepsSession(env: Env, w: World, ctx: Ctx, closed: bool, subtype: uint16)
    requires Generic.Offered(env.order)
    ensures Keeps(ctx, GenericStep(env, w, ctx, closed, subtype).ctx)
  {
  }

  lemma LocationKeepsSession(env: Env, w: World, ctx: Ctx, closed: bool, subtype: uint16, body: bytes)
    ensures Keeps(ctx, LocationStep(env, w, ctx, closed, subtype, body).ctx)
  {
  }

  lemma IcbmKeepsSession(w: World, ctx: Ctx, closed: bool, subtype: uint16, body: bytes)
    ensures Keeps(ctx, IcbmStep(w, ctx, closed, subtype, body).ctx)
  {
  }

  lemma AuthKeepsSession(env: Env, w: World, ctx: Ctx, closed: bool, subtype: uint16, body: bytes)
    ensures Keeps(ctx, AuthStep(env, w, ctx, closed, subtype, body).ctx)
  {
  }

  /** No service puts a session other than its own into the context it returns. */
  lemma ServiceKeepsSession(env: Env, svc: Managers.Service, w: World, ctx: Ctx, closed: bool, subtype: uint16, body: bytes)
    requires Generic.Offered(env.order)
    ensures Keeps(ctx, ServiceSpec(env, svc, w, ctx, closed, subtype, body).ctx)
  {
    match svc
    case GenericServiceControls => GenericKeepsSession(env, w, ctx, closed, subtype);
    case LocationServices => LocationKeepsSession(env, w, ctx, closed, subtype, body);
    case BuddyListManagement =>
    case Icbm => IcbmKeepsSession(w, ctx, closed, subtype, body);
    case Feedbag =>
    case AuthorizationRegistration => AuthKeepsSession(env, w, ctx, closed, subtype, body);
  }

  /** A frame leaves in the context either the session it found there or none. */
  lemma FrameKeepsSession(env: Env, services: map<uint16, Managers.Service>, w: World, ctx: Ctx, closed: bool, name: bytes,
                          frame: Flap.Decoded)
    requires Generic.Offered(env.order)
    ensures Keeps(ctx, FrameSpec(env, ServeOf(env), services, w, ctx, closed, name, frame).ctx)
  {
    if ctx.Ctx? && ctx.session.Some? && frame.header.channel == 2 {
      var t := TouchSpec(env, w, ctx, name);
      var body := frame.body;
      if |body| >= 10 && Snac.ParseHeader(body).value.family in services {
        var h := Snac.ParseHeader(body).value;
        ServiceKeepsSession(env, services[h.family], t.world, t.ctx, closed, h.subtype, body[10..]);
        assert ServeOf(env)(services[h.family], t.world, t.ctx, closed, h.subtype, body[10..])
            == ServiceSpec(env, services[h.family], t.world, t.ctx, closed, h.subtype, body[10..]);
      }
    }
  }

  /**
   * After a sign-off frame (channel 4) closes the connection of a logged-in
   * user, the next read fails on the closed connection and the close
   * handler runs a second time: the away user reaches the online channel
   * twice, whatever the client offered.
   */
  lemma SignOffClosesTwice(env: Env, serve: Serve, services: map<uint16, Managers.Service>, c: Carry, frame: Flap.Decoded, buf: bytes,
                           offered: Reassembly.Read)
    requires c.ctx.Ctx? && c.ctx.session.Some? && c.ctx.user.Some? && !c.crashed && c.peer.greeted
    requires frame.header.channel == 4
    ensures var h := HandleOne(HandleFnOf(env, serve, services), c, frame);
      var away := c.ctx.user.value.(lastActivityAt := env.clock.now, status := Away);
      var l := RoundSpec(HandleFnOf(env, serve, services), h, buf, offered);
      && h.peer.closed && !h.crashed && h.world.online == c.world.online + [away]
      && l.done && !l.carry.crashed && l.carry.world.online == c.world.online + [away, away]
  {
    var t := TouchSpec(env, c.world, c.ctx, c.peer.name);
    var h := HandleOne(HandleFnOf(env, serve, services), c, frame);
    assert h.ctx == t.ctx;
  }

  /**
   * The frames handled do not depend on how the client's bytes are split
   * across reads: a read of `x` and then one of `y` leave what a single read
   * of `x + y` leaves, as long as the first leaves the connection open.
   */
  lemma ReadsSplitFreely(handle: FrameFn, c: Carry, buf: bytes, x: bytes, y: bytes)
    requires c.peer.greeted && !c.peer.closed && x != [] && y != []
    requires var l := RoundSpec(handle, c, buf, Reassembly.Got(x)); !l.done && !l.carry.peer.closed
    ensures var l := RoundSpec(handle, c, buf, Reassembly.Got(x));
      RoundSpec(handle, l.carry, l.buf, Reassembly.Got(y)) == RoundSpec(handle, c, buf, Reassembly.Got(x + y))
  {
    var cx := Reassembly.Cut(buf + x);
    var h1 := HandleAll(handle, c, cx.0);
    var cy := Reassembly.Cut(cx.1 + y);
    var h2 := HandleAll(handle, h1, cy.0);
    assert RoundSpec(handle, c, buf, Reassembly.Got(x)) == Loop(h1, cx.1, h1.crashed) by {
      GotRound(handle, c, buf, x);
    }
    assert RoundSpec(handle, h1, cx.1, Reassembly.Got(y)) == Loop(h2, cy.1, h2.crashed) by {
      GotRound(handle, h1, cx.1, y);
    }
    assert Reassembly.Cut(buf + (x + y)) == (cx.0 + cy.0, cy.1) by {
      Reassembly.CutAppend(buf + x, y);
      assert buf + (x + y) == (buf + x) + y;
    }
    assert HandleAll(handle, c, cx.0 + cy.0) == h2 by {
      HandleAllAppend(handle, c, cx.0, cy.0);
    }
    assert RoundSpec(handle, c, buf, Reassembly.Got(x + y)) == Loop(h2, cy.1, h2.crashed) by {
      GotRound(handle, c, buf, x + y);
    }
  }

  /** A round acts as it would once the hello has gone out. */
  lemma GreetedRound(handle: FrameFn, c: Carry, buf: bytes, r: Reassembly.Read)
    ensures RoundSpec(handle, c, buf, r) == RoundSpec(handle, c.(peer := Greeting(c.peer)), buf, r)
  {
  }

  /** A round on an open, greeted connection that reads bytes hands the frames they complete to the handler. */
  lemma GotRound(handle: FrameFn, c: Carry, buf: bytes, chunk: bytes)
    requires c.peer.greeted && !c.peer.closed && chunk != []
    ensures var cut := Reassembly.Cut(buf + chunk);
      var h := HandleAll(handle, c, cut.0);
      RoundSpec(handle, c, buf, Reassembly.Got(chunk)) == Loop(h, cut.1, h.crashed)
  {
  }

  /** The session after a frame's sends (and closing, when `closes`), with the screen name `name`. */
  twostate predicate SessionAfter(s: Session, sends: seq<Out>, closes: bool, name: bytes)
    reads s
  {
    && s.written == old(s.written) + Delivered(old(s.sequenceNumber), old(s.closed), sends)
    && s.sequenceNumber == Iterate(old(s.sequenceNumber), |sends|)
    && s.closed == (old(s.closed) || closes)
    && s.greetedClient == old(s.greetedClient) && s.screenName == name
  }

  /** The session's screen name, or empty without a session. */
  function NameOf(ctx: Ctx): bytes
    reads Sessions(ctx)
  {
    if ctx.Ctx? && ctx.session.Some? then ctx.session.value.screenName else []
  }

  // ---------------------------------------------------------------------
  // The handler
  // ---------------------------------------------------------------------

  /** server.go's `Handler`: the store, the two channels and the two registries. */
  class FrameHandler {
    const store: Store
    const channels: Channels
    const sessions: Managers.SessionManager
    const services: Managers.ServiceManager

    constructor (store: Store, channels: Channels, sessions: Managers.SessionManager, services: Managers.ServiceManager)
      ensures this.store == store && this.channels == channels
      ensures this.sessions == sessions && this.services == services
    {
      this.store := store;
      this.channels := channels;
      this.sessions := sessions;
      this.services := services;
    }

    function State(): World
      reads this, store, channels, sessions
    {
      World(store.db, channels.online, channels.comm, sessions.sessions)
    }

    /** `handleFn`. */
    method HandleFn(env: Env, ctx: Ctx, frame: Flap.Decoded) returns (ctx': Ctx, crashed: bool)
      requires Generic.Offered(env.order)
      modifies store, channels, sessions, Sessions(ctx)
      ensures var o := FrameSpec(env, ServeOf(env), services.services, old(State()), ctx, old(ClosedOf(ctx)), old(NameOf(ctx)), frame);
        && ctx' == o.ctx && crashed == o.crashed && State() == o.world
        && (ctx.Ctx? && ctx.session.Some? ==> SessionAfter(ctx.session.value, o.sends, o.closes, o.name))
    {
      if ctx.Nil? {
        return ctx, true;
      }
      if ctx.session.None? {
        return ctx, false;
      }
      var session := ctx.session.value;
      var t := NoteActivity(env, ctx, session);
      if frame.header.channel == 1 {
        ctx', crashed := ChannelOneFn(env, t, session, frame.body);
      } else if frame.header.channel == 2 {
        ctx', crashed := ChannelTwoFn(env, t, session, frame.body);
      } else if frame.header.channel == 4 {
        CloseFn(t);
        ctx', crashed := t, false;
      } else {
        ctx', crashed := t, false;
      }
    }

    /** Lines 89-111: each extracted frame goes to `handleFn` in order, with the context the previous one returned. */
    method HandleFrames(env: Env, session: Session, ctx: Ctx, frames: seq<Flap.Decoded>) returns (ctx': Ctx, crashed: bool)
      requires Generic.Offered(env.order) && Bound(ctx, session)
      modifies store, channels, sessions, session
      ensures Bound(ctx', session)
      ensures Carry(ctx', crashed, State(), PeerOf(session))
        == HandleAll(HandleFnOf(env, ServeOf(env), services.services), old(Carry(ctx, false, State(), PeerOf(session))), frames)
    {
      ghost var start, handle := Carry(ctx, false, State(), PeerOf(session)), HandleFnOf(env, ServeOf(env), services.services);
      ctx', crashed := ctx, false;
      var i := 0;
      while i < |frames| && !crashed
        invariant 0 <= i <= |frames| && Bound(ctx', session)
        invariant Carry(ctx', crashed, State(), PeerOf(session)) == HandleAll(handle, start, frames[..i])
      {
        ghost var before := Carry(ctx', crashed, State(), PeerOf(session));
        ctx', crashed := HandleFrame(env, session, ctx', frames[i]);
        HandleAllNext(handle, start, frames, i);
        i := i + 1;
      }
      if i < |frames| {
        CrashStops(handle, start, frames, i);
      } else {
        assert frames[..i] == frames;
      }
    }

    /** Line 111 for the connection's session: `handleFn` on the carried state. */
    method HandleFrame(env: Env, session: Session, ctx: Ctx, frame: Flap.Decoded) returns (ctx': Ctx, crashed: bool)
      requires Generic.Offered(env.order) && Bound(ctx, session)
      modifies store, channels, sessions, session
      ensures Bound(ctx', session)
      ensures Carry(ctx', crashed, State(), PeerOf(session))
        == HandleOne(HandleFnOf(env, ServeOf(env), services.services), old(Carry(ctx, false, State(), PeerOf(session))), frame)
    {
      FrameKeepsSession(env, services.services, State(), ctx, ClosedOf(ctx), NameOf(ctx), frame);
      ctx', crashed := HandleFn(env, ctx, frame);
    }

    /**
     * One pass of the outer loop (lines 52-112): greet, read what the
     * client offers, and act on the result.  `done` says that `Handle` has
     * returned.
     */
    method Round(env: Env, conn: Reassembly.Connection, ctx: Ctx, offered: Reassembly.Read) returns (ctx': Ctx, crashed: bool, done: bool)
      requires Generic.Offered(env.order) && Bound(ctx, conn.session) && !conn.ended
      modifies store, channels, sessions, conn, conn.session
      ensures Bound(ctx', conn.session) && (!done ==> !conn.ended)
      ensures Loop(Carry(ctx', crashed, State(), PeerOf(conn.session)), conn.buf, done)
        == RoundSpec(HandleFnOf(env, ServeOf(env), services.services), old(Carry(ctx, false, State(), PeerOf(conn.session))), old(conn.buf), offered)
    {
      ghost var c := Carry(ctx, false, State(), PeerOf(conn.session));
      conn.Greet();
      GreetedRound(HandleFnOf(env, ServeOf(env), services.services), c, conn.buf, offered);
      ctx', crashed, done := AfterGreeting(env, conn, ctx, offered);
    }

    /** Lines 62-111: the rest of a pass once the hello has gone out. */
    method AfterGreeting(env: Env, conn: Reassembly.Connection, ctx: Ctx, offered: Reassembly.Read) returns (ctx': Ctx, crashed: bool, done: bool)
      requires Generic.Offered(env.order) && Bound(ctx, conn.session) && !conn.ended && conn.session.greetedClient
      modifies store, channels, sessions, conn, conn.session
      ensures Bound(ctx', conn.session) && (!done ==> !conn.ended)
      ensures Loop(Carry(ctx', crashed, State(), PeerOf(conn.session)), conn.buf, done)
        == RoundSpec(HandleFnOf(env, ServeOf(env), services.services), old(Carry(ctx, false, State(), PeerOf(conn.session))), old(conn.buf), offered)
    {
      var session := conn.session;
      match Reassembly.Arrived(session.closed, offered)
      case ClosedConnection =>
        var _ := session.Disconnect();
        if ctx.Nil? {
          return ctx, true, true;
        }
        CloseFn(ctx);
        return ctx, false, true;
      case TimedOut =>
        return ctx, false, false;
      case Failed =>
        return ctx, false, true;
      case Got(chunk) =>
        var frames := conn.Receive(chunk);
        if |chunk| == 0 {
          return ctx, false, true;
        }
        ctx', crashed := HandleFrames(env, session, ctx, frames);
        done := crashed;
    }

    /**
     * `Handle` (lines 42-112) on a new connection, over what the client
     * offers to each read: the context starts with the connection's session
     * alone, and the loop goes on until a round returns or the offers run out.
     */
    method Handle(env: Env, conn: Reassembly.Connection, offers: seq<Reassembly.Read>) returns (ctx: Ctx, crashed: bool, done: bool)
      requires Generic.Offered(env.order) && !conn.ended
      modifies store, channels, sessions, conn, conn.session
      ensures Loop(Carry(ctx, crashed, State(), PeerOf(conn.session)), conn.buf, done)
        == Run(RoundOf(HandleFnOf(env, ServeOf(env), services.services)), old(Loop(Carry(ContextWithSession(conn.session), false, State(), PeerOf(conn.session)), conn.buf, false)), offers)
    {
      ghost var start := Loop(Carry(ContextWithSession(conn.session), false, State(), PeerOf(conn.session)), conn.buf, false);
      ghost var handle := HandleFnOf(env, ServeOf(env), services.services);
      ctx, crashed, done := ContextWithSession(conn.session), false, false;
      var i := 0;
      while i < |offers| && !done
        invariant 0 <= i <= |offers| && Bound(ctx, conn.session) && (!done ==> !conn.ended) && (crashed ==> done)
        invariant Loop(Carry(ctx, crashed, State(), PeerOf(conn.session)), conn.buf, done) == Run(RoundOf(handle), start, offers[..i])
      {
        ghost var before := Loop(Carry(ctx, crashed, State(), PeerOf(conn.session)), conn.buf, done);
        ctx, crashed, done := Round(env, conn, ctx, offers[i]);
        RunNext(RoundOf(handle), start, offers, i);
        i := i + 1;
      }
      if i < |offers| {
        RunStops(RoundOf(handle), start, offers, i);
      } else {
        assert offers[..i] == offers;
      }
    }

    /** Lines 124-135. */
    method NoteActivity(env: Env, ctx: Ctx, session: Session) returns (t: Ctx)
      requires ctx.Ctx? && ctx.session == Some(session)
      modifies sessions, session
      ensures var s := TouchSpec(env, old(State()), ctx, old(session.screenName));
        && t == s.ctx && State() == s.world && session.screenName == s.name
      ensures session.written == old(session.written) && session.sequenceNumber == old(session.sequenceNumber)
      ensures session.closed == old(session.closed) && session.greetedClient == old(session.greetedClient)
    {
      if ctx.user.None? {
        return ctx;
      }
      var u := ctx.user.value.(lastActivityAt := env.clock.now);
      t := ctx.(user := Some(u));
      session.screenName := u.screenName;
      sessions.SetSession(u.screenName, session);
    }

    /** Lines 145-170. */
    method ChannelOneFn(env: Env, ctx: Ctx, session: Session, body: bytes) returns (ctx': Ctx, crashed: bool)
      requires ctx.Ctx? && ctx.session == Some(session)
      modifies session
      ensures var o := ChannelOne(env, Touch(ctx, old(session.screenName), State()), old(session.closed), body);
        && ctx' == o.ctx && crashed == o.crashed && !o.closes && o.world == State()
        && SessionAfter(session, o.sends, false, o.name)
    {
      assert session.written + Delivered(session.sequenceNumber, session.closed, []) == session.written;
      crashed := false;
      if body == Reassembly.Hello {
        return ctx, false;
      }
      var r := Auth.AuthenticateFLAPCookie(env.crypto, store.db, body);
      if r.Rejected? {
        return ctx, r.fault == Panic;
      }
      session.screenName := r.user.screenName;
      ctx' := ctx.(user := Some(r.user));
      var list := FamilyList(env.order);
      ghost var w0, n0 := session.written, session.sequenceNumber;
      assert w0 + Delivered(n0, session.closed, []) == w0;
      var _ := TransmitSnac(session, 0x01, 0x03, list, w0, n0, []);
      assert [] + [SnacOut(0x01, 0x03, Words(env.order))] == [SnacOut(0x01, 0x03, Words(env.order))];
    }

    /** Lines 162-165: one word per family of `ServiceVersions`, in the map's iteration order. */
    static method FamilyList(order: seq<uint16>) returns (body: bytes)
      ensures body == Words(order)
    {
      var list := new Snac.Snac.NewSNAC(0x01, 0x03);
      var i := 0;
      while i < |order|
        invariant 0 <= i <= |order|
        invariant list.data.d == Words(order[..i])
      {
        list.data.WriteUint16(order[i]);
        WordsSnoc(order, i);
        i := i + 1;
      }
      assert order[..|order|] == order;
      body := list.data.d;
    }

    /** Lines 171-191. */
    method ChannelTwoFn(env: Env, ctx: Ctx, session: Session, body: bytes) returns (ctx': Ctx, crashed: bool)
      requires Generic.Offered(env.order) && ctx.Ctx? && ctx.session == Some(session)
      modifies store, channels, sessions, session
      ensures var o := ChannelTwo(ServeOf(env), services.services, Touch(ctx, old(session.screenName), old(State())), old(session.closed), body);
        && ctx' == o.ctx && crashed == o.crashed && State() == o.world
        && SessionAfter(session, o.sends, o.closes, o.name)
    {
      assert session.written + Delivered(session.sequenceNumber, session.closed, []) == session.written;
      var h := DecodeSnac(body);
      if h.None? {
        Abort(ctx, session);
        return ctx, false;
      }
      var svc := services.GetService(h.value.family);
      if svc.None? {
        return ctx, false;
      }
      ctx', crashed := Serve(env, svc.value, ctx, session, h.value.subtype, body[10..]);
    }

    /** Line 173: `UnmarshalBinary` into an empty SNAC; it fails only under 10 bytes, and the body is the rest. */
    static method DecodeSnac(body: bytes) returns (h: Option<Snac.SnacHeader>)
      ensures h.None? <==> |body| < 10
      ensures h.Some? ==> h == Snac.ParseHeader(body)
    {
      var snac := new Snac.Snac.Empty();
      var bad := snac.UnmarshalBinary(body);
      if bad {
        return None;
      }
      return Some(snac.header);
    }

    /** Lines 183-189. */
    method Serve(env: Env, svc: Managers.Service, ctx: Ctx, session: Session, subtype: uint16, body: bytes)
      returns (ctx': Ctx, crashed: bool)
      requires Generic.Offered(env.order) && ctx.Ctx? && ctx.session == Some(session)
      modifies store, channels, sessions, session
      ensures var o := Served(ServeOf(env), svc, Touch(ctx, old(session.screenName), old(State())), old(session.closed), subtype, body);
        && ctx' == o.ctx && crashed == o.crashed && State() == o.world
        && SessionAfter(session, o.sends, o.closes, o.name)
    {
      ghost var s := ServiceSpec(env, svc, State(), ctx, session.closed, subtype, body);
      ghost var o := Served(ServeOf(env), svc, Touch(ctx, session.screenName, State()), session.closed, subtype, body);
      assert o == ServedBy(s, ctx, session.screenName) by {
        assert ServeOf(env)(svc, State(), ctx, session.closed, subtype, body) == s;
      }
      var err, held;
      ctx', err, held := Dispatch(env, svc, ctx, session, subtype, body);
      if err == Some(Panic) {
        return ctx', true;
      }
      if err.Some? {
        Abort(ctx.(user := held), session);
      }
      crashed := false;
    }

    /** `session.Disconnect()` then `handleCloseFn`. */
    method Abort(ctx: Ctx, session: Session)
      requires ctx.Ctx? && ctx.session == Some(session)
      modifies store, channels, sessions, session
      ensures State() == CloseSpec(ctx, old(State())).0 && session.closed
      ensures session.written == old(session.written) && session.sequenceNumber == old(session.sequenceNumber)
      ensures session.greetedClient == old(session.greetedClient) && session.screenName == old(session.screenName)
    {
      var _ := session.Disconnect();
      CloseFn(ctx);
    }

    /** `service.HandleSNAC` for the registered service. */
    method Dispatch(env: Env, svc: Managers.Service, ctx: Ctx, session: Session, subtype: uint16, body: bytes)
      returns (ctx': Ctx, err: Option<Fault>, held: Option<User>)
      requires Generic.Offered(env.order) && ctx.Ctx? && ctx.session == Some(session)
      modifies store, channels, session
      ensures var s := ServiceSpec(env, svc, old(State()), ctx, old(session.closed), subtype, body);
        && ctx' == s.ctx && err == s.err && State() == s.world && held == s.held
        && Emitted(session, s.sends, s.disconnect)
    {
      held := ctx.user;
      match svc
      case GenericServiceControls =>
        ctx', err := Generic.HandleSNAC(env.order, env.code, env.clock, store, channels, ctx, subtype);
        held := UserOf(ctx');
      case LocationServices =>
        ctx', err, held := Location.HandleSNAC(env.code, env.clock, store, channels, ctx, subtype, body);
      case Icbm =>
        ctx', err := Icbm.HandleSNAC(store, channels, ctx, subtype, body);
      case _ =>
        ctx', err, held := DispatchOffline(env, svc, ctx, session, subtype, body);
    }

    /** `Dispatch` for the services that never reach the channels: 0x03, 0x13 and 0x17. */
    method DispatchOffline(env: Env, svc: Managers.Service, ctx: Ctx, session: Session, subtype: uint16, body: bytes)
      returns (ctx': Ctx, err: Option<Fault>, held: Option<User>)
      requires Generic.Offered(env.order) && ctx.Ctx? && ctx.session == Some(session)
      requires svc in {Managers.BuddyListManagement, Managers.Feedbag, Managers.AuthorizationRegistration}
      modifies store, session
      ensures var s := ServiceSpec(env, svc, old(State()), ctx, old(session.closed), subtype, body);
        && ctx' == s.ctx && err == s.err && State() == s.world && held == s.held
        && Emitted(session, s.sends, s.disconnect)
    {
      held := ctx.user;
      if svc == Managers.BuddyListManagement {
        ctx', err := BuddyList.HandleSNAC(store, ctx, subtype, body);
      } else if svc == Managers.Feedbag {
        ctx', err := Feedbag.HandleSNAC(ctx, subtype);
      } else {
        ctx', err := Auth.HandleSNAC(env.crypto, env.cipher, env.bosAddress, store, ctx, subtype, body);
      }
    }

    /**
     * `handleCloseFn`.  The session it disconnects and unregisters is the
     * context's own (`SessionFromContext`); without one, the user is still
     * set away and handed to the online channel.
     */
    method CloseFn(ctx: Ctx)
      requires ctx.Ctx?
      modifies store, channels, sessions, Sessions(ctx)
      ensures State() == CloseSpec(ctx, old(State())).0
      ensures ctx.session.Some? ==>
        var s := ctx.session.value;
        && s.closed == (old(s.closed) || CloseSpec(ctx, old(State())).1)
        && s.written == old(s.written) && s.sequenceNumber == old(s.sequenceNumber)
        && s.greetedClient == old(s.greetedClient) && s.screenName == old(s.screenName)
    {
      if ctx.user.None? {
        return;
      }
      var u := ctx.user.value;
      var away := u.(status := Away);
      var _ := store.UpdateColumns(away, {StatusColumn});
      channels.PushOnline(away);
      if ctx.session.Some? {
        var _ := ctx.session.value.Disconnect();
        sessions.RemoveSession(u.screenName);
      }
    }
  }
}

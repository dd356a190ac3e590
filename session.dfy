/**
 * The per-connection session of oscar/session.go and the request context the
 * handlers thread through (session, authenticated user, ICBM channel
 * settings).  The network connection is modelled by the frames written to it
 * and whether it has been closed.
 */
module Session {
  import opened Wire
  import Flap
  import Snac
  import opened Models

  /** The 16-byte ICBM parameter record of 0x04_ICBM.go. */
  datatype ChannelSettings = ChannelSettings(
    id: uint16,
    messageFlags: uint32,
    maxMessageSnacSize: uint16,
    maxSenderWarningLevel: uint16,
    maxReceiverWarningLevel: uint16,
    minimumMessageInterval: uint16,
    unknown: uint16)

  /** The sequence number after `n`: Go's `uint16` addition wraps. */
  function Next(n: uint16): uint16 {
    (n + 1) % 0x1_0000
  }

  /** The bytes of a frame on `channel` stamped `seqNo` whose declared length is its payload's. */
  function Framed(channel: uint8, seqNo: uint16, payload: bytes): (r: bytes)
    ensures |r| == 6 + |payload|
  {
    Flap.Frame(Flap.FlapHeader(channel, seqNo, Trunc16(|payload|)), payload)
  }

  /** The body of a channel-2 frame carrying SNAC `family`:`subtype` (flags and request id 0). */
  function SnacPayload(family: uint16, subtype: uint16, body: bytes): (r: bytes)
    ensures |r| == 10 + |body|
  {
    Snac.Encode(Snac.SnacHeader(family, subtype, 0, 0), body)
  }

  function SnacFrame(seqNo: uint16, family: uint16, subtype: uint16, body: bytes): bytes {
    Framed(2, seqNo, SnacPayload(family, subtype, body))
  }

  class Session {
    var sequenceNumber: uint16
    var greetedClient: bool
    /** The screen name `server.go` records once a user is known. */
    var screenName: bytes
    /** Every frame written to the connection, in order. */
    var written: seq<bytes>
    /** Whether the connection has been closed; writes to a closed connection fail. */
    var closed: bool

    /** `NewSession`. */
    constructor NewSession()
      ensures sequenceNumber == 0 && !greetedClient
      ensures screenName == [] && written == [] && !closed
    {
      sequenceNumber := 0;
      greetedClient := false;
      screenName := [];
      written := [];
      closed := false;
    }

    /**
     * `Send`: advances the counter BEFORE stamping the frame, marshals it and
     * writes it.  A marshal failure (payload over 65535 bytes) or a closed
     * connection is an error and nothing is written; the counter has advanced
     * either way.
     */
    method Send(f: Flap.Flap) returns (err: bool)
      modifies this, f
      ensures sequenceNumber == Next(old(sequenceNumber))
      ensures f.header == old(f.header).(sequence := sequenceNumber, dataLength := Trunc16(|f.data.d|))
      ensures err <==> |f.data.d| > 0xffff || closed
      ensures written == if err then old(written) else old(written) + [Flap.Frame(f.header, f.data.d)]
      ensures greetedClient == old(greetedClient) && screenName == old(screenName) && closed == old(closed)
    {
      sequenceNumber := Next(sequenceNumber);
      f.header := f.header.(sequence := sequenceNumber);
      var bytes, merr := f.MarshalBinary();
      if merr {
        return true;
      }
      err := Write(bytes);
    }

    /** `Conn.Write`: fails on a closed connection. */
    method Write(b: bytes) returns (err: bool)
      modifies this
      ensures err <==> closed
      ensures written == if err then old(written) else old(written) + [b]
      ensures sequenceNumber == old(sequenceNumber) && greetedClient == old(greetedClient)
      ensures screenName == old(screenName) && closed == old(closed)
    {
      if closed {
        return true;
      }
      written := written + [b];
      err := false;
    }

    /** `Disconnect`: closes the connection; closing it a second time is an error. */
    method Disconnect() returns (err: bool)
      modifies this
      ensures closed && (err <==> old(closed))
      ensures written == old(written) && sequenceNumber == old(sequenceNumber)
      ensures greetedClient == old(greetedClient) && screenName == old(screenName)
    {
      err := closed;
      closed := true;
    }
  }

  /**
   * What `context.Context` carries between frames: a session, an
   * authenticated user and ICBM channel settings, each possibly absent.
   * `Nil` is the nil context one handler returns on some errors; looking
   * anything up in it panics.
   */
  datatype Ctx =
    | Nil
    | Ctx(session: Option<Session>, user: Option<User>, channel: Option<ChannelSettings>)

  /** `NewContextWithSession(context.Background(), conn)`. */
  function ContextWithSession(s: Session): (ctx: Ctx)
    ensures ctx.Ctx? && CurrentSession(ctx) == Some(s) && ctx.user.None? && ctx.channel.None?
  {
    Ctx(Some(s), None, None)
  }

  /** `context.Background()`: no values at all. */
  const Background: Ctx := Ctx(None, None, None)

  /** `CurrentSession`: the session, or `None` (the "no session in context" error). */
  function CurrentSession(ctx: Ctx): (r: Option<Session>)
    requires ctx.Ctx?
    ensures r.None? <==> ctx.session.None?
    ensures r.Some? ==> r.value == ctx.session.value
  {
    ctx.session
  }

  /**
   * Wraps `body` as SNAC `family`:`subtype` in a fresh channel-2 frame and
   * sends it (`NewSNAC`, `Data.Write`, `NewFLAP(2)`, `WriteBinary`, `Send`).
   */
  method SendSnac(s: Session, family: uint16, subtype: uint16, body: bytes) returns (err: bool)
    modifies s
    ensures s.sequenceNumber == Next(old(s.sequenceNumber))
    ensures err <==> s.closed || 10 + |body| > 0xffff
    ensures s.written == if err then old(s.written) else old(s.written) + [SnacFrame(s.sequenceNumber, family, subtype, body)]
    ensures s.greetedClient == old(s.greetedClient) && s.screenName == old(s.screenName) && s.closed == old(s.closed)
  {
    var snac := new Snac.Snac.NewSNAC(family, subtype);
    var _, _ := snac.data.Write(body);
    var flap := new Flap.Flap.NewFLAP(2);
    var payload := snac.MarshalBinary();
    var _, _ := flap.data.Write(payload);
    assert flap.data.d == SnacPayload(family, subtype, body);
    err := s.Send(flap);
    assert flap.header == Flap.FlapHeader(2, s.sequenceNumber, Trunc16(|flap.data.d|));
  }

  /** Sends a frame on `channel` with the given payload (`NewFLAP(channel)`, `Data.Write`, `Send`). */
  method SendFrame(s: Session, channel: uint8, payload: bytes) returns (err: bool)
    modifies s
    ensures s.sequenceNumber == Next(old(s.sequenceNumber))
    ensures err <==> s.closed || |payload| > 0xffff
    ensures s.written == if err then old(s.written) else old(s.written) + [Framed(channel, s.sequenceNumber, payload)]
    ensures s.greetedClient == old(s.greetedClient) && s.screenName == old(s.screenName) && s.closed == old(s.closed)
  {
    var flap := new Flap.Flap.NewFLAP(channel);
    var _, _ := flap.data.Write(payload);
    assert flap.data.d == payload;
    err := s.Send(flap);
    assert flap.header == Flap.FlapHeader(channel, s.sequenceNumber, Trunc16(|flap.data.d|));
  }

  /**
   * On a new session, two sends stamp 1 and then 2, and the connection
   * receives exactly the two marshalled frames in order.
   */
  method FirstTwoSends(a: bytes, b: bytes) returns (w: seq<bytes>, seqNo: uint16)
    requires |a| <= 0xffff && |b| <= 0xffff
    ensures w == [Framed(1, 1, a), Framed(2, 2, b)] && seqNo == 2
  {
    var s := new Session.NewSession();
    var e1 := SendFrame(s, 1, a);
    var e2 := SendFrame(s, 2, b);
    w, seqNo := s.written, s.sequenceNumber;
  }

  /** Counting from any value, the k-th send stamps the value plus k, modulo 2^16. */
  lemma {:induction false} NextIterated(n: uint16, k: nat)
    ensures Iterate(n, k) == (n + k) % 0x1_0000
  {
    if k > 0 {
      NextIterated(n, k - 1);
    }
  }

  /** The counter after `k` sends starting from `n`. */
  function Iterate(n: uint16, k: nat): uint16 {
    if k == 0 then n else Next(Iterate(n, k - 1))
  }
}

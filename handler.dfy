/**
 * What the SNAC handlers have in common: the errors they return, the frames
 * they send, and how a run of sends changes the session.  A send on an
 * open connection writes the frame stamped with the next sequence number; on
 * a closed connection (or with a payload over 65535 bytes) it fails and
 * writes nothing, but the counter advances either way.
 */
module Handler {
  import opened Wire
  import opened Models
  import opened Session

  /** The error a handler returns; `Panic` stands for a Go panic (nil dereference, bad slice, `PanicIfError`). */
  datatype Fault =
    | Panic
    | NoUserInSession
    | StoreFailed
    | Io
    | Malformed
    | MissingTlv(typ: uint16)
    | BadCookie
    | UnexpectedHash
    | UnknownUser
    | BadFragment
    | Truncated

  /**
   * The wall-clock readings a reply carries, in Unix seconds: the user's
   * idle time (`time.Since(LastActivityAt)`) and the current time.
   */
  datatype Clock = Clock(idle: uint32, now: uint32)

  /** One frame to send: its channel and payload. */
  datatype Out = Out(channel: uint8, payload: bytes)

  /** A channel-2 frame carrying SNAC `family`:`subtype` with the given body. */
  function SnacOut(family: uint16, subtype: uint16, body: bytes): Out {
    Out(2, SnacPayload(family, subtype, body))
  }

  /** Whether sending `o` fails. */
  predicate Fails(closed: bool, o: Out) {
    closed || |o.payload| > 0xffff
  }

  /** The error `session.Send(o)` returns. */
  function SendResult(closed: bool, o: Out): (r: Option<Fault>)
    ensures r.Some? <==> Fails(closed, o)
  {
    if Fails(closed, o) then Some(Io) else None
  }

  /** The bytes written by sending `outs` in order, starting from counter `n`. */
  function Delivered(n: uint16, closed: bool, outs: seq<Out>): (r: seq<bytes>)
    ensures |r| <= |outs|
    ensures closed ==> r == []
    decreases |outs|
  {
    if outs == [] then []
    else
      var k := Next(n);
      (if Fails(closed, outs[0]) then [] else [Framed(outs[0].channel, k, outs[0].payload)])
        + Delivered(k, closed, outs[1..])
  }

  lemma IterateShift(n: uint16, k: nat)
    ensures Iterate(Next(n), k) == Iterate(n, k + 1)
  {
    NextIterated(Next(n), k);
    NextIterated(n, k + 1);
  }

  /** Sending `a` and then `b` writes what sending `a + b` writes. */
  lemma {:induction false} DeliveredAppend(n: uint16, closed: bool, a: seq<Out>, b: seq<Out>)
    ensures Delivered(n, closed, a + b) == Delivered(n, closed, a) + Delivered(Iterate(n, |a|), closed, b)
    decreases |a|
  {
    if a == [] {
      assert a + b == b;
    } else {
      assert (a + b)[0] == a[0] && (a + b)[1..] == a[1..] + b;
      DeliveredAppend(Next(n), closed, a[1..], b);
      IterateShift(n, |a| - 1);
    }
  }

  /**
   * The session after sending `outs` (and then disconnecting, when `closes`),
   * compared with the session before.
   */
  twostate predicate Emitted(s: Session, outs: seq<Out>, closes: bool)
    reads s
  {
    && s.written == old(s.written) + Delivered(old(s.sequenceNumber), old(s.closed), outs)
    && s.sequenceNumber == Iterate(old(s.sequenceNumber), |outs|)
    && s.closed == (old(s.closed) || closes)
    && s.greetedClient == old(s.greetedClient) && s.screenName == old(s.screenName)
  }

  /** The sessions a context can write to: its own, when it has one. */
  function Sessions(ctx: Ctx): set<Session> {
    if ctx.Ctx? && ctx.session.Some? then {ctx.session.value} else {}
  }

  /** `ClosedOf`: whether the context's session has been closed (false without one). */
  function ClosedOf(ctx: Ctx): bool
    reads Sessions(ctx)
  {
    ctx.Ctx? && ctx.session.Some? && ctx.session.value.closed
  }

  /**
   * One more SNAC send (`NewSNAC`, body writes, `NewFLAP(2)`, `WriteBinary`,
   * `Send`) after the sends `sent` made since the state `w0`/`n0`.
   */
  method TransmitSnac(s: Session, family: uint16, subtype: uint16, body: bytes,
                      ghost w0: seq<bytes>, ghost n0: uint16, ghost sent: seq<Out>) returns (err: bool)
    requires s.written == w0 + Delivered(n0, s.closed, sent)
    requires s.sequenceNumber == Iterate(n0, |sent|)
    modifies s
    ensures s.written == w0 + Delivered(n0, s.closed, sent + [SnacOut(family, subtype, body)])
    ensures s.sequenceNumber == Iterate(n0, |sent| + 1)
    ensures err == Fails(s.closed, SnacOut(family, subtype, body))
    ensures s.closed == old(s.closed) && s.greetedClient == old(s.greetedClient) && s.screenName == old(s.screenName)
  {
    err := SendSnac(s, family, subtype, body);
    DeliveredAppend(n0, s.closed, sent, [SnacOut(family, subtype, body)]);
  }

  /** A handler's only send: exactly that SNAC is emitted. */
  method SendOne(s: Session, family: uint16, subtype: uint16, body: bytes) returns (err: bool)
    modifies s
    ensures Emitted(s, [SnacOut(family, subtype, body)], false)
    ensures err == Fails(old(s.closed), SnacOut(family, subtype, body))
  {
    ghost var w0, n0 := s.written, s.sequenceNumber;
    assert w0 + Delivered(n0, s.closed, []) == w0;
    err := TransmitSnac(s, family, subtype, body, w0, n0, []);
    assert [] + [SnacOut(family, subtype, body)] == [SnacOut(family, subtype, body)];
  }

  /** A SNAC followed by a raw frame, the handler's only sends. */
  method SendSnacThenFrame(s: Session, family: uint16, subtype: uint16, body: bytes, o: Out) returns (err: bool)
    modifies s
    ensures Emitted(s, [SnacOut(family, subtype, body), o], false)
    ensures err == Fails(old(s.closed), o)
  {
    ghost var w0, n0 := s.written, s.sequenceNumber;
    assert w0 + Delivered(n0, s.closed, []) == w0;
    var _ := TransmitSnac(s, family, subtype, body, w0, n0, []);
    assert [] + [SnacOut(family, subtype, body)] == [SnacOut(family, subtype, body)];
    err := TransmitFrame(s, o, w0, n0, [SnacOut(family, subtype, body)]);
  }

  /** One more raw frame (`NewFLAP(channel)`, payload write, `Send`). */
  method TransmitFrame(s: Session, o: Out, ghost w0: seq<bytes>, ghost n0: uint16, ghost sent: seq<Out>) returns (err: bool)
    requires s.written == w0 + Delivered(n0, s.closed, sent)
    requires s.sequenceNumber == Iterate(n0, |sent|)
    modifies s
    ensures s.written == w0 + Delivered(n0, s.closed, sent + [o])
    ensures s.sequenceNumber == Iterate(n0, |sent| + 1)
    ensures err == Fails(s.closed, o)
    ensures s.closed == old(s.closed) && s.greetedClient == old(s.greetedClient) && s.screenName == old(s.screenName)
  {
    err := SendFrame(s, o.channel, o.payload);
    DeliveredAppend(n0, s.closed, sent, [o]);
  }

  /** Two sends on an open connection write two frames stamped one after the other. */
  lemma TwoSendsOpen(n: uint16, a: Out, b: Out)
    requires |a.payload| <= 0xffff && |b.payload| <= 0xffff
    ensures Delivered(n, false, [a, b]) == [Framed(a.channel, Next(n), a.payload), Framed(b.channel, Next(Next(n)), b.payload)]
  {
    assert [a, b][1..] == [b];
    assert [b][1..] == [];
  }
}

/**
 * The connection loop of oscar/server.go (lines 37-95; the same loop is
 * repeated in server.go, lines 52-112): greet the client once, append each
 * chunk read from the socket to an accumulation buffer, and cut complete
 * FLAP frames off its front.  Reading the socket is replaced by the chunk
 * handed to `Receive`; `Server.FrameHandler.Handle` passes each frame on to
 * `handleFn`.
 */
module Reassembly {
  import opened Wire
  import Flap
  import opened Session

  /**
   * What one `conn.Read` returns: `n` bytes (with or without `io.EOF`), a
   * timeout, the error "use of closed network connection", or any other
   * error.
   */
  datatype Read = Got(chunk: bytes) | TimedOut | ClosedConnection | Failed

  /** A read on a connection the server has closed fails with the closed-connection error, whatever the client offered. */
  function Arrived(closed: bool, offered: Read): (r: Read)
    ensures closed ==> r.ClosedConnection?
    ensures !closed ==> r == offered
  {
    if closed then ClosedConnection else offered
  }

  /** The hello payload the server greets with, and that clients echo back. */
  const Hello: bytes := [0, 0, 0, 1]

  /**
   * The buffer holds no complete frame at its front: too short for a header,
   * a first byte that is not the marker, or fewer bytes than the header
   * declares.
   */
  predicate Stalled(b: bytes) {
    |b| < 6 || b[0] != Flap.Marker || |b| < 6 + Uint16At(b[4..])
  }

  /** The length of the frame at the front of a buffer that is not stalled. */
  function FrontLength(b: bytes): nat
    requires |b| >= 6
  {
    6 + Uint16At(b[4..])
  }

  /**
   * What the inner loop does to the buffer `b`: the frames it extracts, in
   * order, and what remains.  Each frame is the decoding of exactly
   * `6 + declared length` bytes.
   */
  function Cut(b: bytes): (r: (seq<Flap.Decoded>, bytes))
    ensures |r.1| <= |b| && Stalled(r.1)
    decreases |b|
  {
    if Stalled(b) then ([], b)
    else
      var n := FrontLength(b);
      var f := Flap.Decode(b[..n]).value;
      var rest := Cut(b[n..]);
      ([f] + rest.0, rest.1)
  }

  /** The byte form of frames whose declared lengths are their payloads' lengths. */
  function EncodeAll(fs: seq<Flap.Decoded>): bytes {
    if fs == [] then [] else Flap.Frame(fs[0].header, fs[0].body) + EncodeAll(fs[1..])
  }

  predicate Consistent(f: Flap.Decoded) {
    f.header.dataLength == |f.body|
  }

  class Connection {
    const session: Session
    /** The accumulation buffer (`var buf bytes.Buffer`). */
    var buf: bytes
    /** Set when a read returned no bytes: `Handle` has returned. */
    var ended: bool

    constructor (s: Session)
      ensures session == s && buf == [] && !ended
    {
      session := s;
      buf := [];
      ended := false;
    }

    /**
     * The greeting at the head of the loop: the first time round, a
     * channel-1 frame with payload `00 00 00 01` is sent and `GreetedClient`
     * set; afterwards nothing happens.  The send's error is ignored.
     */
    method Greet()
      modifies session
      ensures session.greetedClient
      ensures old(session.greetedClient) ==> session.written == old(session.written) && session.sequenceNumber == old(session.sequenceNumber)
      ensures !old(session.greetedClient) ==> session.sequenceNumber == Next(old(session.sequenceNumber))
      ensures !old(session.greetedClient) ==>
        session.written == old(session.written) + (if session.closed then [] else [Framed(1, session.sequenceNumber, Hello)])
      ensures session.closed == old(session.closed) && session.screenName == old(session.screenName)
    {
      if !session.greetedClient {
        var _ := SendFrame(session, 1, Hello);
        session.greetedClient := true;
      }
    }

    /**
     * The inner loop: while the buffer holds at least 6 bytes starting with
     * 0x2a, cut off `6 + declared length` bytes if that many are present and
     * decode them; stop as soon as the front frame is incomplete.
     */
    method Extract() returns (frames: seq<Flap.Decoded>)
      modifies this
      ensures (frames, buf) == Cut(old(buf))
      ensures ended == old(ended)
    {
      frames := [];
      assert [] + Cut(buf).0 == Cut(buf).0;
      while |buf| >= 6 && buf[0] == Flap.Marker
        invariant Cut(old(buf)) == (frames + Cut(buf).0, Cut(buf).1)
        invariant ended == old(ended)
        decreases |buf|
      {
        var dataLength := Uint16At(buf[4..6]);
        assert buf[4..6] == buf[4..][..2];
        var flapLength: nat := dataLength as int + 6;
        if |buf| < flapLength {
          break;
        }
        ghost var before := buf;
        var flapBuf := buf[..flapLength];
        buf := buf[flapLength..];
        var flap := new Flap.Flap.Empty();
        var err := flap.UnmarshalBinary(flapBuf);
        DecodeNeverFails(flapBuf);
        var frame := Flap.Decoded(flap.header, flap.data.d);
        assert frame == Flap.Decode(flapBuf).value;
        assert Cut(before) == ([frame] + Cut(buf).0, Cut(buf).1);
        assert (frames + [frame]) + Cut(buf).0 == frames + ([frame] + Cut(buf).0);
        frames := frames + [frame];
      }
      assert Stalled(buf);
      assert frames + [] == frames;
    }

    /**
     * One read of `chunk`: an empty read ends the connection; otherwise the
     * bytes are appended in arrival order and complete frames are extracted.
     */
    method Receive(chunk: bytes) returns (frames: seq<Flap.Decoded>)
      requires !ended
      modifies this
      ensures |chunk| == 0 ==> ended && frames == [] && buf == old(buf)
      ensures |chunk| > 0 ==> !ended && (frames, buf) == Cut(old(buf) + chunk)
    {
      if |chunk| == 0 {
        ended := true;
        return [];
      }
      buf := buf + chunk;
      frames := Extract();
    }
  }

  /**
   * Inside the loop the bytes handed to `UnmarshalBinary` have at least 6
   * bytes and start with 0x2a, so decoding cannot fail: the branch that
   * discards the whole buffer on a decode error is never taken.
   */
  lemma DecodeNeverFails(b: bytes)
    requires |b| >= 6 && b[0] == Flap.Marker
    ensures Flap.Decode(b).Ok? && Flap.Decode(b).value.body == b[6..]
  {
  }

  /** Every extracted frame's payload is exactly as long as its header declares. */
  lemma {:induction false} CutFramesConsistent(b: bytes)
    ensures forall k :: 0 <= k < |Cut(b).0| ==> Consistent(Cut(b).0[k])
    decreases |b|
  {
    if !Stalled(b) {
      var n := FrontLength(b);
      CutFramesConsistent(b[n..]);
      var f := Flap.Decode(b[..n]).value;
      assert b[..n][4..] == b[4..][..2] + b[6..n];
      assert Uint16At(b[..n][4..]) == Uint16At(b[4..]);
    }
  }

  /**
   * Cutting a buffer that received `c` after `b` extracts the frames of `b`
   * and then the frames of what `b` left with `c` appended: the frames do
   * not depend on how the bytes were split into reads.
   */
  lemma {:induction false} CutAppend(b: bytes, c: bytes)
    ensures Cut(b + c).0 == Cut(b).0 + Cut(Cut(b).1 + c).0
    ensures Cut(b + c).1 == Cut(Cut(b).1 + c).1
    decreases |b|
  {
    if !Stalled(b) {
      var n := FrontLength(b);
      assert (b + c)[4..][..2] == b[4..][..2];
      assert !Stalled(b + c) && FrontLength(b + c) == n;
      assert (b + c)[..n] == b[..n];
      assert (b + c)[n..] == b[n..] + c;
      CutAppend(b[n..], c);
    }
  }

  /**
   * Whole frames with consistent lengths, followed by a stalled tail, are
   * extracted exactly and in order, and the tail is what remains.
   */
  lemma {:induction false} CutEncodeAll(fs: seq<Flap.Decoded>, tail: bytes)
    requires forall k :: 0 <= k < |fs| ==> Consistent(fs[k])
    requires Stalled(tail)
    ensures Cut(EncodeAll(fs) + tail) == (fs, tail)
  {
    if fs == [] {
      assert EncodeAll(fs) + tail == tail;
    } else {
      var rest := EncodeAll(fs[1..]) + tail;
      assert EncodeAll(fs) + tail == Flap.Frame(fs[0].header, fs[0].body) + rest;
      assert Consistent(fs[0]);
      CutFront(fs[0], rest);
      assert forall k :: 0 <= k < |fs[1..]| ==> Consistent(fs[1..][k]) by {
        forall k | 0 <= k < |fs[1..]| ensures Consistent(fs[1..][k]) {
          assert fs[1..][k] == fs[k + 1];
        }
      }
      CutEncodeAll(fs[1..], tail);
      assert Cut(rest) == (fs[1..], tail);
      assert [fs[0]] + fs[1..] == fs;
    }
  }

  /** Bytes 4 and 5 of a frame hold its declared length, whatever follows it. */
  lemma FrameDeclares(h: Flap.FlapHeader, body: bytes, rest: bytes)
    ensures |Flap.Frame(h, body) + rest| >= 6
    ensures Uint16At((Flap.Frame(h, body) + rest)[4..]) == h.dataLength
  {
    var b := Flap.Frame(h, body) + rest;
    assert b[4..] == Be16(h.dataLength) + (body + rest);
    Be16RoundTrip(h.dataLength, body + rest);
  }

  /** A whole consistent frame at the front of a buffer is the first thing cut. */
  lemma CutFront(f: Flap.Decoded, rest: bytes)
    requires Consistent(f)
    ensures Cut(Flap.Frame(f.header, f.body) + rest) == ([f] + Cut(rest).0, Cut(rest).1)
  {
    var fb := Flap.Frame(f.header, f.body);
    var b := fb + rest;
    FrameDeclares(f.header, f.body, rest);
    assert FrontLength(b) == |fb|;
    assert b[..|fb|] == fb && b[|fb|..] == rest;
    Flap.DecodeFrame(f.header, f.body);
  }

  /**
   * A buffer whose first byte is not 0x2a is never consumed or cleared:
   * whatever arrives afterwards, nothing is extracted.
   */
  lemma BadHeadStallsForever(b: bytes, more: bytes)
    requires |b| > 0 && b[0] != Flap.Marker
    ensures Cut(b + more) == ([], b + more)
  {
  }

  /** Greeting twice sends the hello once. */
  method GreetTwice() returns (w: seq<bytes>)
    ensures w == [Framed(1, 1, Hello)]
  {
    var s := new Session.NewSession();
    var c := new Connection(s);
    c.Greet();
    c.Greet();
    w := s.written;
  }

  /**
   * Two reads that split one frame anywhere deliver it once, after the
   * second read, and leave the buffer empty.
   */
  method SplitFrame(f: Flap.Decoded, k: nat) returns (first: seq<Flap.Decoded>, second: seq<Flap.Decoded>, left: bytes)
    requires Consistent(f)
    requires 0 < k < 6 + |f.body|
    ensures first == [] && second == [f] && left == []
  {
    var s := new Session.NewSession();
    var c := new Connection(s);
    var wire := Flap.Frame(f.header, f.body);
    CutEncodeAll([f], []);
    assert EncodeAll([f]) + [] == wire;
    assert Stalled(wire[..k]) by {
      if k >= 6 {
        FrameDeclares(f.header, f.body, []);
        assert wire + [] == wire;
        assert wire[..k][4..][..2] == wire[4..][..2];
      }
    }
    assert Cut(wire[..k]) == ([], wire[..k]);
    first := c.Receive(wire[..k]);
    assert [] + wire[..k] == wire[..k];
    assert wire[..k] + wire[k..] == wire;
    assert Cut(wire) == ([f], []);
    second := c.Receive(wire[k..]);
    left := c.buf;
  }
}

/**
 * The message delivery routine of message_delivery_routine.go: every message
 * taken off the communication channel is sent to its recipient's session as
 * SNAC 0x04:0x07 when the recipient is online, and dropped otherwise.  A
 * failed send, or a failed "delivered" update of a message stored for
 * offline delivery, panics (`log.Panicf`) and ends the routine.
 */
module Delivery {
  import opened Wire
  import Tlv
  import opened Models
  import opened Session
  import opened Handler
  import opened Managers
  import Presence
  import Icbm
  import Snac

  /** The sender's fixed user info: class, status, idle time, creation time, all zero. */
  function SenderInfo(): (r: seq<Tlv.TLV>)
    ensures |r| == 4 && Tlv.AllWellFormed(r)
  {
    [Tlv.NewTLV(0x01, Be16(0)), Tlv.NewTLV(0x06, Be32(0)), Tlv.NewTLV(0x0f, Be32(0)), Tlv.NewTLV(0x03, Be32(0))]
  }

  /**
   * The fragments of TLV 2: a capabilities fragment (id 5, version 1, four
   * bytes), then the text fragment (id 1, version 1, the text's length plus
   * 4 truncated to 16 bits, four zero bytes of charset, the text).
   */
  function MessageFragment(contents: bytes): (r: bytes)
    ensures |r| == 16 + |contents|
  {
    [5, 1, 0, 4, 1, 1, 1, 2] + [1, 1] + Be16(Trunc16(|contents| + 4)) + [0, 0, 0, 0] + contents
  }

  /**
   * The ICBM parser reads back every text of at most 65535 bytes: the
   * truncation of `length + 4` when writing and the wrap of `length - 4`
   * when reading cancel out.
   */
  lemma FragmentRoundTrip(contents: bytes)
    requires |contents| <= 0xffff
    ensures Icbm.ParseFragment(MessageFragment(contents)) == Icbm.Contents(contents)
  {
    var f := MessageFragment(contents);
    var n := Trunc16(|contents| + 4);
    var e := f[8..];
    assert f[..4] == [5, 1, 0, 4];
    assert Uint16At(f[2..]) == 4;
    assert Icbm.Skip(f[4..], 4) == e;
    assert Icbm.ParseFragment(f) == Icbm.ParseText(e);
    TextRoundTrip(n, contents);
    assert e == [1, 1] + Be16(n) + [0, 0, 0, 0] + contents;
  }

  /** The text fragment of `contents` with the declared length `len + 4`. */
  lemma TextRoundTrip(n: uint16, contents: bytes)
    requires |contents| <= 0xffff && n == Trunc16(|contents| + 4)
    ensures Icbm.ParseText([1, 1] + Be16(n) + [0, 0, 0, 0] + contents) == Icbm.Contents(contents)
  {
    var e := [1, 1] + Be16(n) + [0, 0, 0, 0] + contents;
    Be16RoundTrip(n, [0, 0, 0, 0] + contents);
    assert e[2..] == Be16(n) + ([0, 0, 0, 0] + contents);
    assert (n as int - 4) % 0x1_0000 == |contents|;
    assert Icbm.Skip(e[4..], 4) == contents;
  }

  /** The body of SNAC 0x04:0x07 for `m`. */
  function DeliveryBody(m: Message): bytes {
    Be64(m.cookie) + Be16(1) + [Trunc8(|m.from|)] + m.from + Be16(0) + Be16(4)
      + Tlv.MarshalAll(SenderInfo()) + Tlv.Marshal(Tlv.NewTLV(0x02, MessageFragment(m.contents)))
  }

  /**
   * A recipient reads the delivery back: the message id, channel 1, the
   * sender's name, warning level 0, four info TLVs, and TLV 2 whose
   * fragments give the text that was sent.
   */
  lemma DeliveryBodyLayout(m: Message)
    requires |m.from| <= 255 && |m.contents| + 16 <= 0xffff
    ensures var b := DeliveryBody(m); var k := 11 + |m.from|;
      && Uint64At(b) == m.cookie && Uint16At(b[8..]) == 1
      && b[10] == |m.from| && b[11..k] == m.from
      && Uint16At(b[k..]) == 0 && Uint16At(b[k + 2..]) == 4
      && Tlv.ParseAll(b[k + 4..]) == Some(SenderInfo() + [Tlv.NewTLV(0x02, MessageFragment(m.contents))])
      && Icbm.ParseFragment(Tlv.NewTLV(0x02, MessageFragment(m.contents)).data) == Icbm.Contents(m.contents)
  {
    var t := Tlv.NewTLV(0x02, MessageFragment(m.contents));
    var tlvs := Tlv.MarshalAll(SenderInfo()) + Tlv.Marshal(t);
    FixedPart(m.cookie, m.from, tlvs);
    assert DeliveryBody(m) == Be64(m.cookie) + Be16(1) + [Trunc8(|m.from|)] + m.from + Be16(0) + Be16(4) + tlvs;
    TlvTail(m.contents);
    FragmentRoundTrip(m.contents);
  }

  /** The fixed part of a delivery, in front of any TLV bytes. */
  lemma FixedPart(cookie: uint64, from: bytes, tlvs: bytes)
    requires |from| <= 255
    ensures var b := Be64(cookie) + Be16(1) + [Trunc8(|from|)] + from + Be16(0) + Be16(4) + tlvs; var k := 11 + |from|;
      && Uint64At(b) == cookie && Uint16At(b[8..]) == 1
      && b[10] == |from| && b[11..k] == from
      && Uint16At(b[k..]) == 0 && Uint16At(b[k + 2..]) == 4 && b[k + 4..] == tlvs
  {
    var rest := Be16(0) + Be16(4) + tlvs;
    HeadLayout(cookie, from, rest);
    var b := Be64(cookie) + Be16(1) + [Trunc8(|from|)] + from + Be16(0) + Be16(4) + tlvs;
    assert b == Be64(cookie) + Be16(1) + [Trunc8(|from|)] + from + rest;
    Be16RoundTrip(0, Be16(4) + tlvs);
    assert rest[2..] == Be16(4) + tlvs;
    Be16RoundTrip(4, tlvs);
  }

  /** The info TLVs and TLV 2 parse back as a list. */
  lemma TlvTail(contents: bytes)
    requires |contents| + 16 <= 0xffff
    ensures Tlv.ParseAll(Tlv.MarshalAll(SenderInfo()) + Tlv.Marshal(Tlv.NewTLV(0x02, MessageFragment(contents))))
      == Some(SenderInfo() + [Tlv.NewTLV(0x02, MessageFragment(contents))])
  {
    var t := Tlv.NewTLV(0x02, MessageFragment(contents));
    Snac.MarshalAllSnoc(SenderInfo(), t);
    assert Tlv.AllWellFormed(SenderInfo() + [t]) by {
      forall i | 0 <= i < 5 ensures Tlv.WellFormed((SenderInfo() + [t])[i]) {
        if i < 4 {
          assert (SenderInfo() + [t])[i] == SenderInfo()[i];
        }
      }
    }
    Tlv.MarshalAllRoundTrip(SenderInfo() + [t]);
  }

  /** The message id, channel 1 and the sender's name at the head of a delivery. */
  lemma HeadLayout(cookie: uint64, from: bytes, rest: bytes)
    requires |from| <= 255
    ensures var b := Be64(cookie) + Be16(1) + [Trunc8(|from|)] + from + rest;
      && Uint64At(b) == cookie && Uint16At(b[8..]) == 1
      && b[10] == |from| && b[11..11 + |from|] == from && b[11 + |from|..] == rest
  {
    var b := Be64(cookie) + Be16(1) + [Trunc8(|from|)] + from + rest;
    var tail := Be16(1) + [Trunc8(|from|)] + from + rest;
    assert b == Be64(cookie) + tail;
    Be64RoundTrip(cookie, tail);
    assert b[8..] == Be16(1) + ([Trunc8(|from|)] + from + rest);
    Be16RoundTrip(1, [Trunc8(|from|)] + from + rest);
  }

  /** What delivering one message does: frames sent, whether the routine panics, whether the message is marked delivered. */
  datatype DeliveryEffect = DeliveryEffect(sends: seq<Out>, fault: Option<Fault>, marked: bool)

  /**
   * One iteration of the routine for `m`, given whether the store accepts
   * writes, whether its recipient has a session and whether that is closed.
   */
  function DeliverySpec(canWrite: bool, online: bool, closed: bool, m: Message): (e: DeliveryEffect)
    ensures e.sends != [] <==> online
    ensures e.sends != [] ==> e.sends == [SnacOut(0x04, 0x07, DeliveryBody(m))]
    ensures var fails := Fails(closed, SnacOut(0x04, 0x07, DeliveryBody(m)));
      && (e.marked <==> online && !fails && m.storeOffline && canWrite)
      && (e.fault.Some? <==> online && (fails || (m.storeOffline && !canWrite)))
    ensures e.fault.Some? ==> e.fault == Some(Panic) && !e.marked
  {
    if !online then DeliveryEffect([], None, false)
    else
      var o := SnacOut(0x04, 0x07, DeliveryBody(m));
      if Fails(closed, o) then DeliveryEffect([o], Some(Panic), false)
      else if !m.storeOffline then DeliveryEffect([o], None, false)
      else if !canWrite then DeliveryEffect([o], Some(Panic), false)
      else DeliveryEffect([o], None, true)
  }

  /** The session a message is delivered on, if its recipient is online. */
  function RecipientOf(sm: SessionManager, m: Message): set<Session>
    reads sm
  {
    if sm.GetSession(m.to) == null then {} else {sm.GetSession(m.to)}
  }

  /** The frames delivering `m` sends to session `t`: SNAC 4:7 when `t` is the recipient's session. */
  function Sent(sm: SessionManager, m: Message, t: Session): (r: seq<Out>)
    reads sm
    ensures r != [] <==> sm.GetSession(m.to) == t
    ensures |r| <= 1
  {
    if sm.GetSession(m.to) == t then [SnacOut(0x04, 0x07, DeliveryBody(m))] else []
  }

  /** Lines 29-78 for one message. */
  method DeliverOne(sm: SessionManager, store: Store, m: Message) returns (fault: Option<Fault>)
    modifies store, RecipientOf(sm, m)
    ensures var s := sm.GetSession(m.to);
      var e := DeliverySpec(old(store.db.canWrite), s != null, s != null && old(s.closed), m);
      && fault == e.fault
      && store.db == (if e.marked then old(store.db).(messages := MarkCookie(old(store.db.messages), m.cookie)) else old(store.db))
      && (s != null ==> Emitted(s, Sent(sm, m, s), false))
  {
    var s := sm.GetSession(m.to);
    if s == null {
      return None;
    }
    var err := SendOne(s, 0x04, 0x07, DeliveryBody(m));
    if err {
      return Some(Panic);
    }
    if m.storeOffline {
      var merr := store.MarkDelivered(m.cookie);
      if merr {
        return Some(Panic);
      }
    }
    return None;
  }

  /** The state of each registered session that sending can change. */
  function Snaps(sm: SessionManager): map<Session, Presence.Snapshot>
    reads sm, Registered(sm)
  {
    map t | t in Registered(sm) :: Presence.Snap(t)
  }

  /** What delivering `m` does, given the sessions' states `start` when the routine began and the store. */
  function EffectOf(sm: SessionManager, start: map<Session, Presence.Snapshot>, db: Db, m: Message): DeliveryEffect
    reads sm
  {
    var s := sm.GetSession(m.to);
    DeliverySpec(db.canWrite, s != null, s != null && s in start && start[s].closed, m)
  }

  /** The frames session `t` is sent while the routine delivers `ms` in order. */
  function Mail(sm: SessionManager, ms: seq<Message>, t: Session): seq<Out>
    reads sm
  {
    if ms == [] then [] else Mail(sm, ms[..|ms| - 1], t) + Sent(sm, ms[|ms| - 1], t)
  }

  /** The store after the routine delivers `ms` in order: each message its effect marks is marked delivered. */
  function Stored(sm: SessionManager, start: map<Session, Presence.Snapshot>, db: Db, ms: seq<Message>): (r: Db)
    reads sm
    ensures r.canWrite == db.canWrite && r.canRead == db.canRead && r.users == db.users && r.buddies == db.buddies
  {
    if ms == [] then db
    else
      var m := ms[|ms| - 1];
      var d := Stored(sm, start, db, ms[..|ms| - 1]);
      if EffectOf(sm, start, db, m).marked then d.(messages := MarkCookie(d.messages, m.cookie)) else d
  }

  /** A session that was sent `x` since `a` and is then sent `y` by the routine was sent `x + y` since `a`. */
  lemma SentAfter(a: Presence.Snapshot, x: seq<Out>, b: Presence.Snapshot, y: seq<Out>, c: Presence.Snapshot)
    requires Presence.After(a, x, b)
    requires y == [] ==> c == b
    requires y != [] ==> && c.written == b.written + Delivered(b.sequenceNumber, b.closed, y)
                         && c.sequenceNumber == Iterate(b.sequenceNumber, |y|)
                         && c.closed == b.closed && c.greetedClient == b.greetedClient && c.screenName == b.screenName
    ensures Presence.After(a, x + y, c)
  {
    if y == [] {
      assert x + y == x;
    } else {
      Presence.NoticesDelivered(b.sequenceNumber, b.closed, y);
      Presence.AfterTrans(a, x, b, y, c);
    }
  }

  /** The frames the routine sends for a message are the frames its effect sends, to the recipient's session. */
  lemma SentIsEffect(sm: SessionManager, start: map<Session, Presence.Snapshot>, db: Db, m: Message, t: Session)
    requires sm.GetSession(m.to) == t
    ensures Sent(sm, m, t) == EffectOf(sm, start, db, m).sends
  {
  }

  /** Delivering one more message adds its frames to each session's mail. */
  lemma MailStep(sm: SessionManager, ms: seq<Message>, i: nat, t: Session)
    requires i < |ms|
    ensures Mail(sm, ms[..i + 1], t) == Mail(sm, ms[..i], t) + Sent(sm, ms[i], t)
  {
    assert ms[..i + 1][..i] == ms[..i];
  }

  /** Delivering one more message adds its mark, if any, to the store. */
  lemma StoredStep(sm: SessionManager, start: map<Session, Presence.Snapshot>, db: Db, ms: seq<Message>, i: nat)
    requires i < |ms|
    ensures var d := Stored(sm, start, db, ms[..i]);
      Stored(sm, start, db, ms[..i + 1]) ==
        if EffectOf(sm, start, db, ms[i]).marked then d.(messages := MarkCookie(d.messages, ms[i].cookie)) else d
  {
    assert ms[..i + 1][..i] == ms[..i];
  }

  /** No message of `ms` panics. */
  predicate Clean(sm: SessionManager, start: map<Session, Presence.Snapshot>, db: Db, ms: seq<Message>)
    reads sm
  {
    forall j :: 0 <= j < |ms| ==> EffectOf(sm, start, db, ms[j]).fault.None?
  }

  lemma CleanStep(sm: SessionManager, start: map<Session, Presence.Snapshot>, db: Db, ms: seq<Message>, i: nat)
    requires i < |ms| && Clean(sm, start, db, ms[..i]) && EffectOf(sm, start, db, ms[i]).fault.None?
    ensures Clean(sm, start, db, ms[..i + 1])
  {
    var p := ms[..i + 1];
    forall j | 0 <= j < |p| ensures EffectOf(sm, start, db, p[j]).fault.None? {
      if j < i {
        assert p[j] == ms[..i][j];
      }
    }
  }

  /** A message whose delivery fails marks nothing in the store. */
  lemma FaultMarksNothing(sm: SessionManager, start: map<Session, Presence.Snapshot>, db: Db, ms: seq<Message>, i: nat)
    requires i < |ms| && EffectOf(sm, start, db, ms[i]).fault.Some?
    ensures Stored(sm, start, db, ms[..i + 1]) == Stored(sm, start, db, ms[..i])
  {
    StoredStep(sm, start, db, ms, i);
  }

  /** A message whose recipient has no session sends nothing and marks nothing. */
  lemma OfflineDropped(sm: SessionManager, start: map<Session, Presence.Snapshot>, db: Db, ms: seq<Message>)
    requires forall i :: 0 <= i < |ms| ==> sm.GetSession(ms[i].to) == null
    ensures Stored(sm, start, db, ms) == db
    ensures forall t :: Mail(sm, ms, t) == []
  {
    if ms != [] {
      OfflineDropped(sm, start, db, ms[..|ms| - 1]);
    }
  }

  /**
   * One more message for the routine: the recipient's session grows by the
   * message's frames, the store by its mark, and every other session is
   * left alone.
   */
  method DeliverStep(sm: SessionManager, store: Store, queue: seq<Message>, i: nat,
                     ghost db0: Db, ghost before: map<Session, Presence.Snapshot>)
    returns (fault: Option<Fault>)
    requires i < |queue|
    requires db0.canWrite == store.db.canWrite
    requires store.db == Stored(sm, before, db0, queue[..i])
    requires forall t :: t in Registered(sm) ==> t in before && Presence.Notified(t, before[t], Mail(sm, queue[..i], t))
    modifies store, Registered(sm)
    ensures fault == EffectOf(sm, before, db0, queue[i]).fault
    ensures store.db == Stored(sm, before, db0, queue[..i + 1])
    ensures forall t :: t in Registered(sm) ==> Presence.Notified(t, before[t], Mail(sm, queue[..i + 1], t))
  {
    var m := queue[i];
    StoredStep(sm, before, db0, queue, i);
    ghost var s := sm.GetSession(m.to);
    assert RecipientOf(sm, m) <= Registered(sm) by {
      if s != null {
        assert m.to in sm.sessions && sm.sessions[m.to] == s;
      }
    }
    assert s != null ==> s in Registered(sm) && s.closed == before[s].closed;
    ghost var past := map t | t in Registered(sm) :: Mail(sm, queue[..i], t);
    fault := Deliver(sm, store, m, before, past);
    forall t | t in Registered(sm) ensures Presence.Notified(t, before[t], Mail(sm, queue[..i + 1], t)) {
      MailStep(sm, queue, i, t);
    }
  }

  /** `DeliverOne`, with each session's frames added to those it was sent before. */
  method Deliver(sm: SessionManager, store: Store, m: Message,
                 ghost before: map<Session, Presence.Snapshot>, ghost past: map<Session, seq<Out>>)
    returns (fault: Option<Fault>)
    requires forall t :: t in Registered(sm) ==> t in before && t in past && Presence.Notified(t, before[t], past[t])
    modifies store, RecipientOf(sm, m)
    ensures var s := sm.GetSession(m.to);
      var e := DeliverySpec(old(store.db.canWrite), s != null, s != null && old(s.closed), m);
      && fault == e.fault
      && store.db == (if e.marked then old(store.db).(messages := MarkCookie(old(store.db.messages), m.cookie)) else old(store.db))
    ensures forall t :: t in Registered(sm) ==> Presence.Notified(t, before[t], past[t] + Sent(sm, m, t))
  {
    fault := DeliverOne(sm, store, m);
    forall t | t in Registered(sm) ensures Presence.Notified(t, before[t], past[t] + Sent(sm, m, t)) {
      SentAfter(before[t], past[t], old(Presence.Snap(t)), Sent(sm, m, t), Presence.Snap(t));
    }
  }

  /**
   * What the routine has done after `handled` messages, or after the panic
   * of message `handled`: the store holding the marks of the messages
   * handled, and every session sent the frames of the messages tried.
   * `before` holds the sessions' states when the routine started.
   */
  ghost predicate Progress(sm: SessionManager, store: Store, queue: seq<Message>, handled: nat, fault: Option<Fault>,
                           db0: Db, before: map<Session, Presence.Snapshot>)
    reads sm, store, Registered(sm)
  {
    && handled <= |queue| && db0.canWrite == store.db.canWrite
    && (fault.Some? ==> handled < |queue| && fault == EffectOf(sm, before, db0, queue[handled]).fault)
    && Clean(sm, before, db0, queue[..handled])
    && store.db == Stored(sm, before, db0, queue[..handled])
    && Registered(sm) == before.Keys
    && (forall t :: t in Registered(sm) ==>
          Presence.Notified(t, before[t], Mail(sm, queue[..if fault.Some? then handled + 1 else handled], t)))
  }

  /** Before the first message nothing has been sent or marked. */
  lemma Started(sm: SessionManager, store: Store, queue: seq<Message>,
                before: map<Session, Presence.Snapshot>)
    requires before == Snaps(sm)
    ensures Progress(sm, store, queue, 0, None, store.db, before)
  {
    assert queue[..0] == [];
    forall t | t in Registered(sm) ensures Presence.Notified(t, before[t], []) {
      assert Presence.Notices(before[t].sequenceNumber, before[t].closed, []) == [];
    }
  }

  /**
   * What the routine has done when it stops after `handled` messages:
   * those were delivered without a panic and the next one, if any, panicked;
   * the store holds exactly the marks of the messages handled (none when no
   * recipient was online); every session in `before` has been sent the
   * frames of the messages tried, the panicking one included.
   */
  ghost predicate Done(sm: SessionManager, store: Store, queue: seq<Message>, handled: nat, fault: Option<Fault>,
                       db0: Db, before: map<Session, Presence.Snapshot>)
    reads sm, store, before.Keys
  {
    && handled <= |queue|
    && (fault.None? <==> handled == |queue|)
    && (fault.Some? ==> fault == Some(Panic))
    && (forall j :: 0 <= j < handled ==> EffectOf(sm, before, db0, queue[j]).fault.None?)
    && (handled < |queue| ==> EffectOf(sm, before, db0, queue[handled]).fault == Some(Panic))
    && store.db == Stored(sm, before, db0, queue[..handled])
    && (forall t :: t in before ==>
          Presence.Notified(t, before[t], Mail(sm, queue[..if fault.Some? then handled + 1 else handled], t)))
    && ((forall i :: 0 <= i < |queue| ==> sm.GetSession(queue[i].to) == null) ==> store.db == db0)
  }

  /** Once its loop stops, the routine is done. */
  lemma Finished(sm: SessionManager, store: Store, queue: seq<Message>, handled: nat, fault: Option<Fault>,
                 db0: Db, before: map<Session, Presence.Snapshot>)
    requires Progress(sm, store, queue, handled, fault, db0, before)
    requires handled == |queue| || fault.Some?
    ensures Done(sm, store, queue, handled, fault, db0, before)
  {
    forall j | 0 <= j < handled ensures EffectOf(sm, before, db0, queue[j]).fault.None? {
      assert queue[..handled][j] == queue[j];
    }
    if forall i :: 0 <= i < |queue| ==> sm.GetSession(queue[i].to) == null {
      OfflineDropped(sm, before, db0, queue[..handled]);
    }
  }

  /** One turn of the routine's loop: the next message, counted as handled unless it panics. */
  method Advance(sm: SessionManager, store: Store, queue: seq<Message>, i: nat,
                 ghost db0: Db, ghost before: map<Session, Presence.Snapshot>)
    returns (next: nat, fault: Option<Fault>)
    requires i < |queue| && Progress(sm, store, queue, i, None, db0, before)
    modifies store, Registered(sm)
    ensures Progress(sm, store, queue, next, fault, db0, before)
    ensures next == if fault.None? then i + 1 else i
  {
    fault := DeliverStep(sm, store, queue, i, db0, before);
    next := if fault.None? then i + 1 else i;
    if fault.Some? {
      FaultMarksNothing(sm, before, db0, queue, i);
    } else {
      CleanStep(sm, before, db0, queue, i);
    }
  }

  /**
   * The routine over the messages the channel yields until it is closed:
   * messages are delivered in order until the first panic.  Every session
   * has then been sent exactly the SNACs 4:7 of the messages addressed to
   * it, the failing one included, and the store has the marks of the
   * messages delivered in full.
   */
  method Run(sm: SessionManager, store: Store, queue: seq<Message>) returns (handled: nat, fault: Option<Fault>)
    modifies store, Registered(sm)
    ensures Done(sm, store, queue, handled, fault, old(store.db), old(Snaps(sm)))
  {
    ghost var db0 := store.db;
    ghost var before := Snaps(sm);
    handled, fault := 0, None;
    Started(sm, store, queue, before);
    while handled < |queue| && fault.None?
      invariant Progress(sm, store, queue, handled, fault, db0, before)
      decreases |queue| - handled, if fault.None? then 1 else 0
    {
      handled, fault := Advance(sm, store, queue, handled, db0, before);
    }
    Finished(sm, store, queue, handled, fault, db0, before);
  }

  /**
   * What an ICBM send stores is what the recipient reads back out of the
   * delivery: the text extracted from the client's fragment reappears as
   * the text of the delivered fragment.
   */
  lemma RelayPreservesText(db: Db, ctx: Ctx, closed: bool, cookie: uint64, to: bytes, tlvs: seq<Tlv.TLV>)
    requires ctx.Ctx? && ctx.user.Some? && db.canWrite
    requires |to| <= 255 && Tlv.AllWellFormed(tlvs)
    requires Tlv.Find(tlvs, 2).Some? && Icbm.ParseFragment(Tlv.Find(tlvs, 2).value.data).Contents?
    ensures forall m :: Icbm.MessageSpec(db, ctx, closed, Icbm.OutgoingBody(cookie, to, tlvs)).stored == Some(m) ==>
      Icbm.ParseFragment(MessageFragment(m.contents)) == Icbm.ParseFragment(Tlv.Find(tlvs, 2).value.data)
  {
    var d := Tlv.Find(tlvs, 2).value.data;
    var c := Icbm.ParseFragment(d).contents;
    Icbm.MessageStored(db, ctx, closed, cookie, to, tlvs);
    FragmentLength(d);
    FragmentRoundTrip(c);
  }

  /** A parsed text never exceeds 65535 bytes (its length is a 16-bit difference). */
  lemma FragmentLength(d: bytes)
    requires Icbm.ParseFragment(d).Contents?
    ensures |Icbm.ParseFragment(d).contents| <= 0xffff
  {
  }
}

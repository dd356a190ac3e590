/**
 * The online-notification routine of online_routine.go: when a user taken
 * off the channel is active, every watcher (a buddy row whose target is the
 * user) with a session receives SNAC 0x03:0x0b "arrived"; when the user is
 * inactive, the same SNAC with the short "departed" body.  Failed sends are
 * logged and skipped; a failed buddy query ends the routine.
 */
module Presence {
  import opened Wire
  import Tlv
  import UserInfo
  import opened Models
  import opened Session
  import opened Handler
  import opened Managers

  /** The user info TLVs of an arrival: class, status, external address, idle, sign-on and creation times. */
  function ArrivalInfo(user: User, srvHost: bytes, idle: uint32, now: uint32): (r: seq<Tlv.TLV>)
    requires |srvHost| >= 4
    ensures |r| == 6 && Tlv.AllWellFormed(r)
  {
    [Tlv.NewTLV(0x01, Be16(0x80)), Tlv.NewTLV(0x06, Be32(0x0101)), Tlv.NewTLV(0x0a, Be32(Uint32At(srvHost))),
     Tlv.NewTLV(0x0f, Be32(idle)), Tlv.NewTLV(0x03, Be32(now)), Tlv.NewTLV(0x05, Be32(user.createdAt))]
  }

  /** The arrival body: the user info block of the username and the six TLVs. */
  function ArrivalBody(user: User, srvHost: bytes, idle: uint32, now: uint32): bytes
    requires |srvHost| >= 4
  {
    UserInfo.Block(user.username, ArrivalInfo(user, srvHost, idle, now))
  }

  /** The departure TLV: class 0x80, written as a dword. */
  function DepartureInfo(): seq<Tlv.TLV> {
    [Tlv.NewTLV(0x01, Be32(0x80))]
  }

  /** The departure body: the user info block of the username with the one class TLV. */
  function DepartureBody(user: User): bytes {
    UserInfo.Block(user.username, DepartureInfo())
  }

  /** A watcher reads back who arrived, and the address TLV holds the first four bytes of the host name. */
  lemma ReadArrival(user: User, srvHost: bytes, idle: uint32, now: uint32)
    requires |user.username| <= 255 && |srvHost| >= 4
    ensures UserInfo.Read(ArrivalBody(user, srvHost, idle, now)) == Some(UserInfo.Info(user.username, 0, 6, ArrivalInfo(user, srvHost, idle, now)))
    ensures ArrivalInfo(user, srvHost, idle, now)[2].data == srvHost[..4]
  {
    UserInfo.ReadBlockAlone(user.username, ArrivalInfo(user, srvHost, idle, now));
    Uint32AtInverse(srvHost);
  }

  /** A watcher reads back who departed: the name and the one class TLV. */
  lemma ReadDeparture(user: User)
    requires |user.username| <= 255
    ensures UserInfo.Read(DepartureBody(user)) == Some(UserInfo.Info(user.username, 0, 1, DepartureInfo()))
  {
    UserInfo.ReadBlockAlone(user.username, DepartureInfo());
  }

  /** The sessions of the watchers that have one, in query order (`getSession` by username). */
  function Targets(sm: SessionManager, names: seq<bytes>): (r: seq<Session>)
    reads sm
    ensures |r| <= |names|
    ensures forall i :: 0 <= i < |names| && sm.GetSession(names[i]) != null ==> sm.GetSession(names[i]) in r
    ensures forall j :: 0 <= j < |r| ==> r[j] in Registered(sm)
  {
    if names == [] then []
    else
      var rest := Targets(sm, names[..|names| - 1]);
      var s := sm.GetSession(names[|names| - 1]);
      assert forall i :: 0 <= i < |names| - 1 ==> names[..|names| - 1][i] == names[i];
      assert s != null ==> names[|names| - 1] in sm.sessions && s == sm.sessions[names[|names| - 1]];
      if s == null then rest else rest + [s]
  }

  /** How many notifications `s` is sent. */
  function Count(ts: seq<Session>, s: Session): nat {
    if ts == [] then 0 else Count(ts[..|ts| - 1], s) + (if ts[|ts| - 1] == s then 1 else 0)
  }

  function Repeat(o: Out, n: nat): (r: seq<Out>)
    ensures |r| == n
  {
    if n == 0 then [] else Repeat(o, n - 1) + [o]
  }

  lemma TargetsStep(sm: SessionManager, names: seq<bytes>, i: nat)
    requires i < |names|
    ensures Targets(sm, names[..i + 1]) ==
      Targets(sm, names[..i]) + (if sm.GetSession(names[i]) == null then [] else [sm.GetSession(names[i])])
  {
    assert names[..i + 1][..i] == names[..i];
  }

  lemma CountSnoc(ts: seq<Session>, s: Session, t: Session)
    ensures Count(ts + [s], t) == Count(ts, t) + (if s == t then 1 else 0)
  {
    assert (ts + [s])[..|ts|] == ts;
  }

  /**
   * What sending `outs` in order writes, counting from `n0`, on a connection
   * whose closed flag is `closed0`: `Delivered`, unfolded from the last send.
   */
  function Notices(n0: uint16, closed0: bool, outs: seq<Out>): (r: seq<bytes>)
    ensures |r| <= |outs|
  {
    if outs == [] then []
    else
      var o := outs[|outs| - 1];
      Notices(n0, closed0, outs[..|outs| - 1]) + (if Fails(closed0, o) then [] else [Framed(o.channel, Iterate(n0, |outs|), o.payload)])
  }

  lemma {:induction false} NoticesDelivered(n0: uint16, closed0: bool, outs: seq<Out>)
    ensures Notices(n0, closed0, outs) == Delivered(n0, closed0, outs)
  {
    if outs != [] {
      var init, o := outs[..|outs| - 1], outs[|outs| - 1];
      NoticesDelivered(n0, closed0, init);
      assert init + [o] == outs;
      DeliveredAppend(n0, closed0, init, [o]);
      DeliveredOne(Iterate(n0, |init|), closed0, o);
    }
  }

  lemma DeliveredOne(n: uint16, closed: bool, o: Out)
    ensures Delivered(n, closed, [o]) == if Fails(closed, o) then [] else [Framed(o.channel, Next(n), o.payload)]
  {
    assert [o][1..] == [];
  }

  /** The fields of a session a notification can change, and those it must not. */
  datatype Snapshot = Snapshot(written: seq<bytes>, sequenceNumber: uint16, closed: bool, greetedClient: bool, screenName: bytes)

  function Snap(s: Session): Snapshot
    reads s
  {
    Snapshot(s.written, s.sequenceNumber, s.closed, s.greetedClient, s.screenName)
  }

  /** A session in state `before` that is sent `outs` (send errors ignored) is in state `after`. */
  predicate After(before: Snapshot, outs: seq<Out>, after: Snapshot) {
    && after.written == before.written + Notices(before.sequenceNumber, before.closed, outs)
    && after.sequenceNumber == Iterate(before.sequenceNumber, |outs|)
    && after.closed == before.closed && after.greetedClient == before.greetedClient && after.screenName == before.screenName
  }

  /** `s` has been sent `outs` since its state was `before`, and nothing else changed. */
  predicate Notified(s: Session, before: Snapshot, outs: seq<Out>)
    reads s
  {
    After(before, outs, Snap(s))
  }

  /** `After` agrees with the handlers' account of a run of sends. */
  lemma AfterIsDelivered(before: Snapshot, outs: seq<Out>, after: Snapshot)
    requires After(before, outs, after)
    ensures after.written == before.written + Delivered(before.sequenceNumber, before.closed, outs)
  {
    NoticesDelivered(before.sequenceNumber, before.closed, outs);
  }

  lemma {:induction false} IterateAdd(n: uint16, j: nat, k: nat)
    ensures Iterate(Iterate(n, j), k) == Iterate(n, j + k)
  {
    if k > 0 {
      IterateAdd(n, j, k - 1);
    }
  }

  /** Two runs of sends, one after the other, are the run of both. */
  lemma AfterTrans(a: Snapshot, x: seq<Out>, b: Snapshot, y: seq<Out>, c: Snapshot)
    requires After(a, x, b) && After(b, y, c)
    ensures After(a, x + y, c)
  {
    var n, closed := a.sequenceNumber, a.closed;
    calc {
      Notices(n, closed, x + y);
      { NoticesDelivered(n, closed, x + y); }
      Delivered(n, closed, x + y);
      { DeliveredAppend(n, closed, x, y); }
      Delivered(n, closed, x) + Delivered(b.sequenceNumber, closed, y);
      { NoticesDelivered(n, closed, x); NoticesDelivered(b.sequenceNumber, closed, y); }
      Notices(n, closed, x) + Notices(b.sequenceNumber, b.closed, y);
    }
    IterateAdd(n, |x|, |y|);
  }

  /** One more notification of `s`; a failed send is ignored. */
  method SendNotice(s: Session, body: bytes, ghost before: Snapshot, ghost outs: seq<Out>)
    requires Notified(s, before, outs)
    modifies s
    ensures Notified(s, before, outs + [SnacOut(0x03, 0x0b, body)])
  {
    var _ := SendSnac(s, 0x03, 0x0b, body);
    assert (outs + [SnacOut(0x03, 0x0b, body)])[..|outs|] == outs;
  }

  /**
   * One watcher entry with a session: `s` is notified once more, every
   * other session in `ss` keeps its state.
   */
  method NotifyStep(ghost ss: set<Session>, s: Session, body: bytes, ghost before: map<Session, Snapshot>, ghost sent: seq<Session>)
    requires s in ss
    requires forall t :: t in ss ==> t in before && Notified(t, before[t], Repeat(SnacOut(0x03, 0x0b, body), Count(sent, t)))
    modifies s
    ensures forall t :: t in ss ==> Notified(t, before[t], Repeat(SnacOut(0x03, 0x0b, body), Count(sent + [s], t)))
  {
    var o := SnacOut(0x03, 0x0b, body);
    ghost var k := Count(sent, s);
    label Before:
    SendNotice(s, body, before[s], Repeat(o, k));
    assert Repeat(o, k) + [o] == Repeat(o, k + 1);
    forall t | t in ss ensures Notified(t, before[t], Repeat(o, Count(sent + [s], t))) {
      CountSnoc(sent, s, t);
      if t != s {
        assert Snap(t) == old@Before(Snap(t));
      }
    }
  }

  /**
   * The inner loop: one SNAC with `body` to each watcher's session, send
   * errors ignored.  Every registered session has been sent the SNAC once
   * per watcher entry that maps to it, and nothing else; sessions that
   * watch nobody are unchanged.
   */
  method Announce(sm: SessionManager, names: seq<bytes>, body: bytes)
    modifies Registered(sm)
    ensures forall t :: t in Registered(sm) ==> Notified(t, old(Snap(t)), Repeat(SnacOut(0x03, 0x0b, body), Count(Targets(sm, names), t)))
  {
    var i := 0;
    ghost var sent: seq<Session> := [];
    ghost var ss := Registered(sm);
    ghost var before := map t | t in ss :: Snap(t);
    while i < |names|
      invariant 0 <= i <= |names|
      invariant sent == Targets(sm, names[..i])
      invariant forall t :: t in ss ==> t in before && Notified(t, before[t], Repeat(SnacOut(0x03, 0x0b, body), Count(sent, t)))
    {
      var s := sm.GetSession(names[i]);
      TargetsStep(sm, names, i);
      if s != null {
        assert names[i] in sm.sessions && sm.sessions[names[i]] == s;
        NotifyStep(ss, s, body, before, sent);
        sent := sent + [s];
      }
      i := i + 1;
    }
    assert names[..|names|] == names;
  }

  /** A user taken off the channel, with the idle time and the clock reading of the moment. */
  datatype Event = Event(user: User, idle: uint32, now: uint32)

  /**
   * What the routine does with one user: nothing (a status other than
   * active or inactive), stop (the buddy query failed), crash (the host
   * name is shorter than the 4 bytes read as the address, which only
   * happens once a watcher has a session), or notify the watchers with a body.
   */
  datatype Reaction = Ignore | Halt | Crash | Notify(watchers: seq<bytes>, body: bytes)

  predicate Stops(r: Reaction) {
    r.Halt? || r.Crash?
  }

  function React(sm: SessionManager, db: Db, srvHost: bytes, e: Event): (r: Reaction)
    reads sm
    ensures r.Ignore? <==> e.user.status != Active && e.user.status != Inactive
    ensures r.Halt? <==> (e.user.status == Active || e.user.status == Inactive) && !db.canRead
    ensures r.Crash? <==> e.user.status == Active && db.canRead && |srvHost| < 4 && Targets(sm, WatchersOf(db, e.user.uin).value) != []
    ensures r.Notify? ==> Some(r.watchers) == WatchersOf(db, e.user.uin)
    ensures r.Notify? && e.user.status == Active && |srvHost| >= 4 ==> r.body == ArrivalBody(e.user, srvHost, e.idle, e.now)
    ensures r.Notify? && e.user.status == Inactive ==> r.body == DepartureBody(e.user)
  {
    if e.user.status != Active && e.user.status != Inactive then Ignore
    else match WatchersOf(db, e.user.uin)
      case None => Halt
      case Some(names) =>
        if e.user.status == Inactive then Notify(names, DepartureBody(e.user))
        else if |srvHost| >= 4 then Notify(names, ArrivalBody(e.user, srvHost, e.idle, e.now))
        else if Targets(sm, names) == [] then Notify(names, [])  // no watcher online: no body is built
        else Crash
  }

  /** The SNACs `t` receives for one reaction. */
  function Sends(sm: SessionManager, r: Reaction, t: Session): seq<Out>
    reads sm
  {
    if r.Notify? then Repeat(SnacOut(0x03, 0x0b, r.body), Count(Targets(sm, r.watchers), t)) else []
  }

  /** Everything `t` receives while the routine handles `events`, in order. */
  function Inbox(sm: SessionManager, db: Db, srvHost: bytes, events: seq<Event>, t: Session): seq<Out>
    reads sm
  {
    if events == [] then []
    else Inbox(sm, db, srvHost, events[..|events| - 1], t) + Sends(sm, React(sm, db, srvHost, events[|events| - 1]), t)
  }

  /**
   * One iteration of the routine's loop: the reaction is the one `React`
   * describes, and every session receives exactly its `Sends`.
   */
  method HandleUser(sm: SessionManager, db: Db, srvHost: bytes, e: Event) returns (r: Reaction)
    modifies Registered(sm)
    ensures r == React(sm, db, srvHost, e)
    ensures forall t :: t in Registered(sm) ==> Notified(t, old(Snap(t)), Sends(sm, r, t))
  {
    var user := e.user;
    if user.status == Active || user.status == Inactive {
      var watchers := WatchersOf(db, user.uin);
      if watchers.None? {
        return Halt;
      }
      var names := watchers.value;
      var body: bytes;
      if user.status == Inactive {
        body := DepartureBody(user);
      } else if |srvHost| >= 4 {
        body := ArrivalBody(user, srvHost, e.idle, e.now);
      } else {
        var anyOnline := Targets(sm, names) != [];
        if anyOnline {
          return Crash;
        }
        body := [];
      }
      Announce(sm, names, body);
      r := Notify(names, body);
    } else {
      r := Ignore;
    }
  }

  /**
   * One more user for the routine: the sessions' states since `before`
   * grow by what this user's reaction sends.
   */
  method RoutineStep(sm: SessionManager, db: Db, srvHost: bytes, events: seq<Event>, i: nat,
                     ghost ss: set<Session>, ghost before: map<Session, Snapshot>) returns (r: Reaction)
    requires i < |events| && ss == Registered(sm)
    requires forall t :: t in ss ==> t in before && Notified(t, before[t], Inbox(sm, db, srvHost, events[..i], t))
    modifies Registered(sm)
    ensures r == React(sm, db, srvHost, events[i])
    ensures forall t :: t in ss ==> Notified(t, before[t], Inbox(sm, db, srvHost, events[..i + 1], t))
    ensures Stops(r) ==> forall t :: t in ss ==> Notified(t, before[t], Inbox(sm, db, srvHost, events[..i], t))
  {
    label Before:
    r := HandleUser(sm, db, srvHost, events[i]);
    assert events[..i + 1][..i] == events[..i];
    forall t | t in ss ensures Notified(t, before[t], Inbox(sm, db, srvHost, events[..i + 1], t)) {
      AfterTrans(before[t], Inbox(sm, db, srvHost, events[..i], t), old@Before(Snap(t)), Sends(sm, r, t), Snap(t));
    }
  }

  /**
   * The routine: takes users off the channel in order until it is closed,
   * the buddy query fails, or it crashes.  It returns how many users were
   * handled in full and the fault it ended with; every session has then
   * received exactly the notifications for those users, in order.
   */
  method Routine(sm: SessionManager, db: Db, srvHost: bytes, events: seq<Event>) returns (handled: nat, fault: Option<Fault>)
    modifies Registered(sm)
    ensures handled <= |events|
    ensures forall j :: 0 <= j < handled ==> !Stops(React(sm, db, srvHost, events[j]))
    ensures handled < |events| ==> Stops(React(sm, db, srvHost, events[handled]))
    ensures fault.Some? <==> handled < |events| && React(sm, db, srvHost, events[handled]).Crash?
    ensures fault.Some? ==> fault.value == Panic
    ensures forall t :: t in Registered(sm) ==> Notified(t, old(Snap(t)), Inbox(sm, db, srvHost, events[..handled], t))
  {
    ghost var ss := Registered(sm);
    ghost var before := map t | t in ss :: Snap(t);
    handled := 0;
    while handled < |events|
      invariant handled <= |events|
      invariant forall j :: 0 <= j < handled ==> !Stops(React(sm, db, srvHost, events[j]))
      invariant forall t :: t in ss ==> t in before && Notified(t, before[t], Inbox(sm, db, srvHost, events[..handled], t))
    {
      var r := RoutineStep(sm, db, srvHost, events, handled, ss, before);
      if r.Halt? {
        return handled, None;
      }
      if r.Crash? {
        return handled, Some(Panic);
      }
      handled := handled + 1;
    }
    fault := None;
  }
}

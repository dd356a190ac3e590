/**
 * The buddy list management service (SNAC family 0x03) of
 * services/0x03_buddy_list_management.go: the list limits (subtype 0x02)
 * and adding (0x04) or removing (0x05) the buddies named in a SNAC, one
 * length-prefixed screen name after another.
 */
module BuddyList {
  import opened Wire
  import opened OscarBuffer
  import Tlv
  import Snac
  import opened Models
  import opened Session
  import opened Handler

  // ---------------------------------------------------------------------
  // Subtype 0x02: limits
  // ---------------------------------------------------------------------

  /** The limit TLVs: list size 500, watchers 750, online notifications 512. */
  function Limits(): (ts: seq<Tlv.TLV>)
    ensures |ts| == 3 && Tlv.AllWellFormed(ts)
  {
    [Tlv.NewTLV(0x01, Be16(500)), Tlv.NewTLV(0x02, Be16(750)), Tlv.NewTLV(0x03, Be16(512))]
  }

  /** The 0x02 reply SNAC 3:3: the three records one after another, with no count in front. */
  function LimitsBody(): bytes {
    Tlv.MarshalAll(Limits())
  }

  /** A client reads the three limits back, in order. */
  lemma ReadLimits()
    ensures var ts := Tlv.ParseAll(LimitsBody());
      && ts.Some? && |ts.value| == 3
      && ts.value[0].typ == 1 && Uint16At(ts.value[0].data) == 500
      && ts.value[1].typ == 2 && Uint16At(ts.value[1].data) == 750
      && ts.value[2].typ == 3 && Uint16At(ts.value[2].data) == 512
  {
    Tlv.MarshalAllRoundTrip(Limits());
    Be16RoundTrip(500, []);
    Be16RoundTrip(750, []);
    Be16RoundTrip(512, []);
    assert Be16(500) + [] == Be16(500) && Be16(750) + [] == Be16(750) && Be16(512) + [] == Be16(512);
  }

  // ---------------------------------------------------------------------
  // Subtypes 0x04 and 0x05: adding and removing buddies
  // ---------------------------------------------------------------------

  datatype Op = Add | Remove

  /** The buddy rows after one name: a row inserted, or every matching row deleted. */
  function Apply(db: Db, op: Op, sourceUin: int, withUin: int): (r: Db)
    ensures r.users == db.users && r.canRead == db.canRead && r.canWrite == db.canWrite && r.messages == db.messages
    ensures op == Add ==> r.buddies == db.buddies + [Buddy(sourceUin, withUin)]
    ensures op == Remove ==> forall x :: x in r.buddies <==> x in db.buddies && x != Buddy(sourceUin, withUin)
  {
    match op
    case Add => db.(buddies := db.buddies + [Buddy(sourceUin, withUin)])
    case Remove => db.(buddies := Without(db.buddies, Buddy(sourceUin, withUin)))
  }

  /** The 0x04 and 0x05 reply when a name is unknown: SNAC 3:1 with error code 0x14 (no match). */
  function NoMatch(): Out {
    SnacOut(0x03, 0x01, Be16(0x14))
  }

  /** The database, the frames sent and the error after a list of names. */
  datatype ListEffect = ListEffect(db: Db, sends: seq<Out>, err: Option<Fault>)

  /**
   * The loop of lines 40-70 (and 81-106) over the unread bytes `d`: names
   * are read and applied one at a time until the bytes run out.  A name
   * whose length byte overruns, a failed lookup or a failed write stops
   * with an error; an unknown name stops with a "no match" reply and no
   * error.  The rows of the names before the stop stay written.
   */
  function Edits(db: Db, uin: int, op: Op, d: bytes, hasSession: bool): (r: ListEffect)
    ensures r.db.users == db.users && r.db.canRead == db.canRead && r.db.canWrite == db.canWrite
    ensures r.sends == [] || (r.sends == [NoMatch()] && r.err.None?)
    ensures r.err.Some? ==> r.err.value in {Malformed, StoreFailed, Panic}
    ensures r.err == Some(Panic) ==> !hasSession
    ensures !db.canRead && |d| > 0 ==> r.db == db && r.sends == []
    decreases |d|
  {
    if |d| == 0 then ListEffect(db, [], None)
    else if |d| - 1 < d[0] as int then ListEffect(db, [], Some(Malformed))
    else
      var name := d[1..1 + d[0] as int];
      var rest := d[1 + d[0] as int..];
      match UserByScreenName(db, name)
      case StoreFailure => ListEffect(db, [], Some(StoreFailed))
      case NotFound =>
        if !hasSession then ListEffect(db, [], Some(Panic))
        else ListEffect(db, [NoMatch()], None)
      case Found(buddy) =>
        if !db.canWrite then ListEffect(db, [], Some(StoreFailed))
        else Edits(Apply(db, op, uin, buddy.uin), uin, op, rest, hasSession)
  }

  /** The names as a client lists them: each with a one-byte length. */
  function NameList(names: seq<bytes>): bytes {
    if names == [] then [] else [Trunc8(|names[0]|)] + names[0] + NameList(names[1..])
  }

  /**
   * The rows adding `names` inserts, in order, when every name is a screen
   * name of at most 255 bytes found among `users`; `None` otherwise.
   */
  function AddedRows(users: seq<User>, uin: int, names: seq<bytes>): (r: Option<seq<Buddy>>)
    ensures r.Some? ==> |r.value| == |names|
  {
    if names == [] then Some([])
    else
      var i := FirstUser(users, ByScreenName(names[0]));
      if |names[0]| > 255 || i == |users| then None
      else match AddedRows(users, uin, names[1..])
        case None => None
        case Some(rest) => Some([Buddy(uin, users[i].uin)] + rest)
  }

  /** One known name, on a database that answers and accepts writes: its row is written and the loop goes on. */
  lemma EditsStep(db: Db, uin: int, op: Op, name: bytes, rest: bytes, hasSession: bool)
    requires db.canRead && db.canWrite && |name| <= 255 && UserByScreenName(db, name).Found?
    ensures Edits(db, uin, op, [Trunc8(|name|)] + name + rest, hasSession)
         == Edits(Apply(db, op, uin, UserByScreenName(db, name).user.uin), uin, op, rest, hasSession)
  {
    var d := [Trunc8(|name|)] + name + rest;
    assert d[0] as int == |name|;
    assert d[1..1 + |name|] == name;
    assert d[1 + |name|..] == rest;
  }

  /**
   * Adding a list of known names, on a database that answers and accepts
   * writes, inserts one row per name in the order listed and sends nothing.
   */
  lemma {:induction false} AddAll(db: Db, uin: int, names: seq<bytes>, hasSession: bool)
    requires db.canRead && db.canWrite && AddedRows(db.users, uin, names).Some?
    ensures Edits(db, uin, Add, NameList(names), hasSession)
         == ListEffect(db.(buddies := db.buddies + AddedRows(db.users, uin, names).value), [], None)
    decreases |names|
  {
    if names == [] {
      assert db.buddies + [] == db.buddies;
    } else {
      var rows := AddedRows(db.users, uin, names).value;
      var db1 := AddFirst(db, uin, names, hasSession);
      AddAll(db1, uin, names[1..], hasSession);
      AppendShift(db.buddies, rows);
    }
  }

  lemma AppendShift(a: seq<Buddy>, r: seq<Buddy>)
    requires r != []
    ensures (a + [r[0]]) + r[1..] == a + r
  {
    assert r == [r[0]] + r[1..];
  }

  /** The first name of a list of known names: its row is appended and the rest of the list is read next. */
  lemma AddFirst(db: Db, uin: int, names: seq<bytes>, hasSession: bool) returns (db1: Db)
    requires db.canRead && db.canWrite && names != [] && AddedRows(db.users, uin, names).Some?
    ensures var rows := AddedRows(db.users, uin, names).value;
      && db1 == db.(buddies := db.buddies + [rows[0]])
      && AddedRows(db1.users, uin, names[1..]) == Some(rows[1..])
      && Edits(db, uin, Add, NameList(names), hasSession) == Edits(db1, uin, Add, NameList(names[1..]), hasSession)
  {
    var n := names[0];
    var rows := AddedRows(db.users, uin, names).value;
    db1 := Apply(db, Add, uin, rows[0].withUin);
    assert NameList(names) == [Trunc8(|n|)] + n + NameList(names[1..]);
    EditsStep(db, uin, Add, n, NameList(names[1..]), hasSession);
  }

  /**
   * Removing a known name deletes every row from the user to that buddy and
   * keeps every other row; after adding and removing the same name, the
   * user has no row to the buddy.
   */
  lemma AddThenRemove(db: Db, uin: int, name: bytes, hasSession: bool)
    requires db.canRead && db.canWrite && AddedRows(db.users, uin, [name]).Some?
    ensures var w := AddedRows(db.users, uin, [name]).value[0].withUin;
      var added := Edits(db, uin, Add, NameList([name]), hasSession);
      var removed := Edits(added.db, uin, Remove, NameList([name]), hasSession);
      && added.err.None? && removed.err.None? && removed.sends == []
      && Buddy(uin, w) !in removed.db.buddies
      && forall x :: x != Buddy(uin, w) ==> (x in removed.db.buddies <==> x in db.buddies)
  {
    AddAll(db, uin, [name], hasSession);
    var added := Edits(db, uin, Add, NameList([name]), hasSession);
    assert NameList([name]) == [Trunc8(|name|)] + name + [];
    EditsStep(added.db, uin, Remove, name, [], hasSession);
  }

  /** An unknown first name sends "no match" and changes nothing. */
  lemma UnknownNameStops(db: Db, uin: int, op: Op, name: bytes, rest: bytes)
    requires db.canRead && |name| <= 255 && UserByScreenName(db, name).NotFound?
    ensures Edits(db, uin, op, NameList([name]) + rest, true) == ListEffect(db, [NoMatch()], None)
  {
    var d := NameList([name]) + rest;
    assert NameList([name]) == [Trunc8(|name|)] + name + NameList([]);
    assert d == [Trunc8(|name|)] + (name + rest);
    assert d[1..1 + |name|] == name;
  }

  // ---------------------------------------------------------------------
  // The handler
  // ---------------------------------------------------------------------

  /** What one SNAC does: frames sent, context and error returned, and the database after it. */
  datatype BuddyEffect = BuddyEffect(sends: seq<Out>, ctx: Ctx, err: Option<Fault>, db: Db)

  /** `HandleSNAC`; a context without a session panics where a reply is sent. */
  function HandleSpec(db: Db, ctx: Ctx, closed: bool, subtype: uint16, body: bytes): (e: BuddyEffect)
    ensures e.ctx == ctx
    ensures ctx.Nil? ==> e == BuddyEffect([], ctx, Some(Panic), db)
    ensures subtype != 0x04 && subtype != 0x05 ==> e.db == db && |e.sends| <= 1
    ensures ctx.Ctx? && (subtype == 0x04 || subtype == 0x05) && ctx.user.Some? ==>
      e.db == Edits(db, ctx.user.value.uin, if subtype == 0x04 then Add else Remove, body, ctx.session.Some?).db
    ensures ctx.Ctx? && subtype !in {0x02, 0x04, 0x05} ==> e == BuddyEffect([], ctx, None, db)
  {
    if ctx.Nil? then BuddyEffect([], ctx, Some(Panic), db)
    else if subtype == 0x02 then
      if ctx.session.None? then BuddyEffect([], ctx, Some(Panic), db)
      else var o := SnacOut(0x03, 0x03, LimitsBody()); BuddyEffect([o], ctx, SendResult(closed, o), db)
    else if subtype == 0x04 || subtype == 0x05 then
      if ctx.user.None? then BuddyEffect([], ctx, Some(NoUserInSession), db)
      else
        var e := Edits(db, ctx.user.value.uin, if subtype == 0x04 then Add else Remove, body, ctx.session.Some?);
        BuddyEffect(e.sends, ctx, e.err, e.db)
    else BuddyEffect([], ctx, None, db)
  }

  method HandleSNAC(store: Store, ctx: Ctx, subtype: uint16, body: bytes) returns (ctx': Ctx, err: Option<Fault>)
    modifies store, Sessions(ctx)
    ensures var e := HandleSpec(old(store.db), ctx, old(ClosedOf(ctx)), subtype, body);
      && ctx' == e.ctx && err == e.err && store.db == e.db
      && (ctx.Ctx? && ctx.session.Some? ==> Emitted(ctx.session.value, e.sends, false))
  {
    if ctx.Nil? {
      return ctx, Some(Panic);
    }
    if subtype == 0x02 {
      if ctx.session.None? {
        return ctx, Some(Panic);
      }
      var limits := LimitsBodyOf();
      var e := SendOne(ctx.session.value, 0x03, 0x03, limits);
      return ctx, if e then Some(Io) else None;
    } else if subtype == 0x04 || subtype == 0x05 {
      if ctx.user.None? {
        return ctx, Some(NoUserInSession);
      }
      err := EditList(store, ctx, ctx.user.value.uin, if subtype == 0x04 then Add else Remove, body);
      return ctx, err;
    }
    return ctx, None;
  }

  /** The 0x03 reply body: the three limit TLVs written one by one. */
  method LimitsBodyOf() returns (b: bytes)
    ensures b == LimitsBody()
  {
    var limits := new Snac.Snac.NewSNAC(0x03, 0x03);
    var ts := Limits();
    limits.WriteTLV(ts[0]);
    limits.WriteTLV(ts[1]);
    limits.WriteTLV(ts[2]);
    assert ts[1..][1..][1..] == [];
    b := limits.data.d;
  }

  /** `InsertBuddy` or `DeleteBuddy`: the row written when the store accepts writes. */
  method ApplyEdit(store: Store, op: Op, uin: int, withUin: int) returns (err: bool)
    modifies store
    ensures err <==> !old(store.db.canWrite)
    ensures store.db == if err then old(store.db) else Apply(old(store.db), op, uin, withUin)
  {
    if op == Add {
      err := store.InsertBuddy(Buddy(uin, withUin));
    } else {
      err := store.DeleteBuddy(uin, withUin);
    }
  }

  /** The name loop: read a name, look it up, write its row; stop at the first problem. */
  method EditList(store: Store, ctx: Ctx, uin: int, op: Op, body: bytes) returns (err: Option<Fault>)
    requires ctx.Ctx?
    modifies store, Sessions(ctx)
    ensures var e := Edits(old(store.db), uin, op, body, ctx.session.Some?);
      && err == e.err && store.db == e.db
      && (ctx.session.Some? ==> Emitted(ctx.session.value, e.sends, false))
  {
    var data := new Buffer();
    var _, _ := data.Write(body);
    assert data.d == body;
    while |data.Bytes()| > 0
      invariant Edits(store.db, uin, op, data.d, ctx.session.Some?) == Edits(old(store.db), uin, op, body, ctx.session.Some?)
      invariant unchanged(Sessions(ctx))
      decreases |data.d|
    {
      var stop;
      stop, err := EditOne(store, ctx, uin, op, data);
      if stop {
        return err;
      }
    }
    return None;
  }

  /** One round of the name loop: either it stops with the list's outcome, or one row is written and the rest remains. */
  method EditOne(store: Store, ctx: Ctx, uin: int, op: Op, data: Buffer) returns (stop: bool, err: Option<Fault>)
    requires ctx.Ctx? && |data.d| > 0
    modifies store, data, Sessions(ctx)
    ensures var e := Edits(old(store.db), uin, op, old(data.d), ctx.session.Some?);
      && (stop ==> err == e.err && store.db == e.db && (ctx.session.Some? ==> Emitted(ctx.session.value, e.sends, false)))
      && (!stop ==> |data.d| < |old(data.d)| && Edits(store.db, uin, op, data.d, ctx.session.Some?) == e && unchanged(Sessions(ctx)))
  {
    ghost var d := data.d;
    var name, eof := data.ReadLPString();
    if eof {
      return true, Some(Malformed);
    }
    assert name == d[1..1 + d[0] as int] && data.d == d[1 + d[0] as int..];
    var buddy := UserByScreenName(store.db, name);
    if buddy.StoreFailure? {
      return true, Some(StoreFailed);
    }
    if buddy.NotFound? {
      if ctx.session.None? {
        return true, Some(Panic);
      }
      var _ := SendOne(ctx.session.value, 0x03, 0x01, Be16(0x14));
      return true, None;
    }
    var werr := ApplyEdit(store, op, uin, buddy.user.uin);
    if werr {
      return true, Some(StoreFailed);
    }
    return false, None;
  }

}

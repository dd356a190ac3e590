/**
 * The generic service controls (SNAC family 0x01) of
 * services/0x01_generic_service_controls.go: the client going online
 * (subtype 0x02), the rate-limit table (0x06), the client's own user info
 * (0x0e), the keepalive (0x16) and the service versions (0x17).
 *
 * Go's map iteration order is not fixed: the order in which the families
 * of `ServiceVersions` are visited is the parameter `order`, any sequence
 * that lists every family exactly once.
 */
module Generic {
  import opened Wire
  import opened OscarBuffer
  import Tlv
  import UserInfo
  import opened Models
  import opened Session
  import opened Handler

  /** `ServiceVersions`: the version of each family the server offers. */
  const ServiceVersions: map<uint16, uint16> := map[1 := 3, 2 := 1, 3 := 1, 4 := 1, 17 := 1]

  lemma ServiceVersionsSize()
    ensures ServiceVersions.Keys == {1, 2, 3, 4, 17} && |ServiceVersions| == 5
  {
    assert ServiceVersions.Keys == {1, 2, 3, 4, 17};
    assert |ServiceVersions.Keys| == |ServiceVersions|;
  }

  /** Every family in the sequence is offered. */
  predicate Offered(order: seq<uint16>) {
    forall j :: 0 <= j < |order| ==> order[j] in ServiceVersions
  }

  /** A possible iteration order of `ServiceVersions`: each family exactly once. */
  predicate Enumerates(order: seq<uint16>) {
    && Offered(order)
    && (forall f :: f in ServiceVersions ==> f in order)
    && (forall j, k :: 0 <= j < k < |order| ==> order[j] != order[k])
  }

  /** An enumeration visits as many families as `ServiceVersions` holds. */
  lemma EnumeratesSize(order: seq<uint16>)
    requires Enumerates(order)
    ensures |order| == |ServiceVersions|
  {
    DistinctCount(order);
    assert Elems(order) == ServiceVersions.Keys;
    assert |ServiceVersions.Keys| == |ServiceVersions|;
  }

  function Elems(s: seq<uint16>): set<uint16> {
    set x | x in s
  }

  lemma {:induction false} DistinctCount(s: seq<uint16>)
    requires forall j, k :: 0 <= j < k < |s| ==> s[j] != s[k]
    ensures |Elems(s)| == |s|
  {
    if s != [] {
      var t := s[1..];
      assert forall j, k :: 0 <= j < k < |t| ==> t[j] == s[j + 1] && t[k] == s[k + 1];
      DistinctCount(t);
      var rest := Elems(t);
      assert Elems(s) == rest + {s[0]};
      assert s[0] !in rest by {
        forall k | 0 <= k < |t| ensures t[k] != s[0] {
          assert t[k] == s[k + 1];
        }
      }
      assert |rest + {s[0]}| == |rest| + 1;
    }
  }

  // ---------------------------------------------------------------------
  // Subtype 0x17: service versions
  // ---------------------------------------------------------------------

  /** One (family, version) word pair per visited family, in visiting order. */
  function VersionPairs(order: seq<uint16>): (r: bytes)
    requires Offered(order)
    ensures |r| == 4 * |order|
  {
    if order == [] then [] else Be16(order[0]) + Be16(ServiceVersions[order[0]]) + VersionPairs(order[1..])
  }

  /** What a client reads from a list of word pairs: a pair per whole 4 bytes. */
  function ReadPairs(b: bytes): (r: seq<(uint16, uint16)>)
    ensures |r| == |b| / 4
  {
    if |b| < 4 then [] else [(Uint16At(b), Uint16At(b[2..]))] + ReadPairs(b[4..])
  }

  /** The table a client builds from the pairs (a later pair for the same family wins). */
  function PairsMap(ps: seq<(uint16, uint16)>): map<uint16, uint16> {
    if ps == [] then map[] else PairsMap(ps[1..])[ps[0].0 := ps[0].1]
  }

  /** Reading the pairs back gives the versions of exactly the visited families. */
  lemma {:induction false} ReadVersionPairs(order: seq<uint16>)
    requires Offered(order)
    ensures PairsMap(ReadPairs(VersionPairs(order))) == map f | f in order :: ServiceVersions[f]
  {
    if order != [] {
      var f := order[0];
      var tail := VersionPairs(order[1..]);
      ReadVersionPairs(order[1..]);
      ReadPairsCons(f, ServiceVersions[f], tail);
      VersionsMapCons(order);
    }
  }

  /** One pair in front of more bytes is read first. */
  lemma ReadPairsCons(f: uint16, v: uint16, tail: bytes)
    ensures PairsMap(ReadPairs(Be16(f) + Be16(v) + tail)) == PairsMap(ReadPairs(tail))[f := v]
  {
    Be16RoundTrip(f, Be16(v) + tail);
    Be16RoundTrip(v, tail);
    var b := Be16(f) + Be16(v) + tail;
    assert b[2..] == Be16(v) + tail;
    assert b[4..] == tail;
    assert ReadPairs(b) == [(f, v)] + ReadPairs(tail);
    assert ([(f, v)] + ReadPairs(tail))[1..] == ReadPairs(tail);
  }

  /** The version table of a visiting order is its first family's entry over the rest's table. */
  lemma VersionsMapCons(order: seq<uint16>)
    requires Offered(order) && order != []
    ensures (map g | g in order[1..] :: ServiceVersions[g])[order[0] := ServiceVersions[order[0]]]
         == map g | g in order :: ServiceVersions[g]
  {
    forall g ensures g in order <==> g == order[0] || g in order[1..] {
      if g in order && g != order[0] {
        var j :| 0 <= j < |order| && order[j] == g;
        assert order[1..][j - 1] == g;
      }
    }
  }

  /**
   * The 0x17 reply lists 4 bytes per family, and a client reading the pairs
   * back obtains exactly `ServiceVersions`, whatever the iteration order.
   */
  lemma VersionsReadBack(order: seq<uint16>)
    requires Enumerates(order)
    ensures |VersionPairs(order)| == 4 * |ServiceVersions|
    ensures PairsMap(ReadPairs(VersionPairs(order))) == ServiceVersions
  {
    ReadVersionPairs(order);
    EnumeratesSize(order);
    assert (map f | f in order :: ServiceVersions[f]) == ServiceVersions;
  }

  lemma VersionPairsSnoc(order: seq<uint16>, f: uint16)
    requires Offered(order) && f in ServiceVersions
    ensures Offered(order + [f])
    ensures VersionPairs(order + [f]) == VersionPairs(order) + Be16(f) + Be16(ServiceVersions[f])
  {
    if order != [] {
      assert (order + [f])[1..] == order[1..] + [f];
      VersionPairsSnoc(order[1..], f);
    }
  }

  /** The 0x17 loop: writes each family and its version as words. */
  method VersionsBody(order: seq<uint16>) returns (body: bytes)
    requires Offered(order)
    ensures body == VersionPairs(order)
  {
    var versions := new Buffer();
    var i := 0;
    while i < |order|
      invariant 0 <= i <= |order|
      invariant versions.d == VersionPairs(order[..i])
    {
      var family := order[i];
      versions.WriteUint16(family);
      versions.WriteUint16(ServiceVersions[family]);
      VersionPairsSnoc(order[..i], family);
      assert order[..i + 1] == order[..i] + [family];
      i := i + 1;
    }
    assert order[..|order|] == order;
    body := versions.d;
  }

  // ---------------------------------------------------------------------
  // Subtype 0x06: rate limits
  // ---------------------------------------------------------------------

  /** The one rate class: id 1, the seven levels and times, last time 0, state 0. */
  function RateClass(): (r: bytes)
    ensures |r| == 35
  {
    Be16(1) + Be32(80) + Be32(2500) + Be32(2000) + Be32(1500) + Be32(800) + Be32(3400) + Be32(6000) + Be32(0) + [0]
  }

  /** The pairs (family, 0), ..., (family, n - 1). */
  function SubtypePairs(family: uint16, n: nat): (r: bytes)
    requires n <= 0x1_0000
    ensures |r| == 4 * n
  {
    if n == 0 then [] else SubtypePairs(family, n - 1) + Be16(family) + Be16(n - 1)
  }

  /** For each visited family, its pairs for subtypes 0 to 0x20. */
  function GroupPairs(order: seq<uint16>): (r: bytes)
    ensures |r| == 4 * 0x21 * |order|
  {
    if order == [] then [] else GroupPairs(order[..|order| - 1]) + SubtypePairs(order[|order| - 1], 0x21)
  }

  /** The rate group: id 1, the declared number of pairs, the pairs. */
  function RateGroup(order: seq<uint16>): (r: bytes)
    ensures |r| == 4 + 4 * 0x21 * |order|
  {
    Be16(1) + Be16(Trunc16(|ServiceVersions| * 0x21)) + GroupPairs(order)
  }

  /** The 0x06 reply SNAC 1:7: one class, the class, the group. */
  function RateBody(order: seq<uint16>): (r: bytes)
    ensures |r| == 41 + 4 * 0x21 * |order|
  {
    Be16(1) + RateClass() + RateGroup(order)
  }

  lemma {:induction false} SubtypePairsAt(family: uint16, n: nat, j: nat)
    requires n <= 0x1_0000 && j < n
    ensures SubtypePairs(family, n)[4 * j..4 * j + 4] == Be16(family) + Be16(j)
  {
    if j < n - 1 {
      SubtypePairsAt(family, n - 1, j);
      assert SubtypePairs(family, n)[..4 * (n - 1)] == SubtypePairs(family, n - 1);
    }
  }

  /** Pair `0x21 * q + r` of the group is family `order[q]` with subtype `r`. */
  lemma {:induction false} GroupPairsAt(order: seq<uint16>, q: nat, r: nat)
    requires q < |order| && r < 0x21
    ensures GroupPairs(order)[4 * (0x21 * q + r)..4 * (0x21 * q + r) + 4] == Be16(order[q]) + Be16(r)
  {
    var init := order[..|order| - 1];
    var pre := GroupPairs(init);
    var last := SubtypePairs(order[|order| - 1], 0x21);
    var j := 4 * (0x21 * q + r);
    assert GroupPairs(order) == pre + last;
    if q < |init| {
      GroupPairsAt(init, q, r);
      assert j + 4 <= |pre|;
      assert GroupPairs(order)[j..j + 4] == pre[j..j + 4];
      assert init[q] == order[q];
    } else {
      SubtypePairsAt(order[|order| - 1], 0x21, r);
      assert j == |pre| + 4 * r;
      assert GroupPairs(order)[j..j + 4] == last[4 * r..4 * r + 4];
    }
  }

  /** Reading a class count, a 35-byte class, a group id and a pair count, whatever the bytes. */
  lemma RateFrame(c: bytes, n: uint16, g: bytes)
    requires |c| == 35
    ensures var b := Be16(1) + c + (Be16(1) + Be16(n) + g);
      && |b| == 41 + |g| && Uint16At(b) == 1 && b[2..37] == c
      && Uint16At(b[37..]) == 1 && Uint16At(b[39..]) == n && b[41..] == g
  {
    var b := Be16(1) + c + (Be16(1) + Be16(n) + g);
    assert b == Be16(1) + (c + (Be16(1) + (Be16(n) + g)));
    Be16RoundTrip(1, c + (Be16(1) + (Be16(n) + g)));
    assert b[37..] == Be16(1) + (Be16(n) + g);
    Be16RoundTrip(1, Be16(n) + g);
    assert b[39..] == Be16(n) + g;
    Be16RoundTrip(n, g);
  }

  /** The header of the 0x06 reply: one class, the class, group id 1 and the declared pair count. */
  lemma RateHeader(order: seq<uint16>)
    requires Enumerates(order)
    ensures var b := RateBody(order);
      && |b| == 41 + 4 * 0x21 * |ServiceVersions|
      && Uint16At(b) == 1 && b[2..37] == RateClass() && Uint16At(b[37..]) == 1
      && Uint16At(b[39..]) == 0x21 * |ServiceVersions| && 41 + 4 * Uint16At(b[39..]) == |b|
      && b[41..] == GroupPairs(order)
  {
    VersionsReadBack(order);
    ServiceVersionsSize();
    assert Trunc16(|ServiceVersions| * 0x21) == 165;
    RateFrame(RateClass(), 165, GroupPairs(order));
  }

  lemma SliceOfSuffix(b: bytes, k: nat, j: nat, n: nat)
    requires k + j + n <= |b|
    ensures b[k + j..k + j + n] == b[k..][j..j + n]
  {
  }

  /**
   * The 0x06 reply's pairs: after the 41-byte header, pair `0x21 * q + r`
   * is family `order[q]` with subtype `r`, so every visited family is
   * listed with every subtype below 0x21.
   */
  lemma RateLayout(order: seq<uint16>, q: nat, r: nat)
    requires q < |order| && r < 0x21
    ensures var b := RateBody(order); var j := 41 + 4 * (0x21 * q + r);
      b[j..j + 4] == Be16(order[q]) + Be16(r)
  {
    RateFrame(RateClass(), Trunc16(|ServiceVersions| * 0x21), GroupPairs(order));
    GroupPairsAt(order, q, r);
    SliceOfSuffix(RateBody(order), 41, 4 * (0x21 * q + r), 4);
  }

  lemma SubtypePairsSnoc(family: uint16, k: nat)
    requires k < 0x21
    ensures SubtypePairs(family, k + 1) == SubtypePairs(family, k) + Be16(family) + Be16(k)
  {
  }

  /** One inner-loop step of 0x06 extends the family's pairs by one. */
  lemma PairAppended(before: bytes, family: uint16, k: nat, d: bytes, d': bytes)
    requires k < 0x21 && d == before + SubtypePairs(family, k)
    requires d' == d + Be16(family) + Be16(k)
    ensures d' == before + SubtypePairs(family, k + 1)
  {
    SubtypePairsSnoc(family, k);
    AppendAssoc(before, SubtypePairs(family, k), Be16(family));
    AppendAssoc(before, SubtypePairs(family, k) + Be16(family), Be16(k));
  }

  /** One outer-loop step of 0x06 appends the next family's pairs. */
  lemma GroupAppended(head: bytes, order: seq<uint16>, i: nat, before: bytes, d: bytes)
    requires i < |order| && before == head + GroupPairs(order[..i])
    requires d == before + SubtypePairs(order[i], 0x21)
    ensures d == head + GroupPairs(order[..i + 1])
  {
    assert order[..i + 1][..i] == order[..i];
    AppendAssoc(head, GroupPairs(order[..i]), SubtypePairs(order[i], 0x21));
  }

  /** The nested loops of 0x06: for each family, subtypes 0 to 0x20 as word pairs. */
  method RateGroupOf(order: seq<uint16>) returns (group: bytes)
    ensures group == RateGroup(order)
  {
    var rg := new Buffer();
    rg.WriteUint16(1);
    rg.WriteUint16(Trunc16(|ServiceVersions| * 0x21));
    ghost var head := rg.d;
    var i := 0;
    while i < |order|
      invariant 0 <= i <= |order|
      invariant rg.d == head + GroupPairs(order[..i])
    {
      var family := order[i];
      ghost var before := rg.d;
      var subtype := 0;
      while subtype < 0x21
        invariant 0 <= subtype <= 0x21
        invariant rg.d == before + SubtypePairs(family, subtype)
      {
        ghost var d := rg.d;
        rg.WriteUint16(family);
        rg.WriteUint16(subtype);
        PairAppended(before, family, subtype, d, rg.d);
        subtype := subtype + 1;
      }
      GroupAppended(head, order, i, before, rg.d);
      i := i + 1;
    }
    assert order[..|order|] == order;
    group := rg.d;
  }


  // ---------------------------------------------------------------------
  // Subtype 0x0e: the client's own user info
  // ---------------------------------------------------------------------

  /** The six user info TLVs: class 0, status, idle, sign-on, an unknown 0 and member-since. */
  function SelfInfoTlvs(u: User, code: Status -> uint32, clock: Clock): (r: seq<Tlv.TLV>)
    ensures |r| == 6 && Tlv.AllWellFormed(r)
  {
    [Tlv.NewTLV(0x01, Be32(0)), Tlv.NewTLV(0x06, Be32(code(u.status))), Tlv.NewTLV(0x0f, Be32(clock.idle)),
     Tlv.NewTLV(0x03, Be32(clock.now)), Tlv.NewTLV(0x1e, Be32(0)), Tlv.NewTLV(0x05, Be32(u.createdAt))]
  }

  /** The 0x0e reply SNAC 1:0xf: the user info block of the screen name and the six TLVs. */
  function SelfInfo(u: User, code: Status -> uint32, clock: Clock): bytes {
    UserInfo.Block(u.screenName, SelfInfoTlvs(u, code, clock))
  }

  /**
   * A client reads back the screen name, warning level 0, six TLVs, and
   * the status TLV carrying the user's status code.
   */
  lemma ReadSelfInfo(u: User, code: Status -> uint32, clock: Clock)
    requires |u.screenName| <= 255
    ensures var r := UserInfo.Read(SelfInfo(u, code, clock));
      && r == Some(UserInfo.Info(u.screenName, 0, 6, SelfInfoTlvs(u, code, clock)))
      && Tlv.Find(r.value.tlvs, 0x06) == Some(Tlv.NewTLV(0x06, Be32(code(u.status))))
  {
    var ts := SelfInfoTlvs(u, code, clock);
    UserInfo.ReadBlockAlone(u.screenName, ts);
    assert ts[0].typ == 0x01 && ts[1].typ == 0x06;
    assert Tlv.FirstIndex(ts[1..], 0x06) == 0;
  }

  // ---------------------------------------------------------------------
  // The handler
  // ---------------------------------------------------------------------

  /**
   * What one SNAC does: the frames sent on the context's session, the
   * context returned, the error, the user whose status column was written
   * (when the write succeeded) and the user pushed to `OnlineCh`.
   */
  datatype GenericEffect = GenericEffect(sends: seq<Out>, ctx: Ctx, err: Option<Fault>, update: Option<User>, pushed: Option<User>)

  function Reply(sends: seq<Out>, ctx: Ctx, err: Option<Fault>): GenericEffect {
    GenericEffect(sends, ctx, err, None, None)
  }

  /**
   * Subtype 0x02.  The context holds a reference to the user, so the status
   * set to online shows in the returned context even when the write fails.
   */
  function OnlineSpec(db: Db, ctx: Ctx): (e: GenericEffect)
    requires ctx.Ctx?
    ensures e.sends == [] && e.ctx.Ctx? && e.ctx.session == ctx.session
    ensures ctx.user.Some? ==> e.ctx.user == Some(ctx.user.value.(status := Online))
    ensures e.update == e.pushed
    ensures e.pushed.Some? <==> ctx.user.Some? && db.canWrite
    ensures e.err.Some? <==> ctx.user.Some? && !db.canWrite
  {
    match ctx.user
    case None => Reply([], ctx, None)
    case Some(u) =>
      var u' := u.(status := Online);
      if !db.canWrite then Reply([], ctx.(user := Some(u')), Some(StoreFailed))
      else GenericEffect([], ctx.(user := Some(u')), None, Some(u'), Some(u'))
  }

  /** Subtype 0x0e: the status is written first, then the info is sent; nothing is pushed. */
  function SelfInfoSpec(db: Db, ctx: Ctx, closed: bool, code: Status -> uint32, clock: Clock): (e: GenericEffect)
    requires ctx.Ctx?
    ensures e.pushed.None? && |e.sends| <= 1
    ensures ctx.user.Some? ==> e.ctx == ctx.(user := Some(ctx.user.value.(status := Online)))
    ensures e.update.Some? <==> ctx.user.Some? && db.canWrite
    ensures e.sends != [] ==> e.update.Some? && ctx.session.Some?
    ensures e.sends != [] ==> e.sends == [SnacOut(0x01, 0x0f, SelfInfo(e.update.value, code, clock))]
  {
    match ctx.user
    case None => Reply([], ctx, Some(NoUserInSession))
    case Some(u) =>
      var u' := u.(status := Online);
      if !db.canWrite then Reply([], ctx.(user := Some(u')), Some(StoreFailed))
      else if ctx.session.None? then GenericEffect([], ctx.(user := Some(u')), Some(Panic), Some(u'), None)
      else
        var o := SnacOut(0x01, 0x0f, SelfInfo(u', code, clock));
        GenericEffect([o], ctx.(user := Some(u')), SendResult(closed, o), Some(u'), None)
  }

  /**
   * `HandleSNAC`.  Replies go to the context's session; a context without
   * one panics where it sends (a nil `*Session`).
   */
  function HandleSpec(order: seq<uint16>, code: Status -> uint32, clock: Clock, db: Db, ctx: Ctx, closed: bool, subtype: uint16): (e: GenericEffect)
    requires Offered(order)
    ensures ctx.Nil? ==> e == Reply([], ctx, Some(Panic))
    ensures |e.sends| <= 1
    ensures e.pushed.Some? ==> subtype == 0x02
    ensures e.update.Some? ==> subtype == 0x02 || subtype == 0x0e
    ensures ctx.Ctx? && subtype !in {0x02, 0x06, 0x0e, 0x17} ==> e == Reply([], ctx, None)
  {
    if ctx.Nil? then Reply([], ctx, Some(Panic))
    else if subtype == 0x02 then OnlineSpec(db, ctx)
    else if subtype == 0x06 then SendSpec(ctx, closed, SnacOut(0x01, 0x07, RateBody(order)))
    else if subtype == 0x0e then SelfInfoSpec(db, ctx, closed, code, clock)
    else if subtype == 0x17 then SendSpec(ctx, closed, SnacOut(0x01, 0x18, VersionPairs(order)))
    else Reply([], ctx, None)
  }

  /** A fixed reply: sent on the context's session, a crash without one. */
  function SendSpec(ctx: Ctx, closed: bool, o: Out): GenericEffect
    requires ctx.Ctx?
  {
    if ctx.session.None? then Reply([], ctx, Some(Panic)) else Reply([o], ctx, SendResult(closed, o))
  }

  /** Sends a fixed reply SNAC on the context's session. */
  method SendReply(ctx: Ctx, family: uint16, subtype: uint16, body: bytes) returns (err: Option<Fault>)
    requires ctx.Ctx?
    modifies Sessions(ctx)
    ensures var e := SendSpec(ctx, old(ClosedOf(ctx)), SnacOut(family, subtype, body));
      && err == e.err && (ctx.session.Some? ==> Emitted(ctx.session.value, e.sends, false))
  {
    if ctx.session.None? {
      return Some(Panic);
    }
    var e := SendOne(ctx.session.value, family, subtype, body);
    return if e then Some(Io) else None;
  }

  /** The store and the online channel after a SNAC. */
  twostate predicate Applied(store: Store, channels: Channels, e: GenericEffect)
    reads store, channels
  {
    && store.db == (if e.update.Some? then old(store.db).(users := ReplaceColumns(old(store.db.users), e.update.value, {StatusColumn})) else old(store.db))
    && channels.online == (if e.pushed.Some? then old(channels.online) + [e.pushed.value] else old(channels.online))
    && channels.comm == old(channels.comm)
  }

  method HandleSNAC(order: seq<uint16>, code: Status -> uint32, clock: Clock, store: Store, channels: Channels, ctx: Ctx, subtype: uint16)
    returns (ctx': Ctx, err: Option<Fault>)
    requires Offered(order)
    modifies store, channels, Sessions(ctx)
    ensures var e := HandleSpec(order, code, clock, old(store.db), ctx, old(ClosedOf(ctx)), subtype);
      && ctx' == e.ctx && err == e.err
      && Applied(store, channels, e)
      && (ctx.Ctx? && ctx.session.Some? ==> Emitted(ctx.session.value, e.sends, false))
  {
    if ctx.Nil? {
      return ctx, Some(Panic);
    }
    if subtype == 0x02 {
      ctx', err := GoOnline(store, channels, ctx);
    } else if subtype == 0x06 {
      var body := RateBodyOf(order);
      err := SendReply(ctx, 0x01, 0x07, body);
      ctx' := ctx;
    } else if subtype == 0x0e {
      ctx', err := SendSelfInfo(code, clock, store, ctx);
    } else if subtype == 0x17 {
      var body := VersionsBody(order);
      err := SendReply(ctx, 0x01, 0x18, body);
      ctx' := ctx;
    } else {
      ctx', err := ctx, None;
    }
  }

  /** The 0x06 reply body: the class count, the class and the group built by the nested loops. */
  method RateBodyOf(order: seq<uint16>) returns (body: bytes)
    ensures body == RateBody(order)
  {
    var group := RateGroupOf(order);
    body := Be16(1) + RateClass() + group;
  }

  /** Subtype 0x02: the user goes online, is saved and is pushed to the presence routine. */
  method GoOnline(store: Store, channels: Channels, ctx: Ctx) returns (ctx': Ctx, err: Option<Fault>)
    requires ctx.Ctx?
    modifies store, channels
    ensures var e := OnlineSpec(old(store.db), ctx);
      && ctx' == e.ctx && err == e.err && e.sends == []
      && Applied(store, channels, e)
  {
    if ctx.user.None? {
      return ctx, None;
    }
    var user := ctx.user.value.(status := Online);
    var uerr := store.UpdateColumns(user, {StatusColumn});
    if uerr {
      return ctx.(user := Some(user)), Some(StoreFailed);
    }
    channels.PushOnline(user);
    return ctx.(user := Some(user)), None;
  }

  /** Subtype 0x0e: saves the online status and sends the user's own info. */
  method SendSelfInfo(code: Status -> uint32, clock: Clock, store: Store, ctx: Ctx) returns (ctx': Ctx, err: Option<Fault>)
    requires ctx.Ctx?
    modifies store, Sessions(ctx)
    ensures var e := SelfInfoSpec(old(store.db), ctx, old(ClosedOf(ctx)), code, clock);
      && ctx' == e.ctx && err == e.err && e.pushed.None?
      && store.db == (if e.update.Some? then old(store.db).(users := ReplaceColumns(old(store.db.users), e.update.value, {StatusColumn})) else old(store.db))
      && (ctx.session.Some? ==> Emitted(ctx.session.value, e.sends, false))
  {
    if ctx.user.None? {
      return ctx, Some(NoUserInSession);
    }
    var user := ctx.user.value.(status := Online);
    var uerr := store.UpdateColumns(user, {StatusColumn});
    if uerr {
      return ctx.(user := Some(user)), Some(StoreFailed);
    }
    if ctx.session.None? {
      return ctx.(user := Some(user)), Some(Panic);
    }
    var e := SendOne(ctx.session.value, 0x01, 0x0f, SelfInfo(user, code, clock));
    return ctx.(user := Some(user)), if e then Some(Io) else None;
  }

  /**
   * Going online (0x02) and then asking for one's own info (0x0e) reports
   * the online status code, and the row's status column says online.
   */
  lemma OnlineThenSelfInfo(order: seq<uint16>, code: Status -> uint32, clock: Clock, db: Db, ctx: Ctx, closed: bool)
    requires Offered(order) && ctx.Ctx? && ctx.user.Some? && ctx.session.Some? && db.canWrite
    ensures var e1 := HandleSpec(order, code, clock, db, ctx, closed, 0x02);
      var db1 := db.(users := ReplaceColumns(db.users, e1.update.value, {StatusColumn}));
      var e2 := HandleSpec(order, code, clock, db1, e1.ctx, closed, 0x0e);
      && e1.err.None? && e1.pushed == Some(ctx.user.value.(status := Online))
      && (forall j :: 0 <= j < |db1.users| && db1.users[j].uin == ctx.user.value.uin ==> db1.users[j].status == Online)
      && e2.sends == [SnacOut(0x01, 0x0f, SelfInfo(ctx.user.value.(status := Online), code, clock))]
      && SelfInfoTlvs(ctx.user.value.(status := Online), code, clock)[1].data == Be32(code(Online))
  {
  }
}

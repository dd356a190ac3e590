/**
 * The account, buddy and message records the handlers read and write, and an
 * abstract store standing in for the SQL database.  Queries fail while the
 * database does not answer reads, and inserts, updates and deletes fail while
 * it does not accept writes; a lookup that matches no row is not an error
 * (the Go helpers return `nil, nil` for `sql.ErrNoRows`).
 */
module Models {
  import opened Wire

  /** `models.UserStatus*`; the wire code each status is sent as is a parameter where it is needed. */
  datatype Status = Online | Away | Active | Inactive | Unset

  datatype User = User(
    uin: int,
    email: bytes,
    username: bytes,
    screenName: bytes,
    password: bytes,
    cipher: bytes,
    status: Status,
    awayMessage: bytes,
    awayMessageEncoding: bytes,
    profile: bytes,
    profileEncoding: bytes,
    createdAt: uint32,        // Unix seconds
    lastActivityAt: uint32)   // Unix seconds

  datatype Buddy = Buddy(sourceUin: int, withUin: int)

  datatype Message = Message(cookie: uint64, from: bytes, to: bytes, contents: bytes, storeOffline: bool, delivered: bool)

  datatype Lookup = StoreFailure | NotFound | Found(user: User)

  /** The rows of the three tables, and whether the database answers queries and accepts writes. */
  datatype Db = Db(users: seq<User>, buddies: seq<Buddy>, messages: seq<Message>, canRead: bool, canWrite: bool)

  /** The column a user query filters on. */
  datatype Key = ByUsername(name: bytes) | ByScreenName(name: bytes) | ByUin(uin: int)

  predicate Matches(key: Key, u: User) {
    match key
    case ByUsername(name) => u.username == name
    case ByScreenName(name) => u.screenName == name
    case ByUin(uin) => u.uin == uin
  }

  /** Index of the first row satisfying the key, or `|users|`. */
  function FirstUser(users: seq<User>, key: Key): (i: nat)
    ensures i <= |users|
    ensures forall j :: 0 <= j < i ==> !Matches(key, users[j])
    ensures i < |users| ==> Matches(key, users[i])
  {
    if users == [] then 0
    else if Matches(key, users[0]) then 0
    else 1 + FirstUser(users[1..], key)
  }

  /** A `SELECT ... LIMIT 1`: the first matching row, no row, or a failure. */
  function FindUser(db: Db, key: Key): (r: Lookup)
    ensures r.StoreFailure? <==> !db.canRead
    ensures r.NotFound? <==> db.canRead && forall j :: 0 <= j < |db.users| ==> !Matches(key, db.users[j])
    ensures r.Found? ==> Matches(key, r.user) && r.user in db.users
  {
    if !db.canRead then StoreFailure
    else
      var i := FirstUser(db.users, key);
      if i < |db.users| then Found(db.users[i]) else NotFound
  }

  /** `models.UserByUsername`. */
  function UserByUsername(db: Db, name: bytes): (r: Lookup)
    ensures r.StoreFailure? <==> !db.canRead
    ensures r.NotFound? <==> db.canRead && forall j :: 0 <= j < |db.users| ==> db.users[j].username != name
    ensures r.Found? ==> r.user.username == name && r.user in db.users
  {
    FindUser(db, ByUsername(name))
  }

  /** `models.UserByScreenName`. */
  function UserByScreenName(db: Db, name: bytes): (r: Lookup)
    ensures r.StoreFailure? <==> !db.canRead
    ensures r.NotFound? <==> db.canRead && forall j :: 0 <= j < |db.users| ==> db.users[j].screenName != name
    ensures r.Found? ==> r.user.screenName == name && r.user in db.users
  {
    FindUser(db, ByScreenName(name))
  }

  /** `models.UserByUIN`. */
  function UserByUIN(db: Db, uin: int): (r: Lookup)
    ensures r.StoreFailure? <==> !db.canRead
    ensures r.NotFound? <==> db.canRead && forall j :: 0 <= j < |db.users| ==> db.users[j].uin != uin
    ensures r.Found? ==> r.user.uin == uin && r.user in db.users
  {
    FindUser(db, ByUin(uin))
  }

  /** The user rows after an update keyed by UIN: every row with `u`'s UIN becomes `u`. */
  function Replace(users: seq<User>, u: User): (r: seq<User>)
    ensures |r| == |users|
    ensures forall j :: 0 <= j < |r| ==> r[j] == if users[j].uin == u.uin then u else users[j]
  {
    if users == [] then []
    else [if users[0].uin == u.uin then u else users[0]] + Replace(users[1..], u)
  }

  /** The message rows after every row with `cookie` is marked delivered. */
  function MarkCookie(messages: seq<Message>, cookie: uint64): (r: seq<Message>)
    ensures |r| == |messages|
    ensures forall j :: 0 <= j < |r| ==>
      r[j] == if messages[j].cookie == cookie then messages[j].(delivered := true) else messages[j]
  {
    if messages == [] then []
    else [if messages[0].cookie == cookie then messages[0].(delivered := true) else messages[0]] + MarkCookie(messages[1..], cookie)
  }

  /** The database after `User.Update(u)`: the user rows are rewritten when writes are accepted. */
  function AfterUpdate(db: Db, u: User): (r: Db)
    ensures r.buddies == db.buddies && r.messages == db.messages
    ensures r.canRead == db.canRead && r.canWrite == db.canWrite
    ensures r.users == if db.canWrite then Replace(db.users, u) else db.users
  {
    if db.canWrite then db.(users := Replace(db.users, u)) else db
  }

  /** The columns a partial `User.Update(ctx, db, columns...)` can name. */
  datatype Column = StatusColumn | AwayMessageColumn | AwayMessageEncodingColumn | ProfileColumn | ProfileEncodingColumn

  /** A row after the named columns are copied from `u`; every other column keeps its value. */
  function Assign(row: User, u: User, cols: set<Column>): (r: User)
    ensures r.uin == row.uin && r.username == row.username && r.screenName == row.screenName
    ensures r.password == row.password && r.cipher == row.cipher && r.email == row.email
    ensures r.status == (if StatusColumn in cols then u.status else row.status)
    ensures r.awayMessage == (if AwayMessageColumn in cols then u.awayMessage else row.awayMessage)
    ensures r.awayMessageEncoding == (if AwayMessageEncodingColumn in cols then u.awayMessageEncoding else row.awayMessageEncoding)
    ensures r.profile == (if ProfileColumn in cols then u.profile else row.profile)
    ensures r.profileEncoding == (if ProfileEncodingColumn in cols then u.profileEncoding else row.profileEncoding)
  {
    row.(status := if StatusColumn in cols then u.status else row.status,
         awayMessage := if AwayMessageColumn in cols then u.awayMessage else row.awayMessage,
         awayMessageEncoding := if AwayMessageEncodingColumn in cols then u.awayMessageEncoding else row.awayMessageEncoding,
         profile := if ProfileColumn in cols then u.profile else row.profile,
         profileEncoding := if ProfileEncodingColumn in cols then u.profileEncoding else row.profileEncoding)
  }

  /** The user rows after an update of some columns keyed by UIN. */
  function ReplaceColumns(users: seq<User>, u: User, cols: set<Column>): (r: seq<User>)
    ensures |r| == |users|
    ensures forall j :: 0 <= j < |r| ==> r[j] == if users[j].uin == u.uin then Assign(users[j], u, cols) else users[j]
  {
    if users == [] then []
    else [if users[0].uin == u.uin then Assign(users[0], u, cols) else users[0]] + ReplaceColumns(users[1..], u, cols)
  }

  /** UINs are the primary key: no two user rows share one. */
  predicate UniqueUins(users: seq<User>) {
    forall i, j :: 0 <= i < j < |users| ==> users[i].uin != users[j].uin
  }

  /**
   * Rewriting the row a query found with a value that still matches the
   * query and keeps its UIN: the same query now finds the new value.
   */
  lemma FindAfterUpdate(db: Db, key: Key, u: User)
    requires UniqueUins(db.users) && db.canWrite
    requires FindUser(db, key).Found? && FindUser(db, key).user.uin == u.uin && Matches(key, u)
    ensures FindUser(AfterUpdate(db, u), key) == Found(u)
  {
    var i := FirstUser(db.users, key);
    var r := Replace(db.users, u);
    assert db.users[i].uin == u.uin;
    forall j | 0 <= j < i
      ensures r[j] == db.users[j] && !Matches(key, r[j])
    {
      assert db.users[j].uin != db.users[i].uin;
    }
    var i' := FirstUser(r, key);
    assert r[i] == u;
    assert i' == i;
  }

  /**
   * A column update never touches the columns a query filters on, so the
   * same query finds the same row, with the new columns when it is the
   * updated user's.
   */
  lemma FindAfterColumns(db: Db, key: Key, u: User, cols: set<Column>)
    ensures var before := FindUser(db, key);
      FindUser(db.(users := ReplaceColumns(db.users, u, cols)), key)
        == if before.Found? && before.user.uin == u.uin then Found(Assign(before.user, u, cols)) else before
  {
    var rs := ReplaceColumns(db.users, u, cols);
    forall j | 0 <= j < |rs|
      ensures Matches(key, rs[j]) == Matches(key, db.users[j])
    {
    }
    SameFirstUser(db.users, rs, key);
  }

  lemma {:induction false} SameFirstUser(a: seq<User>, b: seq<User>, key: Key)
    requires |a| == |b| && forall j :: 0 <= j < |a| ==> Matches(key, a[j]) == Matches(key, b[j])
    ensures FirstUser(a, key) == FirstUser(b, key)
  {
    if a != [] && !Matches(key, a[0]) {
      SameFirstUser(a[1..], b[1..], key);
    }
  }

  function Without(bs: seq<Buddy>, b: Buddy): (r: seq<Buddy>)
    ensures forall x :: x in r <==> x in bs && x != b
  {
    if bs == [] then []
    else if bs[0] == b then Without(bs[1..], b)
    else [bs[0]] + Without(bs[1..], b)
  }

  /**
   * For each buddy row with target `uin`, in order, the username of the row's
   * source user (`Relation("Source")`); a row whose source user is missing
   * is dropped by the join.
   */
  function SourceNames(bs: seq<Buddy>, users: seq<User>, uin: int): (r: seq<bytes>)
    ensures |r| <= |bs|
  {
    if bs == [] then []
    else
      var rest := SourceNames(bs[1..], users, uin);
      var i := FirstUser(users, ByUin(bs[0].sourceUin));
      if bs[0].withUin == uin && i < |users| then [users[i].username] + rest else rest
  }

  /** The buddy query of the presence routine: the watchers' usernames, or `None` on failure. */
  function WatchersOf(db: Db, uin: int): (r: Option<seq<bytes>>)
    ensures r.None? <==> !db.canRead
    ensures r.Some? ==> |r.value| <= |db.buddies|
  {
    if !db.canRead then None
    else Some(SourceNames(db.buddies, db.users, uin))
  }

  /** The database connection handed to every handler; its calls are the writes below. */
  class Store {
    var db: Db

    constructor (db: Db)
      ensures this.db == db
    {
      this.db := db;
    }

    /** `User.Update`: rewrites every row with the same UIN (none matching is not an error). */
    method Update(u: User) returns (err: bool)
      modifies this
      ensures err <==> !old(db.canWrite)
      ensures db == if err then old(db) else old(db).(users := Replace(old(db.users), u))
    {
      if !db.canWrite {
        return true;
      }
      db := db.(users := Replace(db.users, u));
      err := false;
    }

    /** `User.Update(ctx, db, columns...)`: writes only the named columns of the user's row. */
    method UpdateColumns(u: User, cols: set<Column>) returns (err: bool)
      modifies this
      ensures err <==> !old(db.canWrite)
      ensures db == if err then old(db) else old(db).(users := ReplaceColumns(old(db.users), u, cols))
    {
      if !db.canWrite {
        return true;
      }
      db := db.(users := ReplaceColumns(db.users, u, cols));
      err := false;
    }

    /** Inserting a buddy row. */
    method InsertBuddy(b: Buddy) returns (err: bool)
      modifies this
      ensures err <==> !old(db.canWrite)
      ensures db == if err then old(db) else old(db).(buddies := old(db.buddies) + [b])
    {
      if !db.canWrite {
        return true;
      }
      db := db.(buddies := db.buddies + [b]);
      err := false;
    }

    /** Deleting every buddy row with the given source and target. */
    method DeleteBuddy(sourceUin: int, withUin: int) returns (err: bool)
      modifies this
      ensures err <==> !old(db.canWrite)
      ensures db == if err then old(db) else old(db).(buddies := Without(old(db.buddies), Buddy(sourceUin, withUin)))
    {
      if !db.canWrite {
        return true;
      }
      db := db.(buddies := Without(db.buddies, Buddy(sourceUin, withUin)));
      err := false;
    }

    /** `models.InsertMessage`: stores an undelivered message and returns it. */
    method InsertMessage(cookie: uint64, from: bytes, to: bytes, contents: bytes) returns (m: Option<Message>)
      modifies this
      ensures m.None? <==> !old(db.canWrite)
      ensures m.Some? ==> m.value == Message(cookie, from, to, contents, false, false)
      ensures db == if m.None? then old(db) else old(db).(messages := old(db.messages) + [m.value])
    {
      if !db.canWrite {
        return None;
      }
      var msg := Message(cookie, from, to, contents, false, false);
      db := db.(messages := db.messages + [msg]);
      m := Some(msg);
    }

    /** `Message.MarkDelivered`: marks every stored message with the cookie delivered. */
    method MarkDelivered(cookie: uint64) returns (err: bool)
      modifies this
      ensures err <==> !old(db.canWrite)
      ensures db == if err then old(db) else old(db).(messages := MarkCookie(old(db.messages), cookie))
    {
      if !db.canWrite {
        return true;
      }
      db := db.(messages := MarkCookie(db.messages, cookie));
      err := false;
    }
  }

  /** The Go channels the handlers push to (`OnlineCh`, `CommCh`), as the sequence of values sent. */
  class Channels {
    var online: seq<User>
    var comm: seq<Message>

    constructor ()
      ensures online == [] && comm == []
    {
      online := [];
      comm := [];
    }

    method PushOnline(u: User)
      modifies this
      ensures online == old(online) + [u] && comm == old(comm)
    {
      online := online + [u];
    }

    method PushComm(m: Message)
      modifies this
      ensures comm == old(comm) + [m] && online == old(online)
    {
      comm := comm + [m];
    }
  }
}

/**
 * The database tables the session layer reads and writes: the account table
 * by username, and the per-user and per-group map permission tables. SQL
 * itself is not modelled; each query becomes a lookup in these maps.
 */
module Storage {
  import opened Wrappers
  import opened Accounts
  import opened Permissions
  import opened Session

  /** The account table and the two permission tables, keyed as the queries look them up. */
  datatype Store = Store(
    accounts: map<string, Account>,            // User rows by username
    nextUid: nat,                              // the next row id the table hands out
    userGrants: map<(MapId, nat), Grant>,      // Map_Permission rows by (map, user)
    groupRows: map<(MapId, nat), seq<Mask>>)   // group allow masks of a user on a map, in query order

  /** Each account row is filed under its own username and has a row id already handed out. */
  ghost predicate StoreKeyed(db: Store) {
    forall n | n in db.accounts :: db.accounts[n].username == n && db.accounts[n].uid < db.nextUid
  }

  /** The direct grant row of a user on a map, if there is one. */
  function DirectGrant(db: Store, mid: MapId, uid: nat): Option<Grant> {
    if (mid, uid) in db.userGrants then Some(db.userGrants[(mid, uid)]) else None
  }

  /** The group allow masks of a user on a map; no rows when the user is in no group with a grant. */
  function GroupRows(db: Store, mid: MapId, uid: nat): seq<Mask> {
    if (mid, uid) in db.groupRows then db.groupRows[(mid, uid)] else []
  }

  /** The permission cache `updateMapPermissions` computes for a client on map `mid`. */
  function CachedPermissions(db: Store, dbId: Option<nat>, mid: MapId): Grant {
    if dbId.None? then MapPermissions(dbId, None, [])
    else MapPermissions(dbId, DirectGrant(db, mid, dbId.value), GroupRows(db, mid, dbId.value))
  }

  /** The row id `save` ends up with: the existing row's, or the one a new row gets. */
  function SavedUid(db: Store, username: string): nat {
    if username in db.accounts then db.accounts[username].uid else db.nextUid
  }

  /**
   * The tables after `save`: a row is inserted for an unknown username, and
   * then the row is overwritten with the session's fields.
   */
  function Saved(db: Store, cl: Client): (r: Store)
    requires cl.ident.username.Some?
    ensures r.userGrants == db.userGrants && r.groupRows == db.groupRows
    ensures r.accounts.Keys == db.accounts.Keys + {cl.ident.username.value}
    ensures forall n | n in db.accounts && n != cl.ident.username.value :: r.accounts[n] == db.accounts[n]
    ensures var n := cl.ident.username.value;
      r.accounts[n] == Persist(cl, SavedUid(db, n))
      && r.nextUid == if n in db.accounts then db.nextUid else db.nextUid + 1
  {
    var n := cl.ident.username.value;
    db.(accounts := db.accounts[n := Persist(cl, SavedUid(db, n))],
        nextUid := if n in db.accounts then db.nextUid else db.nextUid + 1)
  }

  /**
   * Saving keeps the table keyed; a known user keeps its row id, a new user
   * gets a fresh one that no other row has.
   */
  lemma SavedKeyed(db: Store, cl: Client)
    requires StoreKeyed(db) && cl.ident.username.Some?
    ensures StoreKeyed(Saved(db, cl))
    ensures var n := cl.ident.username.value;
      Saved(db, cl).accounts[n].uid == SavedUid(db, n)
      && (n in db.accounts ==> SavedUid(db, n) == db.accounts[n].uid)
      && (n !in db.accounts ==> forall m | m in db.accounts :: db.accounts[m].uid != SavedUid(db, n))
  {
  }

  /** What `save` writes depends only on the account fields, the name and the position. */
  lemma SavedSameAccount(db: Store, a: Client, b: Client)
    requires a.ident == b.ident && a.name == b.name && a.mapId == b.mapId && a.x == b.x && a.y == b.y
    ensures a.ident.username.Some? ==> Saved(db, a) == Saved(db, b)
  {
  }

  /**
   * The answer `load` gives for an account row once it is found: algorithms
   * other than "sha512" are not checked at all; a NULL hash makes the split
   * raise; otherwise the password is checked as `PasswordMatches` says.
   */
  function CheckPassword(a: Account, password: string, hash: string -> string): (r: LoadResult)
    ensures r != NoSuchAccount
    ensures a.passalgo != "sha512" ==> r == Authenticated
    ensures a.passalgo == "sha512" && a.passhash.Some? ==>
              (r == Authenticated <==> PasswordMatches(a.passhash.value, password, hash))
    ensures a.passalgo == "sha512" && a.passhash.Some? && !PasswordMatches(a.passhash.value, password, hash) ==>
              r == WrongPassword
    ensures a.passalgo == "sha512" && a.passhash.None? ==> r == LoadFault
  {
    if a.passalgo != "sha512" then Authenticated
    else if a.passhash.None? then LoadFault
    else if PasswordMatches(a.passhash.value, password, hash) then Authenticated
    else WrongPassword
  }

  /** What `load` answers for a username and password. */
  function LoadAnswer(db: Store, username: string, password: string, hash: string -> string): LoadResult {
    if username in db.accounts then CheckPassword(db.accounts[username], password, hash) else NoSuchAccount
  }

  /**
   * After a session with a salted password hash is saved, loading its username
   * accepts exactly the passwords whose salted digest matches, and gives back
   * every saved field.
   */
  lemma SaveThenLoad(db: Store, cl: Client, into: Client, password: string, salt: string, attempt: string,
                     hash: string -> string)
    requires IsDigest(hash) && ':' !in salt
    requires cl.ident.username.Some? && cl.ident.password == Some(SaltedHash(password, salt, hash))
    ensures var n := cl.ident.username.value;
      && n in Saved(db, cl).accounts
      && LoadAnswer(Saved(db, cl), n, password, hash) == Authenticated
      && (LoadAnswer(Saved(db, cl), n, attempt, hash) == Authenticated <==> hash(attempt + salt) == hash(password + salt))
      && var r := Restore(into, Saved(db, cl).accounts[n]);
         r.ident == cl.ident.(dbId := Some(SavedUid(db, n)))
         && r.name == cl.name && r.mapId == cl.mapId && r.x == cl.x && r.y == cl.y
  {
    ChangedPasswordVerifies(password, salt, attempt, hash);
    SaveThenRestore(cl, into, SavedUid(db, cl.ident.username.value));
  }
}

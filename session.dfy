/**
 * The state of one connected client (a session) and the pure helpers that
 * read it. The server registry (module Server) holds one `Client` record
 * per connection, keyed by its id; references to other sessions and to maps
 * are ids.
 */
module Session {
  import opened Wrappers
  import opened Accounts
  import opened Permissions

  type ClientId = nat
  type MapId = int

  /** A pending offer from another user ("tpa", "tpahere" or "carry") with its remaining ticks. */
  datatype Request = Request(timer: int, kind: string)

  /** A teleport-history entry: the map and position left behind. */
  datatype Visit = Visit(mapId: MapId, x: int, y: int)

  /** The client's side of the riding graph. */
  datatype Mount = Mount(vehicle: Option<ClientId>, passengers: set<ClientId>, isFollowing: bool)

  /** The connection: whether the socket is still referenced, what was sent on it, its counters. */
  datatype Link = Link(
    attached: bool,              // false once the socket reference is dropped
    closeRequested: bool,        // disconnect() was called
    outbox: seq<string>,         // command codes sent to this client, oldest first
    pingTimer: int,
    idleTimer: int)

  /** What ties the session to an account row. */
  datatype Identity = Identity(
    dbId: Option<nat>,           // None for a guest
    username: Option<string>,
    password: Option<string>,    // the stored password hash
    profile: string,             // serialized pic, home, watch and ignore lists, client settings
    tags: map<string, string>)

  datatype Client = Client(
    id: ClientId,
    name: string,
    x: int,
    y: int,
    onMap: Option<MapId>,        // the map object the client is on, by id
    mapId: MapId,                // -1 until placed; set by load without moving
    mount: Mount,
    link: Link,
    ident: Identity,
    perms: Grant,                // the cached map_allow and map_deny masks
    operOverride: bool,
    requests: map<string, Request>,
    tpHistory: seq<Visit>,
    listeningMaps: set<(string, MapId)>)

  const InitialPingTimer: int := 180
  const PingResetValue: int := 300
  const HistoryLimit: nat := 20
  const NoMap: MapId := -1

  /** Decimal text of a natural number, as `str` gives it. */
  function NatToString(n: nat): (s: string)
    ensures |s| >= 1
    ensures forall i :: 0 <= i < |s| ==> '0' <= s[i] <= '9'
    decreases n
  {
    var d := [(('0' as int) + n % 10) as char];
    if n < 10 then d else NatToString(n / 10) + d
  }

  /** The state of a freshly accepted connection with the given id. */
  function NewClient(id: ClientId): (cl: Client)
    ensures cl.id == id && cl.onMap.None? && cl.mapId == NoMap && cl.ident.dbId.None?
    ensures cl.link == Link(true, false, [], InitialPingTimer, 0)
    ensures cl.mount == Mount(None, {}, false)
    ensures cl.tpHistory == [] && cl.requests == map[] && cl.listeningMaps == {}
  {
    Client(id, "Guest " + NatToString(id), 0, 0, None, NoMap, Mount(None, {}, false),
           Link(true, false, [], InitialPingTimer, 0), Identity(None, None, None, "", map[]),
           Grant(0, 0), false, map[], [], {})
  }

  /** `send`: queue a command for the client, unless its socket is gone. */
  function Send(cl: Client, code: string): (r: Client)
    ensures r == cl.(link := cl.link.(outbox := r.link.outbox))
    ensures r.link.outbox == if cl.link.attached then cl.link.outbox + [code] else cl.link.outbox
  {
    if cl.link.attached then cl.(link := cl.link.(outbox := cl.link.outbox + [code])) else cl
  }

  /** The username, or the decimal id when there is none (an empty name counts as none). */
  function UsernameOrId(cl: Client): (r: string)
    ensures r != ""
    ensures cl.ident.username.Some? && cl.ident.username.value != "" ==> r == cl.ident.username.value
    ensures (cl.ident.username.None? || cl.ident.username.value == "") ==> r == NatToString(cl.id)
  {
    var u := cl.ident.username;
    if u.Some? && u.value != "" then u.value else NatToString(cl.id)
  }

  /** `nameAndUsername`: the name, then the username or id in parentheses. */
  function NameAndUsername(cl: Client): (r: string)
    ensures |r| == |cl.name| + 3 + |UsernameOrId(cl)| && |r| > |cl.name| + 3
    ensures r[..|cl.name|] == cl.name && r[|cl.name|..|cl.name| + 2] == " ("
    ensures r[|cl.name| + 2..|r| - 1] == UsernameOrId(cl) && r[|r| - 1] == ')'
  {
    cl.name + " (" + UsernameOrId(cl) + ")"
  }

  /** What `who` reports about a client (the picture is part of the opaque profile). */
  datatype WhoInfo = WhoInfo(
    name: string, x: int, y: int, id: ClientId, username: Option<string>,
    passengers: set<ClientId>, vehicle: Option<ClientId>, isFollowing: bool)

  function Who(cl: Client): WhoInfo {
    WhoInfo(cl.name, cl.x, cl.y, cl.id, cl.ident.username, cl.mount.passengers, cl.mount.vehicle, cl.mount.isFollowing)
  }

  /** `inBanList` without its error message. */
  predicate InBanList(username: Option<string>, banlist: set<string>) {
    (username.None? && "!guests" in banlist) || (username.Some? && username.value in banlist)
  }

  /** A longer ban list refuses everyone a shorter one refuses. */
  lemma BanListMonotone(username: Option<string>, banlist: set<string>, more: set<string>)
    requires banlist <= more
    ensures InBanList(username, banlist) ==> InBanList(username, more)
  {
  }

  /**
   * The "!guests" entry concerns guests only: adding or removing it changes
   * the verdict for a guest and for nobody else (unless a user is literally
   * named "!guests"), while names in the list never refuse a guest.
   */
  lemma GuestsEntryConcernsGuestsOnly(username: Option<string>, banlist: set<string>)
    ensures username.Some? && username.value != "!guests" ==>
              (InBanList(username, banlist + {"!guests"}) <==> InBanList(username, banlist - {"!guests"}))
    ensures username.None? ==>
              InBanList(username, banlist + {"!guests"}) && !InBanList(username, banlist - {"!guests"})
  {
  }

  function GetTag(tags: map<string, string>, name: string, default: Option<string>): Option<string> {
    if name in tags then Some(tags[name]) else default
  }

  function SetTag(tags: map<string, string>, name: string, value: string): map<string, string> {
    tags[name := value]
  }

  /** A tag reads back as set, and setting one tag leaves the others as they were. */
  lemma TagRoundTrip(tags: map<string, string>, name: string, value: string, other: string, default: Option<string>)
    ensures GetTag(SetTag(tags, name, value), name, default) == Some(value)
    ensures other != name ==> GetTag(SetTag(tags, name, value), other, default) == GetTag(tags, other, default)
  {
  }

  /**
   * `mustBeOwner` without its error message: the map's owner matches the
   * client's account id (Python equality, so None equals None), or the
   * operator override is on, or admins are accepted and the map grants admin.
   */
  predicate MustBeOwner(owner: Option<nat>, cl: Client, adminOkay: bool, hasAdmin: bool) {
    owner == cl.ident.dbId || cl.operOverride || (adminOkay && hasAdmin)
  }

  /**
   * The owner test, case by case: the registered owner of the map always
   * passes; a client that is not the owner passes exactly by the operator
   * override or, when admins are accepted, by holding admin; accepting
   * admins only ever lets more clients through.
   */
  lemma OwnerTestMeaning(owner: Option<nat>, cl: Client, adminOkay: bool, hasAdmin: bool)
    ensures cl.ident.dbId.Some? && owner == cl.ident.dbId ==> MustBeOwner(owner, cl, adminOkay, hasAdmin)
    ensures owner != cl.ident.dbId ==>
              (MustBeOwner(owner, cl, adminOkay, hasAdmin) <==> cl.operOverride || (adminOkay && hasAdmin))
    ensures MustBeOwner(owner, cl, false, hasAdmin) ==> MustBeOwner(owner, cl, true, hasAdmin)
  {
  }

  /** The owner test lets a guest through on a map that records no owner. */
  lemma GuestPassesOwnerTestOnUnownedMap(cl: Client, adminOkay: bool, hasAdmin: bool)
    requires cl.ident.dbId.None?
    ensures MustBeOwner(None, cl, adminOkay, hasAdmin)
  {
  }

  /**
   * The teleport history after `switch_map` records a move: when asked to and
   * when placed, the position left behind is appended if the target differs,
   * and the oldest entry is dropped once there are more than 20.
   */
  function Recorded(h: seq<Visit>, current: MapId, x: int, y: int, target: MapId, update: bool): seq<Visit> {
    if update && current >= 0 then
      var h1 := if current != target then h + [Visit(current, x, y)] else h;
      if |h1| > HistoryLimit then h1[1..] else h1
    else h
  }

  lemma RecordedMeaning(h: seq<Visit>, current: MapId, x: int, y: int, target: MapId, update: bool)
    requires |h| <= HistoryLimit
    ensures |Recorded(h, current, x, y, target, update)| <= HistoryLimit
    ensures !(update && current >= 0 && current != target) ==> Recorded(h, current, x, y, target, update) == h
    ensures update && current >= 0 && current != target ==>
              var r := Recorded(h, current, x, y, target, update);
              |r| >= 1 && r[|r| - 1] == Visit(current, x, y)
              && r[..|r| - 1] == (if |h| == HistoryLimit then h[1..] else h)
  {
  }

  /** The account row `save` writes for a client. */
  function Persist(cl: Client, uid: nat): Account
    requires cl.ident.username.Some?
  {
    Account(uid, cl.ident.password, "sha512", cl.ident.username.value, cl.name, cl.mapId, cl.x, cl.y,
            cl.ident.profile, cl.ident.tags)
  }

  /** The fields `load` assigns from an account row once the password is accepted. */
  function Restore(cl: Client, a: Account): Client {
    cl.(ident := Identity(Some(a.uid), Some(a.username),
                          if a.passalgo == "sha512" then a.passhash else cl.ident.password,
                          a.profile, a.tags),
        name := a.name, mapId := a.mid, x := a.x, y := a.y)
  }

  /** Loading what `save` wrote gives back every saved field of the session. */
  lemma SaveThenRestore(saved: Client, into: Client, uid: nat)
    requires saved.ident.username.Some?
    ensures var r := Restore(into, Persist(saved, uid));
      r.ident == saved.ident.(dbId := Some(uid))
      && r.name == saved.name && r.mapId == saved.mapId && r.x == saved.x && r.y == saved.y
  {
  }
}

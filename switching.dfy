/**
 * What `switch_map` promises, stated on registry values: who is admitted,
 * where the client ends up, and that passengers follow their vehicle onto
 * the map. The passenger loop of `switch_map` is proved here, one passenger
 * at a time, the same way as the passenger loop of `moveTo`.
 */
module Switching {
  import opened Wrappers
  import opened Permissions
  import opened Session
  import opened Riding
  import opened Maps
  import opened Moving
  import opened World
  import opened Storage

  /** A client may go to `target` when it is already there or the map grants it entry. */
  predicate Admitted(cl: Client, target: MapId, allowed: bool) {
    cl.onMap == Some(target) || allowed
  }

  /** The client once `switch_map` has recorded the teleport in its history. */
  function Travelled(cl: Client, target: MapId, update: bool): (r: Client)
    ensures r == cl.(tpHistory := r.tpHistory)
  {
    cl.(tpHistory := Recorded(cl.tpHistory, cl.mapId, cl.x, cl.y, target, update))
  }

  /** Where `switch_map` puts the client: the given position, else the spawn point when asked, else where it stands. */
  function Destination(newPos: Option<(int, int)>, gotoSpawn: bool, spawn: (int, int), here: (int, int)): (int, int) {
    if newPos.Some? then newPos.value else if gotoSpawn then spawn else here
  }

  /** What a client entering a map is sent: the map info, the map, the user list, and the listener warning when there is one. */
  function Greeted(cl: Client, chatWatched: bool): (r: Client)
    ensures r == cl.(link := cl.link.(outbox := r.link.outbox))
    ensures r.link.outbox == cl.link.outbox + (if cl.link.attached then ["MAI", "MAP", "WHO"] + (if chatWatched then ["MSG"] else []) else [])
  {
    var g := Send(Send(Send(cl, "MAI"), "MAP"), "WHO");
    if chatWatched then Send(g, "MSG") else g
  }

  /**
   * Client `before` after an admitted `switch_map` to `target`: the teleport
   * is recorded; when it was not already on `target` it is now, with the map
   * id, permission cache `perms` and the greeting; and it stands at `dest`.
   */
  ghost predicate Landed(before: Client, after: Client, target: MapId, dest: (int, int), update: bool, perms: Grant, chat: bool) {
    var recorded := Travelled(before, target, update);
    var entered := if before.onMap == Some(target) then recorded
                   else Greeted(recorded.(onMap := Some(target), mapId := target, perms := perms), chat);
    after == entered.(x := dest.0, y := dest.1)
  }

  /**
   * What landing means field by field: on `target` at `dest`, the history as
   * `Recorded` says, riding, identity and listeners untouched, and the map id
   * and permission cache replaced exactly when the map changed.
   */
  lemma LandedMeaning(before: Client, after: Client, target: MapId, dest: (int, int), update: bool, perms: Grant, chat: bool)
    requires Landed(before, after, target, dest, update, perms, chat)
    ensures after.onMap == Some(target) && after.x == dest.0 && after.y == dest.1
    ensures after.tpHistory == Recorded(before.tpHistory, before.mapId, before.x, before.y, target, update)
    ensures after.id == before.id && after.mount == before.mount && after.ident == before.ident && after.name == before.name
    ensures after.link.attached == before.link.attached && after.listeningMaps == before.listeningMaps
    ensures before.onMap == Some(target) ==> after.mapId == before.mapId && after.perms == before.perms && after.link == before.link
    ensures before.onMap != Some(target) ==> after.mapId == target && after.perms == perms
    ensures before.onMap != Some(target) && before.link.attached ==>
              after.link.outbox == before.link.outbox + ["MAI", "MAP", "WHO"] + (if chat then ["MSG"] else [])
  {
  }

  /** The two registries load the same maps with the same ids, spawn points and owners. */
  ghost predicate SameMapInfo(m1: Registry, m2: Registry) {
    m1.Keys == m2.Keys && forall k | k in m1 :: m2[k].(users := m1[k].users) == m1[k]
  }

  lemma SameMapInfoTransitive(m1: Registry, m2: Registry, m3: Registry)
    requires SameMapInfo(m1, m2) && SameMapInfo(m2, m3)
    ensures SameMapInfo(m1, m3)
  {
  }

  /** A switch to a map that was already loaded keeps the loaded maps' identity. */
  lemma ResidentAlready(m0: Registry, m1: Registry, m2: Registry, target: MapId, file: MapFile)
    requires SameMapInfo(m0, m1) && target in m1 && SameMapInfo(Resident(m1, target, file), m2)
    ensures SameMapInfo(m0, m2) && target in m2
  {
    assert Resident(m1, target, file) == m1;
  }

  /** Only `c` and what it carries differ between the two registries, and the riding graph is the same. */
  ghost predicate ChangedWithin(cs1: Clients, cs2: Clients, rank: Rank, c: ClientId) {
    && SameRiding(cs1, cs2)
    && forall u {:trigger Carried(cs1, rank, u, c)} | u in cs2 && !Carried(cs1, rank, u, c) :: cs2[u] == cs1[u]
  }

  lemma ChangedWithinTransitive(cs1: Clients, cs2: Clients, cs3: Clients, rank: Rank, c: ClientId)
    requires ChangedWithin(cs1, cs2, rank, c) && ChangedWithin(cs2, cs3, rank, c)
    ensures ChangedWithin(cs1, cs3, rank, c)
  {
    forall u | u in cs3 && !Carried(cs1, rank, u, c)
      ensures cs3[u] == cs1[u]
    {
      CarriedFrame(cs1, cs2, rank, u, c);
    }
  }

  lemma ChangedAt(cs: Clients, rank: Rank, c: ClientId, cl: Client)
    requires c in cs && cl.mount == cs[c].mount
    ensures ChangedWithin(cs, cs[c := cl], rank, c)
  {
  }

  lemma GroupMovedWithin(cs: Clients, r: Clients, rank: Rank, c: ClientId, x: int, y: int)
    requires GroupMoved(cs, r, rank, c, x, y)
    ensures ChangedWithin(cs, r, rank, c)
  {
    MovedOnlySameRiding(cs, r, rank);
  }

  /**
   * A client carried by a switching client, from `before` to `after`: only
   * its position, map, map id, permission cache, history and queued messages
   * change; messages are only added; and it stays on its map and map id or
   * takes `target` for them.
   */
  ghost predicate Swept(before: Client, after: Client, target: MapId) {
    && after == before.(x := after.x, y := after.y, onMap := after.onMap, mapId := after.mapId, perms := after.perms,
                        tpHistory := after.tpHistory, link := before.link.(outbox := after.link.outbox))
    && before.link.outbox <= after.link.outbox
    && (after.onMap == before.onMap || after.onMap == Some(target))
    && (after.mapId == before.mapId || after.mapId == target)
  }

  lemma SweptTransitive(a: Client, b: Client, c: Client, target: MapId)
    requires Swept(a, b, target) && Swept(b, c, target)
    ensures Swept(a, c, target)
  {
  }

  /** Passenger `p` once its vehicle `v` moved to `dest`, when it moved: a follower takes the vehicle's old place, any other passenger the new one. */
  function Trailed(v: Client, p: Client, dest: (int, int), moved: bool): (r: Client)
    ensures r == p.(x := r.x, y := r.y)
  {
    if !moved then p else if p.mount.isFollowing then p.(x := v.x, y := v.y) else p.(x := dest.0, y := dest.1)
  }

  /**
   * Passenger `before` after `switch_map(target, new_pos=[vehicle.x,
   * vehicle.y])`: when admitted it lands at the vehicle's position as
   * `Landed` says, with its own permission cache; otherwise it only records
   * the teleport and gets an error.
   */
  ghost predicate Followed(before: Client, after: Client, vehicle: Client, target: MapId, allowed: bool, db: Store, chat: bool) {
    if Admitted(before, target, allowed) then
      Landed(before, after, target, (vehicle.x, vehicle.y), true, CachedPermissions(db, before.ident.dbId, target), chat)
    else
      after == Send(Travelled(before, target, true), "ERR")
  }

  /** A followed passenger is swept: only the fields a switch may touch change. */
  lemma FollowedSwept(before: Client, after: Client, vehicle: Client, target: MapId, allowed: bool, db: Store, chat: bool)
    requires Followed(before, after, vehicle, target, allowed, db, chat)
    ensures Swept(before, after, target)
    ensures Admitted(before, target, allowed) ==> after.onMap == Some(target) && (after.x, after.y) == (vehicle.x, vehicle.y)
    ensures !Admitted(before, target, allowed) ==> after.onMap == before.onMap && after.mapId == before.mapId
  {
    if Admitted(before, target, allowed) {
      LandedMeaning(before, after, target, (vehicle.x, vehicle.y), true, CachedPermissions(db, before.ident.dbId, target), chat);
    }
  }

  /** Everything `c` carries, other than `c`, went from `cs0` to `cs` as `Swept` says. */
  ghost predicate SweptWithin(cs0: Clients, cs: Clients, rank: Rank, c: ClientId, target: MapId) {
    forall u {:trigger Carried(cs0, rank, u, c)} | u in cs0 && u != c && Carried(cs0, rank, u, c) ::
      u in cs && Swept(cs0[u], cs[u], target)
  }

  /**
   * Every passenger of `c` in `cs0`, once `c` moved to `dest` (when it
   * moved), was switched to `target` at the position `c` has in `cs`, as
   * `Followed` says.
   */
  ghost predicate PassengersFollowed(cs0: Clients, cs: Clients, c: ClientId, target: MapId, dest: (int, int), moved: bool,
                                     db: Store, chat: bool, perm: (MapId, ClientId, string) -> bool)
    requires c in cs0 && c in cs
  {
    forall p | p in cs0[c].mount.passengers ::
      p in cs0 && p in cs && Followed(Trailed(cs0[c], cs0[p], dest, moved), cs[p], cs[c], target, perm(target, p, "entry"), db, chat)
  }

  /**
   * What `switch_map` of `c` to `target` did, from registries `cs0`, `m0` to
   * `cs`, `m`: admission is decided by `Admitted`; a refused client only
   * records the teleport and gets an error, with the map made resident; an
   * admitted one lands as `Landed` says, its passengers move with it and
   * each is switched as `Followed` says; in both cases only `c` and what it
   * carries change, everything it carries is `Swept`, and the loaded maps
   * keep their identity.
   */
  ghost predicate Switched(cs0: Clients, cs: Clients, m0: Registry, m: Registry, rank: Rank, c: ClientId, target: MapId,
                           newPos: Option<(int, int)>, gotoSpawn: bool, update: bool, file: MapFile, db: Store,
                           chat: bool, perm: (MapId, ClientId, string) -> bool, ok: bool)
  {
    && c in cs0
    && ChangedWithin(cs0, cs, rank, c)
    && SameMapInfo(Resident(m0, target, file), m)
    && ok == Admitted(cs0[c], target, perm(target, c, "entry"))
    && SweptWithin(cs0, cs, rank, c, target)
    && (!ok ==> m == Resident(m0, target, file) && cs == cs0[c := Send(Travelled(cs0[c], target, update), "ERR")])
    && (ok ==> && target in m && c in cs
               && var dest := Destination(newPos, gotoSpawn, m[target].startPos, (cs0[c].x, cs0[c].y));
               && Landed(cs0[c], cs[c], target, dest, update, CachedPermissions(db, cs0[c].ident.dbId, target), chat)
               && PassengersFollowed(cs0, cs, c, target, dest, newPos.Some? || gotoSpawn, db, chat, perm))
  }

  /**
   * The admitted half of `switch_map` from `cs1`, `m0`: `target` is resident
   * and `c` is on it with the new map id, permission cache and greeting.
   */
  ghost predicate Entered(cs1: Clients, cs2: Clients, m0: Registry, m2: Registry, c: ClientId, target: MapId,
                          file: MapFile, perms: Grant, chat: bool)
  {
    && c in cs1
    && SameMapInfo(Resident(m0, target, file), m2)
    && cs2 == cs1[c := Greeted(cs1[c].(onMap := Some(target), mapId := target, perms := perms), chat)]
  }

  /** Entering a resident map changes only who is on the maps involved. */
  lemma JoinedSameInfo(m: Registry, c: ClientId, from: Option<MapId>, to: MapId)
    requires to in m
    ensures SameMapInfo(m, Joined(Left(m, c, from), c, to))
  {
  }

  /** Recording the teleport, loading `target` and entering it is what `Entered` says. */
  lemma AdmitEntered(cs0: Clients, cs2: Clients, m0: Registry, m2: Registry, c: ClientId, target: MapId,
                     update: bool, file: MapFile, perms: Grant, chat: bool)
    requires c in cs0
    requires var cl := Travelled(cs0[c], target, update);
      cs2 == cs0[c := cl][c := Greeted(cl.(onMap := Some(target), mapId := target, perms := perms), chat)]
    requires m2 == Joined(Left(Resident(m0, target, file), c, cs0[c].onMap), c, target)
    ensures Entered(cs0[c := Travelled(cs0[c], target, update)], cs2, m0, m2, c, target, file, perms, chat)
  {
    JoinedSameInfo(Resident(m0, target, file), c, cs0[c].onMap, target);
  }

  /** A second update of the same key overrides the first. */
  lemma UpdatedTwice(cs: Clients, c: ClientId, a: Client, b: Client)
    ensures cs[c := a][c := b] == cs[c := b]
  {
  }

  /**
   * The tail of `switch_map` from `cs2`, `m2`: `c` stands at its destination,
   * its passengers moved with it and were switched, everything it carries is
   * `Swept`, and only `c` and what it carries changed.
   */
  ghost predicate Arrived(cs2: Clients, cs: Clients, m2: Registry, m: Registry, rank: Rank, c: ClientId, target: MapId,
                          newPos: Option<(int, int)>, gotoSpawn: bool, db: Store, chat: bool,
                          perm: (MapId, ClientId, string) -> bool)
  {
    && c in cs2 && c in cs && target in m
    && ChangedWithin(cs2, cs, rank, c) && SameMapInfo(m2, m)
    && var dest := Destination(newPos, gotoSpawn, m[target].startPos, (cs2[c].x, cs2[c].y));
    && cs[c] == cs2[c].(x := dest.0, y := dest.1)
    && SweptWithin(cs2, cs, rank, c, target)
    && PassengersFollowed(cs2, cs, c, target, dest, newPos.Some? || gotoSpawn, db, chat, perm)
  }

  /** After `moveTo(c, dest)`, each direct passenger of `c` is where `Trailed` puts it. */
  lemma GroupMovedTrailed(cs0: Clients, cs1: Clients, rank: Rank, c: ClientId, x: int, y: int)
    requires Linked(cs0) && Ranked(cs0, rank) && c in cs0 && GroupMoved(cs0, cs1, rank, c, x, y)
    ensures forall p | p in cs0[c].mount.passengers :: p in cs1 && cs1[p] == Trailed(cs0[c], cs0[p], (x, y), true)
  {
    forall p | p in cs0[c].mount.passengers
      ensures p in cs1 && cs1[p] == Trailed(cs0[c], cs0[p], (x, y), true)
    {
      CarriedStep(cs0, rank, p, c, c);
      assert p != c && Trails(cs0, cs1, p);
    }
  }

  /**
   * The move of `switch_map` from `cs0` to `cs1`: only positions changed,
   * only within what `c` carries; `c` stands at its destination, and each
   * passenger where `Trailed` puts it.
   */
  ghost predicate Approached(cs0: Clients, cs1: Clients, m0: Registry, rank: Rank, c: ClientId, target: MapId,
                             newPos: Option<(int, int)>, gotoSpawn: bool)
  {
    && c in cs0 && target in m0
    && MovedOnly(cs0, cs1) && ChangedWithin(cs0, cs1, rank, c)
    && var dest := Destination(newPos, gotoSpawn, m0[target].startPos, (cs0[c].x, cs0[c].y));
    && c in cs1 && (cs1[c].x, cs1[c].y) == dest
    && forall p | p in cs0[c].mount.passengers :: p in cs1 && cs1[p] == Trailed(cs0[c], cs0[p], dest, newPos.Some? || gotoSpawn)
  }

  /** A move of `c` to its destination followed by the passenger loop is what `Arrived` says. */
  lemma ArriveComposed(cs0: Clients, cs1: Clients, cs: Clients, m0: Registry, m: Registry, rank: Rank, c: ClientId,
                       target: MapId, newPos: Option<(int, int)>, gotoSpawn: bool, db: Store, chat: bool,
                       perm: (MapId, ClientId, string) -> bool)
    requires Approached(cs0, cs1, m0, rank, c, target, newPos, gotoSpawn)
    requires ChangedWithin(cs1, cs, rank, c) && c in cs && cs[c] == cs1[c] && SameMapInfo(m0, m)
    requires SweptWithin(cs1, cs, rank, c, target)
    requires forall p | p in cs1[c].mount.passengers ::
               p in cs1 && p in cs && Followed(cs1[p], cs[p], cs1[c], target, perm(target, p, "entry"), db, chat)
    ensures Arrived(cs0, cs, m0, m, rank, c, target, newPos, gotoSpawn, db, chat, perm)
  {
    ChangedWithinTransitive(cs0, cs1, cs, rank, c);
    MovedOnlySameRiding(cs0, cs1, rank);
    forall u | u in cs0 && u != c && Carried(cs0, rank, u, c)
      ensures u in cs && Swept(cs0[u], cs[u], target)
    {
      CarriedFrame(cs0, cs1, rank, u, c);
      SweptTransitive(cs0[u], cs1[u], cs[u], target);
    }
    var dest := Destination(newPos, gotoSpawn, m[target].startPos, (cs0[c].x, cs0[c].y));
    forall p | p in cs0[c].mount.passengers
      ensures p in cs0 && p in cs
              && Followed(Trailed(cs0[c], cs0[p], dest, newPos.Some? || gotoSpawn), cs[p], cs[c], target,
                          perm(target, p, "entry"), db, chat)
    {
      assert p in cs1[c].mount.passengers;
    }
  }

  /** A client refused entry to `target` has only recorded the teleport and been sent an error. */
  lemma SwitchDenied(cs0: Clients, cs: Clients, m0: Registry, m: Registry, rank: Rank, c: ClientId,
                     target: MapId, newPos: Option<(int, int)>, gotoSpawn: bool, update: bool, file: MapFile,
                     db: Store, chat: bool, perm: (MapId, ClientId, string) -> bool)
    requires c in cs0 && cs0[c].onMap != Some(target) && !perm(target, c, "entry")
    requires cs == cs0[c := Send(Travelled(cs0[c], target, update), "ERR")] && m == Resident(m0, target, file)
    ensures Switched(cs0, cs, m0, m, rank, c, target, newPos, gotoSpawn, update, file, db, chat, perm, false)
  {
    ChangedAt(cs0, rank, c, cs[c]);
  }

  /**
   * A client that recorded the teleport, entered `target` unless it was on
   * it, and then arrived (moved, and its passengers switched) has done what
   * `Switched` says.
   */
  lemma SwitchArrived(cs0: Clients, cs2: Clients, cs: Clients, m0: Registry, m2: Registry, m: Registry,
                      rank: Rank, c: ClientId, target: MapId, newPos: Option<(int, int)>, gotoSpawn: bool, update: bool,
                      file: MapFile, db: Store, chat: bool, perm: (MapId, ClientId, string) -> bool)
    requires Ranked(cs0, rank) && c in cs0
    requires cs0[c].onMap == Some(target) ==> cs2 == cs0[c := Travelled(cs0[c], target, update)] && m2 == m0 && target in m0
    requires cs0[c].onMap != Some(target) ==>
               perm(target, c, "entry")
               && Entered(cs0[c := Travelled(cs0[c], target, update)], cs2, m0, m2, c, target, file,
                          CachedPermissions(db, cs0[c].ident.dbId, target), chat)
    requires Arrived(cs2, cs, m2, m, rank, c, target, newPos, gotoSpawn, db, chat, perm)
    ensures Switched(cs0, cs, m0, m, rank, c, target, newPos, gotoSpawn, update, file, db, chat, perm, true)
  {
    var cl := cs2[c];
    if cs0[c].onMap != Some(target) {
      UpdatedTwice(cs0, c, Travelled(cs0[c], target, update), cl);
    }
    ChangedAt(cs0, rank, c, cl);
    ChangedWithinTransitive(cs0, cs2, cs, rank, c);
    SweptAcross(cs0, cs2, cs, rank, c, target, cl);
    var dest := Destination(newPos, gotoSpawn, m[target].startPos, (cs0[c].x, cs0[c].y));
    FollowedAcross(cs0, cs2, cs, rank, c, target, dest, newPos.Some? || gotoSpawn, db, chat, perm, cl);
    if cs0[c].onMap == Some(target) {
      assert Resident(m0, target, file) == m0;
    } else {
      SameMapInfoTransitive(Resident(m0, target, file), m2, m);
    }
  }

  /** Changing only the record of `c`, and not its riding, keeps what `c` carries swept. */
  lemma SweptAcross(cs0: Clients, cs2: Clients, cs: Clients, rank: Rank, c: ClientId, target: MapId, cl: Client)
    requires c in cs0 && cl.mount == cs0[c].mount && cs2 == cs0[c := cl]
    requires SweptWithin(cs2, cs, rank, c, target)
    ensures SweptWithin(cs0, cs, rank, c, target)
  {
    forall u | u in cs0 && u != c && Carried(cs0, rank, u, c)
      ensures u in cs && Swept(cs0[u], cs[u], target)
    {
      CarriedFrame(cs0, cs2, rank, u, c);
    }
  }

  /** Changing only the record of `c`, but not its riding or position, keeps its passengers followed. */
  lemma FollowedAcross(cs0: Clients, cs2: Clients, cs: Clients, rank: Rank, c: ClientId, target: MapId,
                       dest: (int, int), moved: bool, db: Store, chat: bool,
                       perm: (MapId, ClientId, string) -> bool, cl: Client)
    requires Ranked(cs0, rank) && c in cs0 && c in cs && cs2 == cs0[c := cl]
    requires cl.mount == cs0[c].mount && cl.x == cs0[c].x && cl.y == cs0[c].y
    requires PassengersFollowed(cs2, cs, c, target, dest, moved, db, chat, perm)
    ensures PassengersFollowed(cs0, cs, c, target, dest, moved, db, chat, perm)
  {
    forall p | p in cs0[c].mount.passengers
      ensures p in cs0 && p in cs
              && Followed(Trailed(cs0[c], cs0[p], dest, moved), cs[p], cs[c], target, perm(target, p, "entry"), db, chat)
    {
      assert p in rank && rank[p] < rank[c];
      assert cs2[p] == cs0[p];
      assert Trailed(cs0[c], cs0[p], dest, moved) == Trailed(cs2[c], cs2[p], dest, moved);
    }
  }

  /**
   * The passenger loop of `switch_map` on `c` that started from `start`, with
   * the passengers in `todo` still to switch: `c` is as it was, the switched
   * passengers followed, everything `c` carries is swept, and nothing outside
   * the groups of the switched passengers has changed.
   */
  ghost predicate SwitchLoop(start: Clients, now: Clients, rank: Rank, c: ClientId, target: MapId,
                             todo: set<ClientId>, db: Store, chat: bool, perm: (MapId, ClientId, string) -> bool)
  {
    && Linked(start) && Ranked(start, rank) && c in start
    && todo <= start[c].mount.passengers
    && LoopKept(start, now, rank, c, todo)
    && SweptWithin(start, now, rank, c, target)
    && LoopFollowed(start, now, c, target, todo, db, chat, perm)
  }

  /** In the passenger loop of `c` from `start`: the riding is the same, `c` is as it was, and nothing outside the switched groups changed. */
  ghost predicate LoopKept(start: Clients, now: Clients, rank: Rank, c: ClientId, todo: set<ClientId>) {
    && SameRiding(start, now)
    && c in start && c in now && now[c] == start[c]
    && (forall u {:trigger Carried(start, rank, u, c)} | u in now && !Carried(start, rank, u, c) :: now[u] == start[u])
    && (forall u, t {:trigger Carried(start, rank, u, t)} | u in now && t in todo && Carried(start, rank, u, t) ::
          now[u] == start[u])
  }

  /** In the passenger loop of `c` from `start`: every passenger not in `todo` was switched as `Followed` says. */
  ghost predicate LoopFollowed(start: Clients, now: Clients, c: ClientId, target: MapId, todo: set<ClientId>,
                               db: Store, chat: bool, perm: (MapId, ClientId, string) -> bool)
    requires c in start
  {
    forall q | q in start[c].mount.passengers && q !in todo ::
      q in start && q in now && Followed(start[q], now[q], start[c], target, perm(target, q, "entry"), db, chat)
  }

  lemma SwitchStart(cs: Clients, rank: Rank, c: ClientId, target: MapId, db: Store, chat: bool,
                    perm: (MapId, ClientId, string) -> bool)
    requires Linked(cs) && Ranked(cs, rank) && c in cs
    ensures SwitchLoop(cs, cs, rank, c, target, cs[c].mount.passengers, db, chat, perm)
  {
  }

  /** A passenger of `c` at the start of its loop is registered, ranks below `c`, and has not been touched yet. */
  lemma SwitchNext(start: Clients, now: Clients, rank: Rank, c: ClientId, target: MapId,
                   todo: set<ClientId>, db: Store, chat: bool, perm: (MapId, ClientId, string) -> bool, p: ClientId)
    requires SwitchLoop(start, now, rank, c, target, todo, db, chat, perm) && p in todo
    requires Ranked(now, rank)
    ensures p in now && p in now[c].mount.passengers && p in rank && c in rank && rank[p] < rank[c]
    ensures now[p] == start[p]
  {
    assert p in start[c].mount.passengers && Carried(start, rank, p, p);
  }

  /** What the switch of passenger `p` leaves alone: `c` and everything outside `p`'s group. */
  lemma SwitchStepKeeps(start: Clients, now: Clients, after: Clients, rank: Rank, c: ClientId, target: MapId,
                        todo: set<ClientId>, db: Store, chat: bool, perm: (MapId, ClientId, string) -> bool, p: ClientId)
    requires SwitchLoop(start, now, rank, c, target, todo, db, chat, perm) && p in todo
    requires ChangedWithin(now, after, rank, p)
    ensures SameRiding(start, after) && c in after && after[c] == start[c]
    ensures forall u {:trigger Carried(start, rank, u, p)} | u in after && !Carried(start, rank, u, p) :: after[u] == now[u]
    ensures forall u {:trigger Carried(start, rank, u, c)} | u in after && !Carried(start, rank, u, c) :: after[u] == start[u]
    ensures forall u, t {:trigger Carried(start, rank, u, t)} | u in after && t in todo - {p} && Carried(start, rank, u, t) ::
              after[u] == start[u]
  {
    assert p in start[c].mount.passengers;
    VehicleNotCarriedByPassenger(start, rank, c, p);
    forall u | u in after && !Carried(start, rank, u, p)
      ensures after[u] == now[u]
    {
      CarriedFrame(now, start, rank, u, p);
    }
    forall u {:trigger Carried(start, rank, u, c)} | u in after && !Carried(start, rank, u, c)
      ensures after[u] == start[u]
    {
      if Carried(start, rank, u, p) {
        PassengerCarried(start, rank, c, p, u);
      }
    }
    forall u, t {:trigger Carried(start, rank, u, t)} | u in after && t in todo - {p} && Carried(start, rank, u, t)
      ensures after[u] == start[u]
    {
      PassengerGroupsDisjoint(start, rank, c, p, t, u);
    }
  }

  /** After the switch of passenger `p`, everything `c` carries is still swept. */
  lemma SwitchStepSwept(start: Clients, now: Clients, after: Clients, m0: Registry, m: Registry, rank: Rank, c: ClientId,
                        target: MapId, todo: set<ClientId>, file: MapFile, db: Store, chat: bool,
                        perm: (MapId, ClientId, string) -> bool, p: ClientId, ok: bool)
    requires SwitchLoop(start, now, rank, c, target, todo, db, chat, perm) && p in todo
    requires Switched(now, after, m0, m, rank, p, target, Some((now[c].x, now[c].y)), true, true, file, db, chat, perm, ok)
    requires Followed(start[p], after[p], start[c], target, perm(target, p, "entry"), db, chat)
    requires forall u {:trigger Carried(start, rank, u, p)} | u in after && !Carried(start, rank, u, p) :: after[u] == now[u]
    ensures SweptWithin(start, after, rank, c, target)
  {
    assert p in start[c].mount.passengers;
    forall u {:trigger Carried(start, rank, u, c)} | u in start && u != c && Carried(start, rank, u, c)
      ensures u in after && Swept(start[u], after[u], target)
    {
      if u == p {
        FollowedSwept(start[p], after[p], start[c], target, perm(target, p, "entry"), db, chat);
      } else if Carried(start, rank, u, p) {
        CarriedFrame(now, start, rank, u, p);
        assert now[u] == start[u];
      }
    }
  }

  /** Passenger `p` of `c` was switched to `target` at the position of `c`, as `Switched` says. */
  ghost predicate PassengerSwitched(now: Clients, after: Clients, m0: Registry, m: Registry, rank: Rank, c: ClientId,
                                    p: ClientId, target: MapId, file: MapFile, db: Store, chat: bool,
                                    perm: (MapId, ClientId, string) -> bool, ok: bool)
    requires c in now
  {
    Switched(now, after, m0, m, rank, p, target, Some((now[c].x, now[c].y)), true, true, file, db, chat, perm, ok)
  }

  /** Passenger `p` of `c` having been switched, the passenger loop of `c` advances by one. */
  lemma SwitchStep(start: Clients, now: Clients, after: Clients, m0: Registry, m: Registry, rank: Rank, c: ClientId,
                   target: MapId, todo: set<ClientId>, file: MapFile, db: Store, chat: bool,
                   perm: (MapId, ClientId, string) -> bool, p: ClientId, ok: bool)
    requires SwitchLoop(start, now, rank, c, target, todo, db, chat, perm) && p in todo
    requires PassengerSwitched(now, after, m0, m, rank, c, p, target, file, db, chat, perm, ok)
    ensures SwitchLoop(start, after, rank, c, target, todo - {p}, db, chat, perm)
  {
    assert Carried(start, rank, p, p);
    assert p in start[c].mount.passengers && now[p] == start[p];
    SwitchStepKeeps(start, now, after, rank, c, target, todo, db, chat, perm, p);
    assert Followed(start[p], after[p], start[c], target, perm(target, p, "entry"), db, chat);
    SwitchStepSwept(start, now, after, m0, m, rank, c, target, todo, file, db, chat, perm, p, ok);
    forall q | q in start[c].mount.passengers && q !in todo - {p}
      ensures q in start && q in after && Followed(start[q], after[q], start[c], target, perm(target, q, "entry"), db, chat)
    {
      if q != p {
        PassengerGroupsDisjoint(start, rank, c, p, q, q);
      }
    }
  }

  /** Once every passenger has been switched, `c`'s loop has done what `switch_map` promises. */
  lemma SwitchDone(start: Clients, now: Clients, rank: Rank, c: ClientId, target: MapId, db: Store, chat: bool,
                   perm: (MapId, ClientId, string) -> bool)
    requires SwitchLoop(start, now, rank, c, target, {}, db, chat, perm)
    ensures ChangedWithin(start, now, rank, c)
    ensures SweptWithin(start, now, rank, c, target)
    ensures forall p | p in start[c].mount.passengers ::
              p in start && p in now && Followed(start[p], now[p], start[c], target, perm(target, p, "entry"), db, chat)
  {
  }
}

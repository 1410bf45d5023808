/**
 * The server: the registry of connected clients and loaded maps, the
 * permission and account store, and the operations the session layer
 * performs on them. Each Python `Client` method becomes a `Town` method
 * taking the id of the client it runs on (`c`, the Python `self`).
 */
module Server {
  import opened Wrappers
  import opened Protocol
  import opened Accounts
  import opened Permissions
  import opened Session
  import opened Riding
  import opened Maps
  import opened Ticks
  import opened Moving
  import opened Storage
  import opened World
  import opened Switching
  import opened Logins
  import opened Release
  import opened Rides
  import opened Routing

  /** Whether the receive loop goes on, or an exception ended it (teardown follows). */
  datatype Flow = Continue | Abort

  class Town {
    var clients: Clients                                // AllClients, by id
    var maps: Registry                                  // AllMaps, by id
    var botWatch: Watch                                 // BotWatch[category][map]
    var db: Store
    var shutdown: int                                   // ServerShutdown[0]
    var running: bool                                   // false once the event loop is stopped
    var nextId: nat                                     // userCounter
    var forwarded: seq<Delivery>                        // commands passed to Map.receive_command
    var saves: multiset<MapId>                          // Map.save calls
    ghost var rank: Rank

    const pinned: set<MapId>                            // AlwaysLoadedMaps
    const motd: string
    const hash: string -> string                        // hex SHA-512
    const filterName: string -> string                  // filterUsername
    const decode: string -> Option<Json>                // json.loads; None when it raises
    const mapFiles: MapId -> MapFile                    // what getMapById loads
    const hasPermission: (MapId, ClientId, string) -> bool   // Map.has_permission

    ghost predicate Valid()
      reads this
    {
      Consistent(clients, maps, botWatch, db, rank, nextId)
    }

    constructor (pinned: set<MapId>, motd: string, hash: string -> string, filterName: string -> string,
                 decode: string -> Option<Json>, mapFiles: MapId -> MapFile,
                 hasPermission: (MapId, ClientId, string) -> bool, db: Store, shutdownCounter: int)
      requires StoreKeyed(db)
      ensures Valid()
      ensures clients == map[] && maps == map[] && botWatch == map[] && this.db == db
      ensures shutdown == shutdownCounter && running && nextId == 1 && forwarded == [] && saves == multiset{}
      ensures this.pinned == pinned && this.motd == motd && this.hash == hash && this.filterName == filterName
      ensures this.decode == decode && this.mapFiles == mapFiles && this.hasPermission == hasPermission
    {
      this.pinned, this.motd, this.hash, this.filterName := pinned, motd, hash, filterName;
      this.decode, this.mapFiles, this.hasPermission := decode, mapFiles, hasPermission;
      clients, maps, botWatch, this.db := map[], map[], map[], db;
      shutdown, running, nextId, forwarded, saves := shutdownCounter, true, 1, [], multiset{};
      rank := map[];
    }

    /** `send`: the message joins the client's outbox when a connection is attached (see `Send`). */
    method Tell(c: ClientId, msg: string)
      requires Valid() && c in clients
      modifies this`clients
      ensures Valid()
      ensures clients == old(clients)[c := Send(old(clients[c]), msg)]
    {
      SentKeepsConsistent(clients, maps, botWatch, db, rank, nextId, c, msg);
      clients := clients[c := Send(clients[c], msg)];
    }

    /**
     * `inBanList`: a guest is refused by a list holding "!guests", a user by
     * a list naming them; a refused client is sent an error.
     */
    method CheckBanList(c: ClientId, banlist: set<string>) returns (banned: bool)
      requires Valid() && c in clients
      modifies this`clients
      ensures Valid()
      ensures banned == InBanList(old(clients[c].ident.username), banlist)
      ensures clients == if banned then old(clients)[c := Send(old(clients[c]), "ERR")] else old(clients)
    {
      var username := clients[c].ident.username;
      if username.None? && "!guests" in banlist {
        Tell(c, "ERR");
        return true;
      }
      if username.Some? && username.value in banlist {
        Tell(c, "ERR");
        return true;
      }
      banned := false;
    }

    /**
     * `permissionByName`: the flag named, case-insensitively, in `table`; a
     * name that is not there gets an error and no flag.
     */
    method LookUpPermission(c: ClientId, table: map<string, Mask>, perm: string) returns (flag: Option<Mask>)
      requires Valid() && c in clients
      modifies this`clients
      ensures Valid()
      ensures flag == PermissionByName(table, perm)
      ensures clients == if flag.None? then old(clients)[c := Send(old(clients[c]), "ERR")] else old(clients)
    {
      var key := Lower(perm);
      if key in table {
        return Some(table[key]);
      }
      Tell(c, "ERR");
      flag := None;
    }

    /**
     * `mustBeOwner`: the client passes when it owns its map, has the operator
     * override, or admins are accepted and the map grants it admin; a client
     * that fails is sent an error when `giveError` asks for one.
     */
    method CheckOwner(c: ClientId, adminOkay: bool, giveError: bool) returns (ok: bool)
      requires Valid() && c in clients && clients[c].onMap.Some?
      modifies this`clients
      ensures Valid()
      ensures var m := old(clients[c].onMap.value);
        m in maps && ok == MustBeOwner(maps[m].owner, old(clients[c]), adminOkay, hasPermission(m, c, "admin"))
      ensures clients == if !ok && giveError then old(clients)[c := Send(old(clients[c]), "ERR")] else old(clients)
    {
      var m := clients[c].onMap.value;
      ok := maps[m].owner == clients[c].ident.dbId || clients[c].operOverride || (adminOkay && hasPermission(m, c, "admin"));
      if !ok && giveError {
        Tell(c, "ERR");
      }
    }

    /**
     * `dismount`: with no vehicle, an error; otherwise both sides of the edge
     * are cleared and both parties are told.
     */
    method Dismount(c: ClientId)
      requires Valid() && c in clients
      modifies this`clients
      ensures Valid()
      ensures old(clients[c].mount.vehicle).None? ==> clients == old(clients)[c := Send(old(clients[c]), "ERR")]
      ensures old(clients[c].mount.vehicle).Some? ==>
                var v := old(clients[c].mount.vehicle.value);
                v != c && v in old(clients) && clients == Unmounted(old(clients), c, v)
    {
      var cl := clients[c];
      if cl.mount.vehicle.None? {
        Tell(c, "ERR");
      } else {
        var v := cl.mount.vehicle.value;
        UnmountedKeepsConsistent(clients, maps, botWatch, db, rank, nextId, c, v);
        clients := Unmounted(clients, c, v);
      }
    }


    /** The snapshot loop of `ride` and `cleanup`: every passenger of `c` dismounts. */
    method LetOutPassengers(c: ClientId)
      requires Valid() && c in clients
      modifies this`clients
      ensures Valid()
      ensures clients == LetOut(old(clients), c, old(clients[c].mount.passengers))
    {
      ghost var cs0 := clients;
      var todo := clients[c].mount.passengers;
      LetOutNone(cs0, c);
      assert cs0[c].mount.passengers - todo == {};
      NoSelfRide(cs0, rank, c);
      while todo != {}
        invariant Valid() && todo <= cs0[c].mount.passengers && c !in todo
        invariant clients == LetOut(cs0, c, cs0[c].mount.passengers - todo)
        decreases todo
      {
        var u :| u in todo;
        LetOutStep(cs0, c, cs0[c].mount.passengers - todo, u);
        Dismount(u);
        DoneStep(cs0[c].mount.passengers, todo, u);
        todo := todo - {u};
      }
    }

    /**
     * The first half of `ride`: the rider leaves its vehicle, if any, and
     * when it carries passengers it is told so and lets them all out.
     */
    method Unburden(c: ClientId)
      requires Valid() && c in clients
      modifies this`clients
      ensures Valid()
      ensures Unburdened(old(clients), clients, c)
      ensures clients[c] == UnburdenedRider(old(clients[c]))
    {
      ghost var cs0 := clients;
      NoSelfRide(cs0, rank, c);
      VehicleNotPassenger(cs0, rank, c);
      UnburdenedRiderSteps(cs0[c]);
      if clients[c].mount.vehicle.Some? {
        Dismount(c);
        UnmountedDismounts(cs0, c, cs0[c].mount.vehicle.value);
      } else {
        DismountedStart(cs0, c);
      }
      if clients[c].mount.passengers != {} {
        ghost var cs1 := clients;
        Tell(c, "MSG");
        LetOutPassengers(c);
        LetOutUnburdens(cs0, cs1, c);
      } else {
        DismountedUnburdened(cs0, clients, c);
      }
    }

    /**
     * The middle of `ride`: both parties are told, and the edge is recorded
     * on both sides; the rider, which carries nobody, drops to the lowest rank.
     */
    method Board(c: ClientId, other: ClientId)
      requires Valid() && c in clients && other in clients && c != other
      requires clients[c].mount.vehicle.None? && clients[c].mount.passengers == {}
      requires clients[c].onMap.Some? && clients[other].onMap.Some?
      modifies this`clients, this`rank
      ensures Valid()
      ensures var cs: Clients := old(clients)[c := Send(old(clients[c]), "MSG")];
        clients == Mounted(cs[other := Send(cs[other], "MSG")], c, other)
      ensures forall u | Carried(clients, rank, u, c) :: u == c
    {
      BoardedKeepsConsistent(clients, maps, botWatch, db, rank, nextId, c, other);
      var cs: Clients := clients[c := Send(clients[c], "MSG")];
      var boarded := Mounted(cs[other := Send(cs[other], "MSG")], c, other);
      ghost var lowered := Lowered(rank, c);
      CarriesOnlyItself(boarded, lowered, c);
      clients, rank := boarded, lowered;
    }

    /**
     * `ride`: riding oneself does nothing; otherwise the rider is unburdened,
     * both parties are told, the new edge is recorded on both sides, and then
     * the rider switches to the vehicle's map and position.
     */
    method Ride(c: ClientId, other: ClientId)
      requires Valid() && c in clients && other in clients
      requires clients[c].onMap.Some? && clients[other].onMap.Some?
      modifies this`clients, this`maps, this`rank
      ensures Valid()
      ensures c == other ==> clients == old(clients) && maps == old(maps)
      ensures c != other ==>
                var target := old(clients[other].mapId);
                && Rode(old(clients), clients, c, other, hasPermission(target, c, "entry"), db, ("chat", target) in botWatch)
                && SameMapInfo(Resident(old(maps), target, mapFiles(target)), maps)
    {
      if c == other {
        return;
      }
      ghost var cs0 := clients;
      Unburden(c);
      Embark(c, other, cs0);
    }

    /** The rest of `ride` once the rider is unburdened from `cs0`: boarding, then the switch to the vehicle's map and position. */
    method Embark(c: ClientId, other: ClientId, ghost cs0: Clients)
      requires Valid() && c in clients && other in clients && c != other
      requires Unburdened(cs0, clients, c) && other in cs0 && clients[c] == UnburdenedRider(cs0[c])
      requires clients[c].onMap.Some? && clients[other].onMap.Some?
      modifies this`clients, this`maps, this`rank
      ensures Valid()
      ensures var target := cs0[other].mapId;
        && Rode(cs0, clients, c, other, hasPermission(target, c, "entry"), db, ("chat", target) in botWatch)
        && SameMapInfo(Resident(old(maps), target, mapFiles(target)), maps)
    {
      ghost var cs1 := clients;
      Board(c, other);
      BoardedAfter(cs0, cs1, c, other);
      Follow(c, other, cs0);
    }

    /** The end of `ride`: the boarded rider, which carries only itself, switches to the vehicle's map and position. */
    method Follow(c: ClientId, other: ClientId, ghost cs0: Clients)
      requires Valid() && Boarded(cs0, clients, c, other) && forall u | Carried(clients, rank, u, c) :: u == c
      modifies this`clients, this`maps
      ensures Valid()
      ensures var target := cs0[other].mapId;
        && Rode(cs0, clients, c, other, hasPermission(target, c, "entry"), db, ("chat", target) in botWatch)
        && SameMapInfo(Resident(old(maps), target, mapFiles(target)), maps)
    {
      ghost var cs3, m3 := clients, maps;
      var target, pos := clients[other].mapId, (clients[other].x, clients[other].y);
      var ok := SwitchMap(c, target, Some(pos), true, true);
      RideComposed(cs0, cs3, clients, m3, maps, rank, c, other, mapFiles(target),
                   db, ("chat", target) in botWatch, hasPermission, ok);
    }

    /**
     * `cleanup`: the socket reference is dropped, the passengers are let out,
     * the client leaves its vehicle, and it is removed from every bot-listener
     * category it recorded.
     */
    method Cleanup(c: ClientId)
      requires Valid() && c in clients && clients[c].link.attached
      modifies this`clients, this`botWatch
      ensures Valid()
      ensures Unburdened(old(clients), clients, c)
      ensures clients[c] == old(clients[c]).(mount := old(clients[c]).mount.(vehicle := None, passengers := {}),
                                             link := old(clients[c]).link.(attached := false))
      ensures botWatch == Unwatched(old(botWatch), c, old(clients[c].listeningMaps))
    {
      ListeningRegistered(clients, botWatch, c);
      Unseat(c);
      Unlisten(c);
    }

    /** The riding half of `cleanup`: detached first, the client lets out its passengers and leaves its vehicle. */
    method Unseat(c: ClientId)
      requires Valid() && c in clients
      modifies this`clients
      ensures Valid()
      ensures Unburdened(old(clients), clients, c)
      ensures clients[c] == old(clients[c]).(mount := old(clients[c]).mount.(vehicle := None, passengers := {}),
                                             link := old(clients[c]).link.(attached := false))
    {
      ghost var cs0 := clients;
      NoSelfRide(cs0, rank, c);
      VehicleNotPassenger(cs0, rank, c);
      CleanedUp(cs0, c);
      Detach(c);
      LetOutPassengers(c);
      if clients[c].mount.vehicle.Some? {
        Dismount(c);
      }
    }

    /** `self.ws = None`: the session no longer holds its socket, so nothing more is sent to it. */
    method Detach(c: ClientId)
      requires Valid() && c in clients
      modifies this`clients
      ensures Valid()
      ensures clients == old(clients)[c := old(clients[c]).(link := old(clients[c]).link.(attached := false))]
    {
      DetachedKeepsConsistent(clients, maps, botWatch, db, rank, nextId, c);
      clients := clients[c := clients[c].(link := clients[c].link.(attached := false))];
    }

    /** The listener loop of `cleanup`: `c` is removed from each category it recorded. */
    method Unlisten(c: ClientId)
      requires Valid() && c in clients && !clients[c].link.attached
      requires forall p | p in clients[c].listeningMaps :: p in botWatch
      modifies this`botWatch
      ensures Valid()
      ensures botWatch == Unwatched(old(botWatch), c, clients[c].listeningMaps)
    {
      var todo := clients[c].listeningMaps;
      assert old(botWatch) == Unwatched(old(botWatch), c, {});
      while todo != {}
        invariant Valid() && todo <= clients[c].listeningMaps
        invariant botWatch == Unwatched(old(botWatch), c, clients[c].listeningMaps - todo)
        decreases todo
      {
        var p :| p in todo;
        UnwatchedKeepsConsistent(clients, maps, botWatch, db, rank, nextId, c, p);
        UnwatchedStep(old(botWatch), botWatch, c, clients[c].listeningMaps - todo, p);
        botWatch := botWatch[p := botWatch[p] - {c}];
        DoneStep(clients[c].listeningMaps, todo, p);
        todo := todo - {p};
      }
    }

    /** `moveTo`: see `MoveGroup`. */
    method MoveTo(c: ClientId, x: int, y: int)
      requires Valid() && c in clients
      modifies this`clients
      ensures Valid()
      ensures GroupMoved(old(clients), clients, rank, c, x, y)
    {
      clients := MoveGroup(clients, rank, c, x, y);
      MovedOnlySameShape(old(clients), clients);
      SameShapeKeepsConsistent(old(clients), clients, maps, botWatch, db, rank, nextId);
    }
 
    /**
     * `updateMapPermissions`: the cache is cleared; a guest keeps it clear;
     * otherwise the direct grant row is copied and every group allow mask of
     * the user on the client's map is OR-ed in.
     */
    method UpdateMapPermissions(c: ClientId)
      requires c in clients
      modifies this`clients
      ensures clients == old(clients)[c := old(clients[c]).(perms := CachedPermissions(db, old(clients[c].ident.dbId), old(clients[c].mapId)))]
    {
      var cl := clients[c];
      var cache := Grant(0, 0);
      if cl.ident.dbId.Some? {
        var direct := DirectGrant(db, cl.mapId, cl.ident.dbId.value);
        var rows := GroupRows(db, cl.mapId, cl.ident.dbId.value);
        var base := if direct.Some? then direct.value else Grant(0, 0);
        var allow := OrInto(base.allow, rows);
        cache := Grant(allow, base.deny);
      }
      assert cache == CachedPermissions(db, cl.ident.dbId, cl.mapId);
      clients := clients[c := cl.(perms := cache)];
    }

    /**
     * The map-entering half of `switch_map`: off the old map, onto `target`,
     * the permission cache refreshed, and the map, its info and its user list
     * sent, with the listener warning when chat on `target` is watched.
     */
    method Enter(c: ClientId, target: MapId)
      requires Valid() && c in clients && target in maps
      modifies this`clients, this`maps
      ensures Valid()
      ensures maps == Joined(Left(old(maps), c, old(clients[c].onMap)), c, target)
      ensures clients == old(clients)[c := Greeted(old(clients[c]).(onMap := Some(target), mapId := target,
                perms := CachedPermissions(db, old(clients[c].ident.dbId), target)), ("chat", target) in botWatch)]
    {
      ghost var cs0, ms0 := clients, maps;
      var cl := clients[c];
      maps := Left(maps, c, cl.onMap);
      clients := clients[c := cl.(mapId := target, onMap := Some(target))];
      UpdateMapPermissions(c);
      var greeted := Send(Send(clients[c], "MAI"), "MAP");
      maps := Joined(maps, c, target);
      greeted := Send(greeted, "WHO");
      if ("chat", target) in botWatch {
        greeted := Send(greeted, "MSG");
      }
      clients := clients[c := greeted];
      assert clients == cs0[c := greeted];
      EnterKeepsConsistent(cs0, ms0, botWatch, db, rank, nextId, c, greeted, target);
    }

    /**
     * `switch_map`: the teleport is recorded; a client not already on
     * `target` needs its entry permission (else an error and False) and
     * enters it; then it is moved and its passengers follow (see `Arrive`).
     * Only the client and what it carries change.
     */
    method SwitchMap(c: ClientId, target: MapId, newPos: Option<(int, int)>, gotoSpawn: bool, updateHistory: bool)
      returns (ok: bool)
      requires Valid() && c in clients
      modifies this`clients, this`maps
      decreases rank[c], 5
      ensures Valid()
      ensures Switched(old(clients), clients, old(maps), maps, rank, c, target, newPos, gotoSpawn, updateHistory,
                       mapFiles(target), db, ("chat", target) in botWatch, hasPermission, ok)
    {
      if clients[c].onMap != Some(target) {
        ok := SwitchAway(c, target, newPos, gotoSpawn, updateHistory);
      } else {
        SwitchWithin(c, target, newPos, gotoSpawn, updateHistory);
        ok := true;
      }
    }

    /** `switch_map` for a client not on `target`: admission, then arrival when admitted. */
    method SwitchAway(c: ClientId, target: MapId, newPos: Option<(int, int)>, gotoSpawn: bool, updateHistory: bool)
      returns (ok: bool)
      requires Valid() && c in clients && clients[c].onMap != Some(target)
      modifies this`clients, this`maps
      decreases rank[c], 4
      ensures Valid()
      ensures Switched(old(clients), clients, old(maps), maps, rank, c, target, newPos, gotoSpawn, updateHistory,
                       mapFiles(target), db, ("chat", target) in botWatch, hasPermission, ok)
    {
      ghost var cs0, m0 := clients, maps;
      ok := Admit(c, target, updateHistory);
      if !ok {
        SwitchDenied(cs0, clients, m0, maps, rank, c, target, newPos, gotoSpawn, updateHistory, mapFiles(target),
                     db, ("chat", target) in botWatch, hasPermission);
      } else {
        Land(c, target, newPos, gotoSpawn, cs0, m0, updateHistory);
      }
    }

    /** `switch_map` for a client already on `target`: the history step, then arrival. */
    method SwitchWithin(c: ClientId, target: MapId, newPos: Option<(int, int)>, gotoSpawn: bool, updateHistory: bool)
      requires Valid() && c in clients && clients[c].onMap == Some(target)
      modifies this`clients, this`maps
      decreases rank[c], 4
      ensures Valid()
      ensures Switched(old(clients), clients, old(maps), maps, rank, c, target, newPos, gotoSpawn, updateHistory,
                       mapFiles(target), db, ("chat", target) in botWatch, hasPermission, true)
    {
      ghost var cs0, m0 := clients, maps;
      Record(c, target, updateHistory);
      Land(c, target, newPos, gotoSpawn, cs0, m0, updateHistory);
    }

    /**
     * The common tail of `switch_map` once the teleport is recorded and the
     * client is on `target` (entered from `cs0`, `m0` unless it was there):
     * arrival, which together with what came before is what `Switched` says.
     */
    method Land(c: ClientId, target: MapId, newPos: Option<(int, int)>, gotoSpawn: bool,
                ghost cs0: Clients, ghost m0: Registry, ghost updateHistory: bool)
      requires Valid() && c in clients && clients[c].onMap == Some(target)
      requires Ranked(cs0, rank) && c in cs0
      requires cs0[c].onMap == Some(target) ==>
                 clients == cs0[c := Travelled(cs0[c], target, updateHistory)] && maps == m0 && target in m0
      requires cs0[c].onMap != Some(target) ==>
                 hasPermission(target, c, "entry") &&
                 Entered(cs0[c := Travelled(cs0[c], target, updateHistory)], clients, m0, maps, c, target,
                         mapFiles(target), CachedPermissions(db, cs0[c].ident.dbId, target), ("chat", target) in botWatch)
      modifies this`clients, this`maps
      decreases rank[c], 3
      ensures Valid()
      ensures Switched(cs0, clients, m0, maps, rank, c, target, newPos, gotoSpawn, updateHistory,
                       mapFiles(target), db, ("chat", target) in botWatch, hasPermission, true)
    {
      ghost var cs2, m2 := clients, maps;
      Arrive(c, target, newPos, gotoSpawn);
      SwitchArrived(cs0, cs2, clients, m0, m2, maps, rank, c, target, newPos, gotoSpawn, updateHistory,
                    mapFiles(target), db, ("chat", target) in botWatch, hasPermission);
    }

    /** The history step of `switch_map`: the teleport is recorded in the client's history. */
    method Record(c: ClientId, target: MapId, updateHistory: bool)
      requires Valid() && c in clients
      modifies this`clients
      ensures Valid()
      ensures clients == old(clients)[c := Travelled(old(clients[c]), target, updateHistory)]
    {
      var cl := clients[c];
      RecordedMeaning(cl.tpHistory, cl.mapId, cl.x, cl.y, target, updateHistory);
      UpdateKeepsConsistent(clients, maps, botWatch, db, rank, nextId, c, Travelled(cl, target, updateHistory));
      clients := clients[c := Travelled(cl, target, updateHistory)];
    }

    /**
     * The admission half of `switch_map` for a client not on `target`: the
     * teleport is recorded and the map made resident; without entry
     * permission the client gets an error, otherwise it enters the map.
     */
    method Admit(c: ClientId, target: MapId, updateHistory: bool) returns (ok: bool)
      requires Valid() && c in clients && clients[c].onMap != Some(target)
      modifies this`clients, this`maps
      ensures Valid()
      ensures ok == hasPermission(target, c, "entry")
      ensures !ok ==> (maps == Resident(old(maps), target, mapFiles(target))
                       && clients == old(clients)[c := Send(Travelled(old(clients[c]), target, updateHistory), "ERR")])
      ensures ok ==> Entered(old(clients)[c := Travelled(old(clients[c]), target, updateHistory)], clients, old(maps), maps,
                             c, target, mapFiles(target), CachedPermissions(db, old(clients[c].ident.dbId), target),
                             ("chat", target) in botWatch)
    {
      var recorded := Travelled(clients[c], target, updateHistory);
      Record(c, target, updateHistory);
      ResidentKeepsConsistent(clients, maps, botWatch, db, rank, nextId, target, mapFiles(target));
      maps := Resident(maps, target, mapFiles(target));
      ok := hasPermission(target, c, "entry");
      if !ok {
        Tell(c, "ERR");
        UpdatedTwice(old(clients), c, recorded, Send(recorded, "ERR"));
        return;
      }
      Enter(c, target);
      AdmitEntered(old(clients), clients, old(maps), maps, c, target, updateHistory, mapFiles(target),
                   CachedPermissions(db, old(clients[c].ident.dbId), target), ("chat", target) in botWatch);
    }

    /**
     * The tail of `switch_map` once the client is on `target`: it moves to
     * `newPos`, else to the spawn point when `gotoSpawn`, else stays; then
     * every passenger is switched to `target` at the client's position.
     */
    method Arrive(c: ClientId, target: MapId, newPos: Option<(int, int)>, gotoSpawn: bool)
      requires Valid() && c in clients && clients[c].onMap == Some(target)
      modifies this`clients, this`maps
      decreases rank[c], 2
      ensures Valid()
      ensures Arrived(old(clients), clients, old(maps), maps, rank, c, target, newPos, gotoSpawn, db,
                      ("chat", target) in botWatch, hasPermission)
    {
      Approach(c, target, newPos, gotoSpawn);
      ghost var cs1 := clients;
      SwitchPassengers(c, target);
      ArriveComposed(old(clients), cs1, clients, old(maps), maps, rank, c, target, newPos, gotoSpawn, db,
                     ("chat", target) in botWatch, hasPermission);
    }

    /** The move of `switch_map`: to `newPos`, else to the spawn point when `gotoSpawn`, else nowhere. */
    method Approach(c: ClientId, target: MapId, newPos: Option<(int, int)>, gotoSpawn: bool)
      requires Valid() && c in clients && clients[c].onMap == Some(target)
      modifies this`clients
      ensures Valid() && c in clients && clients[c].onMap == Some(target)
      ensures Approached(old(clients), clients, maps, rank, c, target, newPos, gotoSpawn)
    {
      ghost var cs0 := clients;
      assert target in maps;
      if newPos.Some? || gotoSpawn {
        var dest := if newPos.Some? then newPos.value else maps[target].startPos;
        MoveTo(c, dest.0, dest.1);
        GroupMovedWithin(cs0, clients, rank, c, dest.0, dest.1);
        GroupMovedTrailed(cs0, clients, rank, c, dest.0, dest.1);
        assert clients[c].onMap == cs0[c].onMap;
      } else {
        assert MovedOnly(cs0, clients) && ChangedWithin(cs0, clients, rank, c);
      }
    }

    /** The passenger loop of `switch_map`: each passenger is switched to `target` at the vehicle's position. */
    method SwitchPassengers(c: ClientId, target: MapId)
      requires Valid() && c in clients && clients[c].onMap == Some(target)
      modifies this`clients, this`maps
      decreases rank[c], 1
      ensures Valid()
      ensures ChangedWithin(old(clients), clients, rank, c) && clients[c] == old(clients[c])
      ensures SameMapInfo(old(maps), maps)
      ensures SweptWithin(old(clients), clients, rank, c, target)
      ensures forall p | p in old(clients[c].mount.passengers) ::
                p in old(clients) && p in clients
                && Followed(old(clients[p]), clients[p], old(clients[c]), target, hasPermission(target, p, "entry"), db,
                            ("chat", target) in botWatch)
    {
      ghost var start, m0, chat := clients, maps, ("chat", target) in botWatch;
      var todo := clients[c].mount.passengers;
      SwitchStart(start, rank, c, target, db, chat, hasPermission);
      while todo != {}
        invariant Valid()
        invariant SwitchLoop(start, clients, rank, c, target, todo, db, chat, hasPermission)
        invariant SameMapInfo(m0, maps) && target in maps
        decreases todo
      {
        var p :| p in todo;
        SwitchPassenger(c, p, target, start, m0, todo);
        todo := todo - {p};
      }
      SwitchDone(start, clients, rank, c, target, db, chat, hasPermission);
    }

    /** One turn of the passenger loop: passenger `p` of `c`, still to switch, is switched to `target` at `c`'s position. */
    method SwitchPassenger(c: ClientId, p: ClientId, target: MapId, ghost start: Clients, ghost m0: Registry,
                           ghost todo: set<ClientId>)
      requires Valid() && p in todo && target in maps && SameMapInfo(m0, maps)
      requires SwitchLoop(start, clients, rank, c, target, todo, db, ("chat", target) in botWatch, hasPermission)
      modifies this`clients, this`maps
      decreases rank[c], 0
      ensures Valid() && target in maps && SameMapInfo(m0, maps)
      ensures SwitchLoop(start, clients, rank, c, target, todo - {p}, db, ("chat", target) in botWatch, hasPermission)
    {
      SwitchNext(start, clients, rank, c, target, todo, db, ("chat", target) in botWatch, hasPermission, p);
      ghost var now, ms := clients, maps;
      var ok := SwitchMap(p, target, Some((clients[c].x, clients[c].y)), true, true);
      ResidentAlready(m0, ms, maps, target, mapFiles(target));
      SwitchStep(start, now, clients, ms, maps, rank, c, target, todo, mapFiles(target), db, ("chat", target) in botWatch,
                 hasPermission, p, ok);
    }
    // ---- the background tick ----

    /**
     * `mainTimer`: every client ticks, the unpinned maps nobody is on are
     * saved and unloaded, and the shutdown counter steps; the tick is
     * scheduled again exactly when the counter is not zero.
     */
    method Tick() returns (rearm: bool)
      requires Valid()
      modifies this`clients, this`maps, this`saves, this`shutdown, this`running
      ensures Valid()
      ensures var step := ShutdownTick(old(shutdown));
        && rearm == step.rearm && rearm == (shutdown != 0) && shutdown == step.counter
        && running == (old(running) && !step.stop)
        && maps == Unloaded(old(maps), pinned)
        && (step.finalWarning ==>
              clients == Closed(TickedSome(old(clients), old(clients).Keys), old(clients).Keys)
              && saves == old(saves) + multiset(old(maps).Keys - maps.Keys) + multiset(maps.Keys))
        && (!step.finalWarning ==>
              clients == TickedSome(old(clients), old(clients).Keys)
              && saves == old(saves) + multiset(old(maps).Keys - maps.Keys))
    {
      TickClients();
      UnloadMaps();
      rearm := CountDown();
    }

    /** The client loop of `mainTimer`: each client's requests age and its connection ticks (see `TickClient`). */
    method TickClients()
      requires Valid()
      modifies this`clients
      ensures Valid()
      ensures clients == TickedSome(old(clients), old(clients).Keys)
    {
      ghost var cs0 := clients;
      var todo := clients.Keys;
      TickedNone(cs0);
      assert cs0.Keys - todo == {};
      while todo != {}
        invariant todo <= cs0.Keys
        invariant clients == TickedSome(cs0, cs0.Keys - todo)
        decreases todo
      {
        var u :| u in todo;
        TickedStep(cs0, cs0.Keys - todo, u);
        clients := clients[u := TickClient(clients[u])];
        DoneStep(cs0.Keys, todo, u);
        todo := todo - {u};
      }
      assert cs0.Keys - todo == cs0.Keys;
      TickedKeepsConsistent(cs0, maps, botWatch, db, rank, nextId, cs0.Keys);
    }

    /**
     * The map loop of `mainTimer`: every map that is not pinned and has no
     * users is saved once, and then all of them are removed from the registry.
     */
    method UnloadMaps()
      requires Valid()
      modifies this`maps, this`saves
      ensures Valid()
      ensures maps == Unloaded(old(maps), pinned)
      ensures saves == old(saves) + multiset(old(maps).Keys - maps.Keys)
    {
      ghost var m0 := maps;
      var idle := CollectIdle();
      DropMaps(idle);
      IdleRemoved(m0, pinned);
      UnloadedKeepsConsistent(clients, m0, botWatch, db, rank, nextId, pinned);
    }

    /** The first half of the sweep: every idle, unpinned map is saved and noted. */
    method CollectIdle() returns (idle: set<MapId>)
      modifies this`saves
      ensures idle == Idle(maps, pinned, maps.Keys)
      ensures saves == old(saves) + multiset(idle)
    {
      var unloaded: set<Listed> := {};
      var todo: set<Listed> := maps.Keys;
      while todo != {}
        invariant todo <= maps.Keys
        invariant unloaded == Idle(maps, pinned, maps.Keys - todo)
        invariant saves == old(saves) + multiset(unloaded)
        decreases todo
      {
        var k :| k in todo;
        IdleStep(maps, pinned, maps.Keys - todo, k);
        if maps[k].id !in pinned && |maps[k].users| < 1 {
          saves := saves + multiset{k};
          unloaded := unloaded + {k};
        }
        DoneStep(maps.Keys, todo, k);
        todo := todo - {k};
      }
      idle := unloaded;
    }

    /** The second half of the sweep: the noted maps leave the registry. */
    method DropMaps(gone: set<MapId>)
      modifies this`maps
      ensures maps == old(maps) - gone
    {
      var rest: set<Listed> := gone;
      while rest != {}
        invariant rest <= gone
        invariant maps == old(maps) - (gone - rest)
        decreases rest
      {
        var k :| k in rest;
        maps := maps - {k};
        DoneStep(gone, rest, k);
        rest := rest - {k};
      }
    }

    /**
     * The shutdown part of `mainTimer`: the counter steps as `ShutdownTick`
     * says; on the final warning every client is asked to disconnect and
     * every loaded map is saved; at zero the event loop stops.
     */
    method CountDown() returns (rearm: bool)
      requires Valid()
      modifies this`clients, this`saves, this`shutdown, this`running
      ensures Valid()
      ensures var step := ShutdownTick(old(shutdown));
        && rearm == step.rearm && shutdown == step.counter && running == (old(running) && !step.stop)
        && (step.finalWarning ==> clients == Closed(old(clients), old(clients).Keys) && saves == old(saves) + multiset(maps.Keys))
        && (!step.finalWarning ==> clients == old(clients) && saves == old(saves))
    {
      var step := ShutdownTick(shutdown);
      shutdown := step.counter;
      if step.finalWarning {
        CloseAll();
        SaveAll();
      }
      if step.stop {
        running := false;
      }
      rearm := step.rearm;
    }

    /** `disconnect` for every client, as the final shutdown warning does. */
    method CloseAll()
      requires Valid()
      modifies this`clients
      ensures Valid()
      ensures clients == Closed(old(clients), old(clients).Keys)
    {
      ghost var cs0 := clients;
      var todo := clients.Keys;
      ClosedNone(cs0);
      assert cs0.Keys - todo == {};
      while todo != {}
        invariant todo <= cs0.Keys
        invariant clients == Closed(cs0, cs0.Keys - todo)
        decreases todo
      {
        var u :| u in todo;
        ClosedStep(cs0, cs0.Keys - todo, u);
        clients := clients[u := clients[u].(link := clients[u].link.(closeRequested := true))];
        DoneStep(cs0.Keys, todo, u);
        todo := todo - {u};
      }
      assert cs0.Keys - todo == cs0.Keys;
      ClosedKeepsConsistent(cs0, maps, botWatch, db, rank, nextId, cs0.Keys);
    }

    /** `save` for every loaded map, as the final shutdown warning does. */
    method SaveAll()
      modifies this`saves
      ensures saves == old(saves) + multiset(maps.Keys)
    {
      var todo: set<Listed> := maps.Keys;
      while todo != {}
        invariant todo <= maps.Keys
        invariant saves == old(saves) + multiset(maps.Keys - todo)
        decreases todo
      {
        var k :| k in todo;
        saves := saves + multiset{k};
        DoneStep(maps.Keys, todo, k);
        todo := todo - {k};
      }
    }

    // ---- accounts ----

    /**
     * `save`: a row is created for an unknown username, the session learns
     * its row id, and the row is overwritten with the session's fields.
     */
    method Save(c: ClientId)
      requires Valid() && c in clients && clients[c].ident.username.Some?
      modifies this`clients, this`db
      ensures Valid()
      ensures db == Saved(old(db), old(clients[c]))
      ensures clients == old(clients)[c := old(clients[c]).(ident := old(clients[c]).ident.(
                dbId := Some(SavedUid(old(db), old(clients[c].ident.username.value)))))]
      ensures var n := clients[c].ident.username.value;
        n in db.accounts && clients[c].ident.dbId == Some(db.accounts[n].uid)
        && (n in old(db.accounts) ==> db.accounts[n].uid == old(db.accounts[n].uid))
        && (n !in old(db.accounts) ==> forall m | m in old(db.accounts) :: old(db.accounts[m].uid) != db.accounts[n].uid)
    {
      var cl := clients[c];
      var uid := SavedUid(db, cl.ident.username.value);
      SavedKeyed(db, cl);
      SavedKeepsConsistent(clients, maps, botWatch, db, rank, nextId, cl);
      db := Saved(db, cl);
      UpdateKeepsConsistent(clients, maps, botWatch, db, rank, nextId, c, cl.(ident := cl.ident.(dbId := Some(uid))));
      clients := clients[c := cl.(ident := cl.ident.(dbId := Some(uid)))];
    }

    /**
     * `changepass`: the stored hash becomes the salt, a colon and the digest
     * of password plus salt, and the session is saved; loading the account
     * afterwards accepts that password.
     */
    method ChangePass(c: ClientId, password: string, salt: string)
      requires Valid() && c in clients && clients[c].ident.username.Some?
      modifies this`clients, this`db
      ensures Valid()
      ensures var cl := old(clients[c]).(ident := old(clients[c]).ident.(password := Some(SaltedHash(password, salt, hash))));
        db == Saved(old(db), cl)
        && clients == old(clients)[c := cl.(ident := cl.ident.(dbId := Some(SavedUid(old(db), cl.ident.username.value))))]
      ensures IsDigest(hash) && ':' !in salt ==>
                LoadAnswer(db, clients[c].ident.username.value, password, hash) == Authenticated
    {
      var cl := clients[c];
      var cl1 := cl.(ident := cl.ident.(password := Some(SaltedHash(password, salt, hash))));
      UpdateKeepsConsistent(clients, maps, botWatch, db, rank, nextId, c, cl1);
      ghost var cs0, db0 := clients, db;
      clients := clients[c := cl1];
      Save(c);
      UpdatedTwice(cs0, c, cl1, cl1.(ident := cl1.ident.(dbId := Some(SavedUid(db0, cl1.ident.username.value)))));
      if IsDigest(hash) && ':' !in salt {
        SaveThenLoad(db0, cl1, cl1, password, salt, password, hash);
      }
    }

    /**
     * `register`: refused (False, nothing changed) when the filtered
     * username already has an account; otherwise the session takes the
     * name and its password is set and saved under a fresh row id.
     */
    method Register(c: ClientId, username: string, password: string, salt: string) returns (ok: bool)
      requires Valid() && c in clients
      modifies this`clients, this`db
      ensures Valid()
      ensures ok <==> filterName(username) !in old(db.accounts)
      ensures !ok ==> clients == old(clients) && db == old(db)
      ensures ok ==> var n := filterName(username);
        && c in clients && clients[c].ident.username == Some(n) && n in db.accounts
        && clients[c].ident.dbId == Some(db.accounts[n].uid)
        && (forall m | m in old(db.accounts) :: old(db.accounts[m].uid) != db.accounts[n].uid)
        && (IsDigest(hash) && ':' !in salt ==> LoadAnswer(db, n, password, hash) == Authenticated)
      ensures ok ==> var n := filterName(username);
        var cl := old(clients[c]).(ident := old(clients[c]).ident.(username := Some(n),
                                                                    password := Some(SaltedHash(password, salt, hash))));
        db == Saved(old(db), cl) && clients == old(clients)[c := cl.(ident := cl.ident.(dbId := Some(SavedUid(old(db), n))))]
    {
      var name := filterName(username);
      if name in db.accounts {
        return false;
      }
      ghost var cs0 := clients;
      var cl := clients[c].(ident := clients[c].ident.(username := Some(name)));
      UpdateKeepsConsistent(clients, maps, botWatch, db, rank, nextId, c, cl);
      clients := clients[c := cl];
      ghost var db0 := db;
      ChangePass(c, password, salt);
      ghost var saved := cl.(ident := cl.ident.(password := Some(SaltedHash(password, salt, hash))));
      assert saved == cs0[c].(ident := cs0[c].ident.(username := Some(name), password := Some(SaltedHash(password, salt, hash))));
      UpdatedTwice(cs0, c, cl, saved.(ident := saved.ident.(dbId := Some(SavedUid(db0, name)))));
      SavedKeyed(db0, clients[c].(ident := clients[c].ident.(dbId := cl.ident.dbId)));
      ok := true;
    }

    /** The assignments of `load` once the password is accepted: the session takes the account row's fields. */
    method LoadAccount(c: ClientId, name: string)
      requires Valid() && c in clients && name in db.accounts
      modifies this`clients
      ensures Valid()
      ensures clients == old(clients)[c := Restore(old(clients[c]), db.accounts[name])]
    {
      UpdateKeepsConsistent(clients, maps, botWatch, db, rank, nextId, c, Restore(clients[c], db.accounts[name]));
      clients := clients[c := Restore(clients[c], db.accounts[name])];
    }

    /**
     * `login`: the filtered username and the password are checked as `load`
     * does. An unknown account or a bad password gets an error and False; a
     * NULL stored hash raises; an accepted password continues as `Welcome`.
     * Only the client and what it carries change.
     */
    method Login(c: ClientId, username: string, password: string) returns (outcome: LoginOutcome)
      requires Valid() && c in clients
      modifies this`clients, this`maps
      ensures Valid()
      ensures var answer := LoadAnswer(db, filterName(username), password, hash);
        && (outcome == NoAccount <==> answer == NoSuchAccount)
        && (outcome == BadPassword <==> answer == WrongPassword)
        && (outcome == LoggedIn ==> answer == Authenticated)
        && (answer == LoadFault ==> outcome == LoginRaised && clients == old(clients) && maps == old(maps))
        && (answer == NoSuchAccount || answer == WrongPassword ==>
              clients == old(clients)[c := Send(old(clients[c]), "ERR")] && maps == old(maps))
      ensures c in clients && clients[c].link.attached == old(clients[c].link.attached)
      ensures ChangedWithin(old(clients), clients, rank, c)
      ensures LoadAnswer(db, filterName(username), password, hash) == Authenticated ==>
        var a := db.accounts[filterName(username)];
        && Welcomed(old(clients[c]), clients, a, c, hasPermission, outcome)
        && SameMapInfo(Resident(old(maps), a.mid, mapFiles(a.mid)), maps)
    {
      var name := filterName(username);
      var answer := LoadAnswer(db, name, password, hash);
      if answer == NoSuchAccount || answer == WrongPassword {
        ChangedAt(clients, rank, c, Send(clients[c], "ERR"));
        Tell(c, "ERR");
        outcome := if answer == NoSuchAccount then NoAccount else BadPassword;
      } else if answer == LoadFault {
        ChangedAt(clients, rank, c, clients[c]);
        assert clients[c := clients[c]] == clients;
        outcome := LoginRaised;
      } else {
        outcome := Welcome(c, name);
      }
    }

    /**
     * The accepted branch of `login`: the session takes the account's fields
     * and switches to its saved map without moving; if that leaves it on no
     * map the broadcast that follows raises, and otherwise it is sent its
     * inventory and the login succeeds. Only the client and what it carries
     * change.
     */
    method Welcome(c: ClientId, name: string) returns (outcome: LoginOutcome)
      requires Valid() && c in clients && name in db.accounts
      modifies this`clients, this`maps
      ensures Valid()
      ensures outcome == LoggedIn || outcome == LoginRaised
      ensures Welcomed(old(clients[c]), clients, db.accounts[name], c, hasPermission, outcome)
      ensures ChangedWithin(old(clients), clients, rank, c)
      ensures SameMapInfo(Resident(old(maps), db.accounts[name].mid, mapFiles(db.accounts[name].mid)), maps)
    {
      Reopen(c, name);
      ghost var cs2 := clients;
      outcome := Conclude(c, old(clients[c]), db.accounts[name]);
      ChangedWithinTransitive(old(clients), cs2, clients, rank, c);
    }

    /** The end of an accepted login: a session left on no map raises; otherwise it is sent its inventory. */
    method Conclude(c: ClientId, ghost before: Client, ghost a: Account) returns (outcome: LoginOutcome)
      requires Valid() && c in clients && Resumed(Restore(before, a), clients[c], c, hasPermission)
      modifies this`clients
      ensures Valid()
      ensures outcome == LoggedIn || outcome == LoginRaised
      ensures Welcomed(before, clients, a, c, hasPermission, outcome)
      ensures ChangedWithin(old(clients), clients, rank, c)
    {
      if clients[c].onMap.None? {
        outcome := LoginRaised;
        ChangedAt(clients, rank, c, clients[c]);
        assert clients[c := clients[c]] == clients;
      } else {
        Tell(c, "BAG");
        ChangedAt(old(clients), rank, c, clients[c]);
        outcome := LoggedIn;
      }
      WelcomedAfter(before, old(clients), clients, a, c, hasPermission, outcome);
    }

    /** The account loaded into the session, then the switch to its own map id, as `Resumed` says. */
    method Reopen(c: ClientId, name: string)
      requires Valid() && c in clients && name in db.accounts
      modifies this`clients, this`maps
      ensures Valid() && c in clients
      ensures Resumed(Restore(old(clients[c]), db.accounts[name]), clients[c], c, hasPermission)
      ensures ChangedWithin(old(clients), clients, rank, c)
      ensures SameMapInfo(Resident(old(maps), db.accounts[name].mid, mapFiles(db.accounts[name].mid)), maps)
    {
      ghost var cs0 := clients;
      LoadAccount(c, name);
      ChangedAt(cs0, rank, c, clients[c]);
      ghost var cs1 := clients;
      ghost var mid := db.accounts[name].mid;
      assert cs1[c].mapId == mid;
      var ok := Resume(c);
      assert SameMapInfo(Resident(old(maps), mid, mapFiles(mid)), maps);
      ChangedWithinTransitive(cs0, cs1, clients, rank, c);
    }

    /**
     * `switch_map(self.map_id, goto_spawn=False)`: the session goes to its
     * own map id without moving; the outcome is `Switched`.
     */
    method Resume(c: ClientId) returns (ok: bool)
      requires Valid() && c in clients
      modifies this`clients, this`maps
      ensures Valid() && c in clients
      ensures var target := old(clients[c].mapId);
        Switched(old(clients), clients, old(maps), maps, rank, c, target, None, false, true, mapFiles(target),
                 db, ("chat", target) in botWatch, hasPermission, ok)
      ensures Resumed(old(clients[c]), clients[c], c, hasPermission)
      ensures SameMapInfo(Resident(old(maps), old(clients[c].mapId), mapFiles(old(clients[c].mapId))), maps)
    {
      ghost var cs1, m1 := clients, maps;
      var target := clients[c].mapId;
      ok := SwitchMap(c, target, None, false, true);
      StayingSwitch(cs1, clients, m1, maps, rank, c, true, mapFiles(target),
                    db, ("chat", target) in botWatch, hasPermission, ok);
    }

    // ---- the receive loop ----

    /** `PIN`: the ping counter is reset. */
    method Pong(c: ClientId)
      requires Valid() && c in clients
      modifies this`clients
      ensures Valid()
      ensures clients == old(clients)[c := old(clients[c]).(link := old(clients[c]).link.(pingTimer := PingResetValue))]
    {
      var cl := clients[c].(link := clients[c].link.(pingTimer := PingResetValue));
      UpdateKeepsConsistent(clients, maps, botWatch, db, rank, nextId, c, cl);
      clients := clients[c := cl];
    }

    /**
     * `switch_map(0)` after an `IDN` that did not log in: the outcome is
     * `Switched`, so an admitted client stands at map 0's spawn point with
     * the teleport recorded and its passengers following.
     */
    method Fallback(c: ClientId) returns (ok: bool)
      requires Valid() && c in clients
      modifies this`clients, this`maps
      ensures Valid() && c in clients
      ensures Switched(old(clients), clients, old(maps), maps, rank, c, 0, None, true, true, mapFiles(0),
                       db, ("chat", 0) in botWatch, hasPermission, ok)
      ensures SentToSpawn(old(clients[c]), clients[c], old(maps), maps, c, 0, mapFiles(0), hasPermission)
    {
      ghost var cs0, m0 := clients, maps;
      ok := SwitchMap(c, 0, None, true, true);
      SwitchSentToSpawn(cs0, clients, m0, maps, rank, c, 0, true, mapFiles(0),
                        db, ("chat", 0) in botWatch, hasPermission, ok);
    }

    /** The client once the greeting of `IDN` is sent: the message of the day when there is one, then the user count. */
    function Greeting(cl: Client): (r: Client)
      ensures r == cl.(link := cl.link.(outbox := r.link.outbox))
      ensures r.link.outbox ==
                cl.link.outbox + (if cl.link.attached then (if motd != "" then ["MSG", "MSG"] else ["MSG"]) else [])
      ensures cl.link.attached ==> LastTold(r, "MSG")
    {
      if motd != "" then Send(Send(cl, "MSG"), "MSG") else Send(cl, "MSG")
    }

    /** The messages that end an `IDN`: only the client's outbox changes, as `Greeting` says. */
    method Greet(c: ClientId)
      requires Valid() && c in clients
      modifies this`clients
      ensures Valid()
      ensures clients == old(clients)[c := Greeting(old(clients[c]))]
    {
      if motd != "" {
        Tell(c, "MSG");
      }
      Tell(c, "MSG");
    }

    /**
     * What `IDN` with payload `arg` did to client `c` from registries `cs0`
     * and `m0`, ending the loop when `flow` is `Abort`: unreadable
     * credentials and a NULL stored hash end it with nothing changed; no
     * credentials or a refused login send the client to map 0 as
     * `SentToSpawn` says; an accepted login restores the account and ends
     * the loop exactly when that leaves the client on no map. Only the
     * client and what it carries change, and an attached client that goes
     * on was last sent the greeting.
     */
    ghost predicate Identified(cs0: Clients, m0: Registry, c: ClientId, arg: Json, flow: Flow)
      reads this
    {
      var creds := ReadCredentials(arg);
      && c in cs0 && c in clients
      && ChangedWithin(cs0, clients, rank, c)
      && (creds.Unreadable? ==> flow == Abort && clients == cs0 && maps == m0)
      && (creds.NoCredentials? ==>
            flow == Continue && SentToSpawn(cs0[c], clients[c], m0, maps, c, 0, mapFiles(0), hasPermission))
      && (creds.Given? ==> LoggedInto(cs0, m0, c, filterName(filterName(creds.username)), creds.password, flow))
      && (flow == Continue && cs0[c].link.attached ==>
            LastTold(clients[c], "MSG"))
    }

    /**
     * The `IDN` outcome for the credentials `name`, `password`: a NULL stored
     * hash ends the loop with nothing changed; a refused login sends the
     * client to map 0 as `SentToSpawn` says; an accepted login restores the
     * account and ends the loop exactly when that leaves the client on no map.
     */
    ghost predicate LoggedInto(cs0: Clients, m0: Registry, c: ClientId, name: string, password: string, flow: Flow)
      reads this
    {
      var answer := LoadAnswer(db, name, password, hash);
      && c in cs0 && c in clients
      && (answer == LoadFault ==> flow == Abort && clients == cs0 && maps == m0)
      && (answer.Refusal() ==>
            flow == Continue && SentToSpawn(cs0[c], clients[c], m0, maps, c, 0, mapFiles(0), hasPermission))
      && (answer == Authenticated ==>
            && name in db.accounts
            && Restored(cs0[c], clients[c], db.accounts[name], c, hasPermission)
            && SameMapInfo(Resident(m0, db.accounts[name].mid, mapFiles(db.accounts[name].mid)), maps)
            && (flow == Abort <==> clients[c].onMap.None?))
    }

    /**
     * `IDN`: with an argument, `login` is tried on the filtered username (the
     * handler filters it and `login` filters it again); an argument without
     * both fields, or a login that raises, ends the loop. A client that did
     * not log in is switched to map 0. Then the greeting is sent. The
     * outcome is `Identified`.
     */
    method Identify(c: ClientId, arg: Json) returns (flow: Flow, loggedIn: bool)
      requires Valid() && c in clients
      modifies this`clients, this`maps
      ensures Valid()
      ensures Identified(old(clients), old(maps), c, arg, flow)
      ensures var creds := ReadCredentials(arg);
        loggedIn <==> flow == Continue && creds.Given?
                      && LoadAnswer(db, filterName(filterName(creds.username)), creds.password, hash) == Authenticated
    {
      var creds := ReadCredentials(arg);
      ghost var cs0 := clients;
      if creds.Unreadable? {
        ChangedAt(cs0, rank, c, cs0[c]);
        assert cs0[c := cs0[c]] == cs0;
        return Abort, false;
      }
      if creds.NoCredentials? {
        Settle(c, false);
        return Continue, false;
      }
      flow, loggedIn := Authenticate(c, creds.username, creds.password);
    }

    /**
     * `IDN` with credentials: `login` on the filtered username, then, unless
     * it raised, the tail of `IDN`. The outcome is `LoggedInto`.
     */
    method Authenticate(c: ClientId, username: string, password: string) returns (flow: Flow, loggedIn: bool)
      requires Valid() && c in clients
      modifies this`clients, this`maps
      ensures Valid()
      ensures LoggedInto(old(clients), old(maps), c, filterName(filterName(username)), password, flow)
      ensures ChangedWithin(old(clients), clients, rank, c)
      ensures loggedIn <==> flow == Continue && LoadAnswer(db, filterName(filterName(username)), password, hash) == Authenticated
      ensures flow == Continue && old(clients[c].link.attached) ==>
                LastTold(clients[c], "MSG")
    {
      ghost var cs0, m0 := clients, maps;
      ghost var name := filterName(filterName(username));
      ghost var answer := LoadAnswer(db, name, password, hash);
      var raised;
      raised, loggedIn := SignIn(c, filterName(username), password);
      if raised {
        assert answer == LoadFault || answer == Authenticated;
        return Abort, false;
      }
      ghost var cs1, m1 := clients, maps;
      Settle(c, loggedIn);
      ChangedWithinTransitive(cs0, cs1, clients, rank, c);
      flow := Continue;
      if answer == Authenticated {
        RestoredTold(cs0[c], cs1[c], clients[c], db.accounts[name], c, hasPermission);
      } else {
        SpawnTold(cs0[c], cs1[c], clients[c], clients[c], m0, maps, c, 0, mapFiles(0), hasPermission);
      }
    }

    /**
     * The `login` call of `IDN`, seen from the receive loop: whether it
     * raised, and whether the client is now logged in. A refused login
     * only sends an error; a NULL stored hash raises with nothing changed;
     * an accepted password restores the account and raises exactly when
     * that leaves the client on no map.
     */
    method SignIn(c: ClientId, username: string, password: string) returns (raised: bool, loggedIn: bool)
      requires Valid() && c in clients
      modifies this`clients, this`maps
      ensures Valid() && c in clients && clients[c].link.attached == old(clients[c].link.attached)
      ensures ChangedWithin(old(clients), clients, rank, c)
      ensures var answer := LoadAnswer(db, filterName(username), password, hash);
        && (loggedIn ==> !raised && answer == Authenticated)
        && (answer.Refusal() ==>
              !raised && !loggedIn && clients == old(clients)[c := Send(old(clients[c]), "ERR")] && maps == old(maps))
        && (answer == LoadFault ==> raised && !loggedIn && clients == old(clients) && maps == old(maps))
        && (answer == Authenticated ==>
              var a := db.accounts[filterName(username)];
              && loggedIn == !raised && (raised <==> clients[c].onMap.None?)
              && Restored(old(clients[c]), clients[c], a, c, hasPermission)
              && SameMapInfo(Resident(old(maps), a.mid, mapFiles(a.mid)), maps))
    {
      var outcome := Login(c, username, password);
      raised := outcome == LoginRaised;
      loggedIn := outcome == LoggedIn;
    }

    /**
     * The tail of `IDN`: a client that did not log in goes to map 0 as
     * `SentToSpawn` says, then it is greeted. Only the client and what it
     * carries change.
     */
    method Settle(c: ClientId, loggedIn: bool)
      requires Valid() && c in clients
      modifies this`clients, this`maps
      ensures Valid() && c in clients
      ensures ChangedWithin(old(clients), clients, rank, c)
      ensures loggedIn ==> maps == old(maps) && clients == old(clients)[c := Greeting(old(clients[c]))]
      ensures !loggedIn ==> SentToSpawn(old(clients[c]), clients[c], old(maps), maps, c, 0, mapFiles(0), hasPermission)
      ensures old(clients[c].link.attached) ==>
                LastTold(clients[c], "MSG")
    {
      ghost var cs0 := clients;
      if !loggedIn {
        var ok := Fallback(c);
        ghost var cs1 := clients;
        ghost var m1 := maps;
        assert SentToSpawn(cs0[c], cs1[c], old(maps), m1, c, 0, mapFiles(0), hasPermission);
        Greet(c);
        assert clients[c] == Greeting(cs1[c]);
        ChangedAt(cs1, rank, c, clients[c]);
        ChangedWithinTransitive(cs0, cs1, clients, rank, c);
      } else {
        Greet(c);
        ChangedAt(cs0, rank, c, clients[c]);
      }
    }

    /**
     * What routing a command from `c` along `route` did, from client
     * registry `cs0` and delivery log `f0`: a delivery to the chosen map, an
     * error, or an exception that ends the loop, and nothing else.
     */
    ghost predicate Dispatched(cs0: Clients, f0: seq<Delivery>, c: ClientId, code: string, arg: Json, route: Route, flow: Flow)
      reads this
    {
      && c in cs0
      && (flow == Abort <==> route.Raised?)
      && (route.ToMap? ==> forwarded == f0 + [Delivery(route.id, c, code, arg)] && clients == cs0)
      && (route.Refused? ==> forwarded == f0 && clients == cs0[c := Send(cs0[c], "ERR")])
      && (route.Raised? ==> forwarded == f0 && clients == cs0)
    }

    /**
     * A command other than `IDN` and `PIN` from a placed client: routed as
     * `RouteCommand` says, to a map's handler, refused with an error, or
     * raising, which ends the loop.
     */
    method Dispatch(c: ClientId, code: string, arg: Json) returns (flow: Flow)
      requires Valid() && c in clients
      modifies this`clients, this`forwarded
      ensures Valid()
      ensures Dispatched(old(clients), old(forwarded), c, code, arg,
                         RouteCommand(arg, c, old(clients[c].onMap), maps.Keys, hasPermission), flow)
    {
      var route := RouteCommand(arg, c, clients[c].onMap, maps.Keys, hasPermission);
      flow := Continue;
      match route
      case ToMap(m) =>
        forwarded := forwarded + [Delivery(m, c, code, arg)];
      case Refused =>
        Tell(c, "ERR");
      case Raised =>
        flow := Abort;
    }

    /**
     * One pass of the receive loop: the message is parsed; `IDN` identifies
     * the client and `PIN` resets its ping counter; a client whose map id is
     * still -1 goes no further; any other command is dispatched. A payload
     * that does not decode ends the loop. Every command handed to a map is
     * the client's own and goes to its own map or to a loaded map on which
     * it holds `map_bot`.
     */
    method Receive(c: ClientId, message: string) returns (flow: Flow)
      requires Valid() && c in clients
      modifies this`clients, this`maps, this`forwarded
      ensures Valid()
      ensures Parse(message, decode).Ignored? ==>
                flow == Continue && clients == old(clients) && maps == old(maps) && forwarded == old(forwarded)
      ensures Parse(message, decode).Undecodable? ==>
                flow == Abort && clients == old(clients) && maps == old(maps) && forwarded == old(forwarded)
      ensures Parse(message, decode).Command? && Parse(message, decode).code == "PIN" ==>
                flow == Continue && forwarded == old(forwarded) && maps == old(maps)
                && clients == old(clients)[c := old(clients[c]).(link := old(clients[c]).link.(pingTimer := PingResetValue))]
      ensures Parse(message, decode).Command? && Parse(message, decode).code == "IDN" ==>
                forwarded == old(forwarded) && Identified(old(clients), old(maps), c, Parse(message, decode).arg, flow)
      ensures Parse(message, decode).Command? && Parse(message, decode).code !in {"IDN", "PIN"} ==>
                && maps == old(maps)
                && (old(clients[c].mapId) == NoMap ==> flow == Continue && clients == old(clients) && forwarded == old(forwarded))
                && (old(clients[c].mapId) != NoMap ==>
                      Dispatched(old(clients), old(forwarded), c, Parse(message, decode).code, Parse(message, decode).arg,
                                 RouteCommand(Parse(message, decode).arg, c, old(clients[c].onMap), old(maps).Keys, hasPermission),
                                 flow))
      ensures forwarded == old(forwarded) ||
                (|forwarded| == |old(forwarded)| + 1 && forwarded[..|old(forwarded)|] == old(forwarded)
                 && var d := forwarded[|old(forwarded)|];
                 && d.code == message[..3] && d.code !in {"IDN", "PIN"} && old(clients[c].mapId) != NoMap
                 && Authorized(d, c, old(clients[c].onMap), old(maps).Keys, hasPermission))
    {
      var parsed := Parse(message, decode);
      if parsed.Ignored? {
        return Continue;
      }
      if parsed.Undecodable? {
        return Abort;
      }
      var code, arg := parsed.code, parsed.arg;
      if code == "IDN" {
        var loggedIn;
        flow, loggedIn := Identify(c, arg);
        return;
      }
      if code == "PIN" {
        Pong(c);
        return Continue;
      }
      if clients[c].mapId == NoMap {
        return Continue;
      }
      ghost var f0 := forwarded;
      flow := Dispatch(c, code, arg);
      if forwarded != f0 {
        RoutedAuthorized(arg, c, old(clients[c].onMap), maps.Keys, hasPermission, code);
        assert forwarded[..|f0|] == f0;
      }
    }

    // ---- the connection handler ----

    /**
     * The end of the connection handler: `cleanup`; `save` when the session
     * has a non-empty username; off its map; out of the registry. Afterwards
     * no client rides or carries it and no map lists it.
     */
    method Teardown(c: ClientId)
      requires Valid() && c in clients && clients[c].link.attached
      modifies this`clients, this`botWatch, this`db, this`maps
      ensures Valid()
      ensures c !in clients && clients.Keys == old(clients).Keys - {c}
      ensures maps == Left(old(maps), c, old(clients[c].onMap))
      ensures botWatch == Unwatched(old(botWatch), c, old(clients[c].listeningMaps))
      ensures var u := old(clients[c].ident.username);
        db == if u.Some? && u.value != "" then Saved(old(db), old(clients[c])) else old(db)
      ensures forall p | p in old(clients[c].mount.passengers) && p in clients :: clients[p].mount.vehicle.None?
      ensures forall u | u in clients :: clients[u].mount.vehicle != Some(c) && c !in clients[u].mount.passengers
      ensures forall m | m in maps :: c !in maps[m].users
      ensures clients == Freed(old(clients), c, old(clients[c].mount.passengers), true) - {c}
    {
      ghost var cs0 := clients;
      Retire(c);
      UnburdenedRemoved(cs0, clients, c);
      Forget(c);
      NoneRefersTo(clients, maps, c);
    }

    /** `cleanup`, then `save` when the session has a non-empty username. */
    method Retire(c: ClientId)
      requires Valid() && c in clients && clients[c].link.attached
      modifies this`clients, this`botWatch, this`db
      ensures Valid()
      ensures Unburdened(old(clients), clients, c)
      ensures botWatch == Unwatched(old(botWatch), c, old(clients[c].listeningMaps))
      ensures var u := old(clients[c].ident.username);
        db == if u.Some? && u.value != "" then Saved(old(db), old(clients[c])) else old(db)
    {
      ghost var cs0 := clients;
      Cleanup(c);
      var cl := clients[c];
      if cl.ident.username.Some? && cl.ident.username.value != "" {
        SavedSameAccount(db, cl, cs0[c]);
        SavedStillUnburdened(cs0, clients, c, cl.ident.(dbId := Some(SavedUid(db, cl.ident.username.value))));
        Save(c);
      }
    }

    /** `map.users.remove` and `AllClients.remove`: a client that rides and carries nobody leaves its map and the registry. */
    method Forget(c: ClientId)
      requires Valid() && c in clients
      requires clients[c].mount.vehicle.None? && clients[c].mount.passengers == {}
      modifies this`clients, this`maps
      ensures Valid()
      ensures clients == old(clients) - {c} && maps == Left(old(maps), c, old(clients[c].onMap))
    {
      RemovedKeepsConsistent(clients, maps, botWatch, db, rank, nextId, c);
      maps := Left(maps, c, clients[c].onMap);
      clients := clients - {c};
    }

    /** Accepting a connection: a fresh client with the next id joins the registry. */
    method Connect() returns (id: ClientId)
      requires Valid()
      modifies this`clients, this`nextId, this`rank
      ensures Valid()
      ensures id == old(nextId) && id !in old(clients) && nextId == id + 1
      ensures clients == old(clients)[id := NewClient(id)]
    {
      id := nextId;
      ConnectedKeepsConsistent(clients, maps, botWatch, db, rank, nextId);
      clients := clients[id := NewClient(id)];
      rank := rank[id := 0];
      nextId := nextId + 1;
    }
  }
}

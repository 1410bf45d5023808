/**
 * The registry of connected clients and loaded maps as one value, the
 * invariant the server keeps over it, and how each kind of update the
 * session layer makes (an edge added or cleared, a client entering a map,
 * a client leaving, a map loaded or unloaded) keeps that invariant.
 */
module World {
  import opened Wrappers
  import opened Permissions
  import opened Session
  import opened Riding
  import opened Maps
  import opened Moving
  import opened Storage
  import opened Ticks

  type Watch = map<(string, MapId), set<ClientId>>   // BotWatch[category][map]

  /** Every client is filed under its id, and ids are below the next one to hand out. */
  ghost predicate ClientsKeyed(cs: Clients, nextId: nat) {
    forall k | k in cs :: cs[k].id == k && k < nextId
  }

  /** A client that rides, and its vehicle, are on a map (`ride` and `dismount` dereference both maps). */
  ghost predicate RidersPlaced(cs: Clients) {
    forall u {:trigger cs[u].mount.vehicle} | u in cs && cs[u].mount.vehicle.Some? ::
      cs[u].onMap.Some? && (cs[u].mount.vehicle.value in cs ==> cs[cs[u].mount.vehicle.value].onMap.Some?)
  }

  lemma ListeningRegistered(cs: Clients, botWatch: Watch, c: ClientId)
    requires ListenersRegistered(cs, botWatch) && c in cs && cs[c].link.attached
    ensures forall p | p in cs[c].listeningMaps :: p in botWatch && c in botWatch[p]
  {
  }

  ghost predicate HistoryBounded(cs: Clients) {
    forall u | u in cs :: |cs[u].tpHistory| <= HistoryLimit
  }

  /** A connected client is registered with every bot-listener category it records. */
  ghost predicate ListenersRegistered(cs: Clients, botWatch: Watch) {
    forall u, p | u in cs && cs[u].link.attached && p in cs[u].listeningMaps :: p in botWatch && u in botWatch[p]
  }

  ghost predicate Consistent(cs: Clients, maps: Registry, botWatch: Watch, db: Store, rank: Rank, nextId: nat) {
    && Linked(cs) && Ranked(cs, rank)
    && ClientsKeyed(cs, nextId)
    && RidersPlaced(cs)
    && Keyed(maps) && Occupancy(cs, maps)
    && HistoryBounded(cs)
    && ListenersRegistered(cs, botWatch)
    && StoreKeyed(db)
  }

  /** Two registries agree on who is registered, where, and as which listener. */
  ghost predicate SameSeats(cs1: Clients, cs2: Clients) {
    && cs1.Keys == cs2.Keys
    && forall u | u in cs1 ::
         && cs2[u].id == cs1[u].id && cs2[u].onMap == cs1[u].onMap
         && cs2[u].link.attached == cs1[u].link.attached && cs2[u].listeningMaps == cs1[u].listeningMaps
         && |cs2[u].tpHistory| <= HistoryLimit
  }

  lemma SameSeatsKeepsSeating(cs1: Clients, cs2: Clients, maps: Registry, botWatch: Watch, nextId: nat)
    requires SameSeats(cs1, cs2)
    requires ClientsKeyed(cs1, nextId) && Occupancy(cs1, maps) && ListenersRegistered(cs1, botWatch)
    ensures ClientsKeyed(cs2, nextId) && Occupancy(cs2, maps) && ListenersRegistered(cs2, botWatch)
    ensures HistoryBounded(cs2)
  {
  }

  /** Two registries agree on everything the invariant looks at. */
  ghost predicate SameShape(cs1: Clients, cs2: Clients) {
    SameSeats(cs1, cs2) && SameRiding(cs1, cs2)
  }

  lemma SameShapeKeepsConsistent(cs1: Clients, cs2: Clients, maps: Registry, botWatch: Watch, db: Store,
                                 rank: Rank, nextId: nat)
    requires Consistent(cs1, maps, botWatch, db, rank, nextId)
    requires SameShape(cs1, cs2)
    ensures Consistent(cs2, maps, botWatch, db, rank, nextId)
  {
    SameRidingKeepsLinks(cs1, cs2, rank);
    SameSeatsKeepsSeating(cs1, cs2, maps, botWatch, nextId);
  }

  /** Changing one client in ways the invariant does not look at keeps it. */
  lemma UpdateKeepsConsistent(cs: Clients, maps: Registry, botWatch: Watch, db: Store, rank: Rank, nextId: nat,
                              c: ClientId, cl: Client)
    requires Consistent(cs, maps, botWatch, db, rank, nextId) && c in cs
    requires cl.id == cs[c].id && cl.onMap == cs[c].onMap && cl.mount == cs[c].mount
    requires cl.link.attached == cs[c].link.attached && cl.listeningMaps == cs[c].listeningMaps
    requires |cl.tpHistory| <= HistoryLimit
    ensures Consistent(cs[c := cl], maps, botWatch, db, rank, nextId)
  {
    assert SameShape(cs, cs[c := cl]);
    SameShapeKeepsConsistent(cs, cs[c := cl], maps, botWatch, db, rank, nextId);
  }

  /** Queueing a message for a client keeps the registry consistent. */
  lemma SentKeepsConsistent(cs: Clients, maps: Registry, botWatch: Watch, db: Store, rank: Rank, nextId: nat,
                            c: ClientId, msg: string)
    requires Consistent(cs, maps, botWatch, db, rank, nextId) && c in cs
    ensures Consistent(cs[c := Send(cs[c], msg)], maps, botWatch, db, rank, nextId)
  {
    UpdateKeepsConsistent(cs, maps, botWatch, db, rank, nextId, c, Send(cs[c], msg));
  }

  lemma MovedOnlySameShape(cs1: Clients, cs2: Clients)
    requires MovedOnly(cs1, cs2) && HistoryBounded(cs1)
    ensures SameShape(cs1, cs2)
  {
  }

  /** Loading a map keeps the registry consistent. */
  lemma ResidentKeepsConsistent(cs: Clients, maps: Registry, botWatch: Watch, db: Store, rank: Rank, nextId: nat,
                                id: MapId, file: MapFile)
    requires Consistent(cs, maps, botWatch, db, rank, nextId)
    ensures Consistent(cs, Resident(maps, id, file), botWatch, db, rank, nextId)
  {
    ResidentKeepsOccupancy(cs, maps, id, file);
  }

  /** Unloading the unpinned maps nobody is on keeps the registry consistent. */
  lemma UnloadedKeepsConsistent(cs: Clients, maps: Registry, botWatch: Watch, db: Store, rank: Rank, nextId: nat,
                                pinned: set<MapId>)
    requires Consistent(cs, maps, botWatch, db, rank, nextId)
    ensures Consistent(cs, Unloaded(maps, pinned), botWatch, db, rank, nextId)
  {
    UnloadedMeaning(cs, maps, pinned, 0);
  }

  /** A tick of any set of clients keeps the registry consistent. */
  lemma TickedKeepsConsistent(cs: Clients, maps: Registry, botWatch: Watch, db: Store, rank: Rank, nextId: nat,
                              done: set<ClientId>)
    requires Consistent(cs, maps, botWatch, db, rank, nextId)
    ensures Consistent(TickedSome(cs, done), maps, botWatch, db, rank, nextId)
  {
    assert SameShape(cs, TickedSome(cs, done));
    SameShapeKeepsConsistent(cs, TickedSome(cs, done), maps, botWatch, db, rank, nextId);
  }

  /** Asking any set of clients to disconnect keeps the registry consistent. */
  lemma ClosedKeepsConsistent(cs: Clients, maps: Registry, botWatch: Watch, db: Store, rank: Rank, nextId: nat,
                              done: set<ClientId>)
    requires Consistent(cs, maps, botWatch, db, rank, nextId)
    ensures Consistent(Closed(cs, done), maps, botWatch, db, rank, nextId)
  {
    assert SameShape(cs, Closed(cs, done));
    SameShapeKeepsConsistent(cs, Closed(cs, done), maps, botWatch, db, rank, nextId);
  }

  /** Saving to the account table keeps the registry consistent. */
  lemma SavedKeepsConsistent(cs: Clients, maps: Registry, botWatch: Watch, db: Store, rank: Rank, nextId: nat,
                             cl: Client)
    requires Consistent(cs, maps, botWatch, db, rank, nextId) && cl.ident.username.Some?
    ensures Consistent(cs, maps, botWatch, Saved(db, cl), rank, nextId)
  {
    SavedKeyed(db, cl);
  }

  // ---- riding edges ----

  /** The registry after `dismount` has cleared the edge from `c` to its vehicle `v` and told both. */
  function Unmounted(cs: Clients, c: ClientId, v: ClientId): Clients
    requires c in cs && v in cs
  {
    cs[c := Send(cs[c], "MSG").(mount := cs[c].mount.(vehicle := None))]
      [v := Send(cs[v], "MSG").(mount := cs[v].mount.(passengers := cs[v].mount.passengers - {c}))]
  }

  lemma UnmountedVehicles(cs: Clients, c: ClientId, v: ClientId)
    requires Linked(cs) && c in cs && cs[c].mount.vehicle == Some(v) && c != v
    ensures var r := Unmounted(cs, c, v);
      forall u {:trigger r[u].mount.vehicle} | u in r && r[u].mount.vehicle.Some? ::
        r[u].mount.vehicle.value in r && u in r[r[u].mount.vehicle.value].mount.passengers
  {
    var r := Unmounted(cs, c, v);
    forall u | u in r && r[u].mount.vehicle.Some?
      ensures r[u].mount.vehicle.value in r && u in r[r[u].mount.vehicle.value].mount.passengers
    {
      var w := cs[u].mount.vehicle.value;
      assert u != c && r[u].mount.vehicle == Some(w) && u in cs[w].mount.passengers;
      assert r[w].mount.passengers == if w == v then cs[w].mount.passengers - {c} else cs[w].mount.passengers;
    }
  }

  lemma UnmountedPassengers(cs: Clients, c: ClientId, v: ClientId)
    requires Linked(cs) && c in cs && cs[c].mount.vehicle == Some(v) && c != v
    ensures var r := Unmounted(cs, c, v);
      forall w, u | w in r && u in r[w].mount.passengers :: u in r && r[u].mount.vehicle == Some(w)
  {
    var r := Unmounted(cs, c, v);
    forall w, u | w in r && u in r[w].mount.passengers
      ensures u in r && r[u].mount.vehicle == Some(w)
    {
      assert u in cs[w].mount.passengers && (u == c ==> w != v);
    }
  }

  /** Clearing one edge on both sides keeps the riding graph linked. */
  lemma UnmountedLinked(cs: Clients, c: ClientId, v: ClientId)
    requires Linked(cs) && c in cs && cs[c].mount.vehicle == Some(v) && c != v
    ensures Linked(Unmounted(cs, c, v))
  {
    UnmountedVehicles(cs, c, v);
    UnmountedPassengers(cs, c, v);
  }

  lemma UnmountedRanked(cs: Clients, rank: Rank, c: ClientId, v: ClientId)
    requires Linked(cs) && Ranked(cs, rank) && c in cs && cs[c].mount.vehicle == Some(v)
    ensures c != v && Ranked(Unmounted(cs, c, v), rank)
  {
    assert c in cs[v].mount.passengers;
  }

  lemma UnmountedPlaced(cs: Clients, c: ClientId, v: ClientId)
    requires RidersPlaced(cs) && c in cs && v in cs
    ensures RidersPlaced(Unmounted(cs, c, v))
  {
  }

  lemma UnmountedSeats(cs: Clients, c: ClientId, v: ClientId)
    requires c in cs && v in cs && HistoryBounded(cs)
    ensures SameSeats(cs, Unmounted(cs, c, v))
  {
  }

  lemma UnmountedKeepsConsistent(cs: Clients, maps: Registry, botWatch: Watch, db: Store, rank: Rank, nextId: nat,
                                 c: ClientId, v: ClientId)
    requires Consistent(cs, maps, botWatch, db, rank, nextId) && c in cs && cs[c].mount.vehicle == Some(v)
    ensures c != v && v in cs && Consistent(Unmounted(cs, c, v), maps, botWatch, db, rank, nextId)
  {
    UnmountedRanked(cs, rank, c, v);
    UnmountedLinked(cs, c, v);
    UnmountedPlaced(cs, c, v);
    UnmountedSeats(cs, c, v);
    SameSeatsKeepsSeating(cs, Unmounted(cs, c, v), maps, botWatch, nextId);
  }

  /** The registry after `ride` has recorded the edge from `c` to `v` on both sides. */
  function Mounted(cs: Clients, c: ClientId, v: ClientId): Clients
    requires c in cs && v in cs
  {
    cs[c := cs[c].(mount := cs[c].mount.(vehicle := Some(v)))]
      [v := cs[v].(mount := cs[v].mount.(passengers := cs[v].mount.passengers + {c}))]
  }

  /** The ranks after `c` starts riding: everyone moves up one and `c`, which carries nobody, goes to the bottom. */
  function Lowered(rank: Rank, c: ClientId): (r: Rank)
    ensures r.Keys == rank.Keys + {c} && r[c] == 0
    ensures forall k | k in rank && k != c :: r[k] == rank[k] + 1
  {
    (map k | k in rank :: rank[k] + 1)[c := 0]
  }

  lemma MountedVehicles(cs: Clients, c: ClientId, v: ClientId)
    requires Linked(cs) && c in cs && v in cs && c != v && cs[c].mount.vehicle.None?
    ensures var r := Mounted(cs, c, v);
      forall u {:trigger r[u].mount.vehicle} | u in r && r[u].mount.vehicle.Some? ::
        r[u].mount.vehicle.value in r && u in r[r[u].mount.vehicle.value].mount.passengers
  {
    var r := Mounted(cs, c, v);
    forall u | u in r && r[u].mount.vehicle.Some?
      ensures r[u].mount.vehicle.value in r && u in r[r[u].mount.vehicle.value].mount.passengers
    {
      if u != c {
        var w := cs[u].mount.vehicle.value;
        assert r[u].mount.vehicle == Some(w) && u in cs[w].mount.passengers;
        assert cs[w].mount.passengers <= r[w].mount.passengers;
      }
    }
  }

  lemma MountedPassengers(cs: Clients, c: ClientId, v: ClientId)
    requires Linked(cs) && c in cs && v in cs && c != v && cs[c].mount.vehicle.None?
    ensures var r := Mounted(cs, c, v);
      forall w, u | w in r && u in r[w].mount.passengers :: u in r && r[u].mount.vehicle == Some(w)
  {
    var r := Mounted(cs, c, v);
    forall w, u | w in r && u in r[w].mount.passengers
      ensures u in r && r[u].mount.vehicle == Some(w)
    {
      if u != c {
        assert u in cs[w].mount.passengers;
      }
    }
  }

  lemma MountedRanked(cs: Clients, rank: Rank, c: ClientId, v: ClientId)
    requires Ranked(cs, rank) && c in cs && v in cs && c != v && cs[c].mount.passengers == {}
    ensures Ranked(Mounted(cs, c, v), Lowered(rank, c))
  {
    var r := Mounted(cs, c, v);
    var lo := Lowered(rank, c);
    forall w, u | w in r && u in r[w].mount.passengers
      ensures u in lo && lo[u] < lo[w]
    {
      if u != c {
        assert u in cs[w].mount.passengers;
      }
    }
  }

  lemma MountedPlaced(cs: Clients, c: ClientId, v: ClientId)
    requires RidersPlaced(cs) && c in cs && v in cs && cs[c].onMap.Some? && cs[v].onMap.Some?
    ensures RidersPlaced(Mounted(cs, c, v))
  {
  }

  lemma MountedSeats(cs: Clients, c: ClientId, v: ClientId)
    requires c in cs && v in cs && HistoryBounded(cs)
    ensures SameSeats(cs, Mounted(cs, c, v))
  {
  }

  /** Recording one new edge on both sides keeps the riding graph linked. */
  lemma MountedLinked(cs: Clients, c: ClientId, v: ClientId)
    requires Linked(cs) && c in cs && v in cs && c != v && cs[c].mount.vehicle.None?
    ensures Linked(Mounted(cs, c, v))
  {
    MountedVehicles(cs, c, v);
    MountedPassengers(cs, c, v);
  }

  lemma MountedKeepsConsistent(cs: Clients, maps: Registry, botWatch: Watch, db: Store, rank: Rank, nextId: nat,
                               c: ClientId, v: ClientId)
    requires Consistent(cs, maps, botWatch, db, rank, nextId) && c in cs && v in cs && c != v
    requires cs[c].mount.vehicle.None? && cs[c].mount.passengers == {}
    requires cs[c].onMap.Some? && cs[v].onMap.Some?
    ensures Consistent(Mounted(cs, c, v), maps, botWatch, db, Lowered(rank, c), nextId)
  {
    MountedLinked(cs, c, v);
    MountedRanked(cs, rank, c, v);
    MountedPlaced(cs, c, v);
    MountedSeats(cs, c, v);
    SameSeatsKeepsSeating(cs, Mounted(cs, c, v), maps, botWatch, nextId);
  }
  /** The messages of `ride` to both parties, then the new edge, keep the registry consistent. */
  lemma BoardedKeepsConsistent(cs: Clients, maps: Registry, botWatch: Watch, db: Store, rank: Rank, nextId: nat,
                               c: ClientId, v: ClientId)
    requires Consistent(cs, maps, botWatch, db, rank, nextId) && c in cs && v in cs && c != v
    requires cs[c].mount.vehicle.None? && cs[c].mount.passengers == {}
    requires cs[c].onMap.Some? && cs[v].onMap.Some?
    ensures var cs1: Clients := cs[c := Send(cs[c], "MSG")];
      Consistent(Mounted(cs1[v := Send(cs1[v], "MSG")], c, v), maps, botWatch, db, Lowered(rank, c), nextId)
  {
    SentKeepsConsistent(cs, maps, botWatch, db, rank, nextId, c, "MSG");
    var cs1: Clients := cs[c := Send(cs[c], "MSG")];
    SentKeepsConsistent(cs1, maps, botWatch, db, rank, nextId, v, "MSG");
    MountedKeepsConsistent(cs1[v := Send(cs1[v], "MSG")], maps, botWatch, db, rank, nextId, c, v);
  }


  // ---- entering and leaving maps ----

  /** The registry with `c` taken off the users of map `from`, if it names a loaded map. */
  function Left(maps: Registry, c: ClientId, from: Option<MapId>): (r: Registry)
    ensures r.Keys == maps.Keys
  {
    if from.Some? && from.value in maps then maps[from.value := maps[from.value].(users := maps[from.value].users - {c})]
    else maps
  }

  /** The registry with `c` added to the users of map `to`. */
  function Joined(maps: Registry, c: ClientId, to: MapId): (r: Registry)
    requires to in maps
    ensures r.Keys == maps.Keys
  {
    maps[to := maps[to].(users := maps[to].users + {c})]
  }

  /** Who is on which loaded map stays in step when `c` moves onto the loaded map `target`. */
  lemma EnterOccupancy(cs: Clients, maps: Registry, c: ClientId, cl: Client, target: MapId)
    requires Keyed(maps) && Occupancy(cs, maps) && c in cs && target in maps && cl.onMap == Some(target)
    ensures Keyed(Joined(Left(maps, c, cs[c].onMap), c, target))
    ensures Occupancy(cs[c := cl], Joined(Left(maps, c, cs[c].onMap), c, target))
  {
    var r := cs[c := cl];
    var ms := Joined(Left(maps, c, cs[c].onMap), c, target);
    forall m, u | m in ms && u in ms[m].users
      ensures u in r && r[u].onMap == Some(m)
    {
      if u != c {
        assert u in maps[m].users;
      }
    }
  }

  lemma EnterPlaced(cs: Clients, c: ClientId, cl: Client)
    requires RidersPlaced(cs) && c in cs && cl.mount == cs[c].mount && cl.onMap.Some?
    ensures RidersPlaced(cs[c := cl])
  {
  }

  /** Moving `c` from its map onto the loaded map `target` keeps the registry consistent. */
  lemma EnterKeepsConsistent(cs: Clients, maps: Registry, botWatch: Watch, db: Store, rank: Rank, nextId: nat,
                             c: ClientId, cl: Client, target: MapId)
    requires Consistent(cs, maps, botWatch, db, rank, nextId) && c in cs && target in maps
    requires cl.id == c && cl.mount == cs[c].mount && cl.onMap == Some(target)
    requires cl.link.attached == cs[c].link.attached && cl.listeningMaps == cs[c].listeningMaps
    requires |cl.tpHistory| <= HistoryLimit
    ensures Consistent(cs[c := cl], Joined(Left(maps, c, cs[c].onMap), c, target), botWatch, db, rank, nextId)
  {
    assert SameRiding(cs, cs[c := cl]);
    SameRidingKeepsLinks(cs, cs[c := cl], rank);
    EnterOccupancy(cs, maps, c, cl, target);
    EnterPlaced(cs, c, cl);
  }

  lemma RemovedLinked(cs: Clients, c: ClientId)
    requires Linked(cs) && c in cs && cs[c].mount.vehicle.None? && cs[c].mount.passengers == {}
    ensures Linked(cs - {c})
  {
    var r := cs - {c};
    forall u | u in r && r[u].mount.vehicle.Some?
      ensures r[u].mount.vehicle.value in r && u in r[r[u].mount.vehicle.value].mount.passengers
    {
      assert u in cs[cs[u].mount.vehicle.value].mount.passengers;
    }
    forall v, u | v in r && u in r[v].mount.passengers
      ensures u in r && r[u].mount.vehicle == Some(v)
    {
      assert cs[u].mount.vehicle == Some(v);
    }
  }

  lemma RemovedRanked(cs: Clients, rank: Rank, c: ClientId)
    requires Ranked(cs, rank)
    ensures Ranked(cs - {c}, rank)
  {
  }

  lemma RemovedOccupancy(cs: Clients, maps: Registry, c: ClientId)
    requires Keyed(maps) && Occupancy(cs, maps) && c in cs
    ensures Keyed(Left(maps, c, cs[c].onMap)) && Occupancy(cs - {c}, Left(maps, c, cs[c].onMap))
  {
    var r := cs - {c};
    var ms := Left(maps, c, cs[c].onMap);
    forall m, u | m in ms && u in ms[m].users
      ensures u in r && r[u].onMap == Some(m)
    {
      assert u in maps[m].users;
    }
  }

  lemma RemovedSeating(cs: Clients, botWatch: Watch, nextId: nat, c: ClientId)
    requires ClientsKeyed(cs, nextId) && RidersPlaced(cs) && HistoryBounded(cs) && ListenersRegistered(cs, botWatch)
    ensures ClientsKeyed(cs - {c}, nextId) && RidersPlaced(cs - {c}) && HistoryBounded(cs - {c})
    ensures ListenersRegistered(cs - {c}, botWatch)
  {
  }

  /** Taking `c`, which rides nobody and carries nobody, off its map and out of the registry keeps it consistent. */
  lemma RemovedKeepsConsistent(cs: Clients, maps: Registry, botWatch: Watch, db: Store, rank: Rank, nextId: nat,
                               c: ClientId)
    requires Consistent(cs, maps, botWatch, db, rank, nextId) && c in cs
    requires cs[c].mount.vehicle.None? && cs[c].mount.passengers == {}
    ensures Consistent(cs - {c}, Left(maps, c, cs[c].onMap), botWatch, db, rank, nextId)
  {
    RemovedLinked(cs, c);
    RemovedRanked(cs, rank, c);
    RemovedOccupancy(cs, maps, c);
    RemovedSeating(cs, botWatch, nextId, c);
  }

  /** Once `c` is out of a consistent registry, no client rides or carries it and no map lists it. */
  lemma NoneRefersTo(cs: Clients, maps: Registry, c: ClientId)
    requires Linked(cs) && Occupancy(cs, maps) && c !in cs
    ensures forall u | u in cs :: cs[u].mount.vehicle != Some(c) && c !in cs[u].mount.passengers
    ensures forall m | m in maps :: c !in maps[m].users
  {
  }

  lemma ConnectedLinked(cs: Clients, n: ClientId)
    requires Linked(cs) && n !in cs
    ensures Linked(cs[n := NewClient(n)])
  {
    var r := cs[n := NewClient(n)];
    forall u | u in r && r[u].mount.vehicle.Some?
      ensures r[u].mount.vehicle.value in r && u in r[r[u].mount.vehicle.value].mount.passengers
    {
      assert u in cs;
    }
    forall v, u | v in r && u in r[v].mount.passengers
      ensures u in r && r[u].mount.vehicle == Some(v)
    {
      assert v in cs;
    }
  }

  lemma ConnectedRanked(cs: Clients, rank: Rank, n: ClientId)
    requires Linked(cs) && Ranked(cs, rank) && n !in cs
    ensures Ranked(cs[n := NewClient(n)], rank[n := 0])
  {
    var r := cs[n := NewClient(n)];
    forall v, u | v in r && u in r[v].mount.passengers
      ensures u in rank[n := 0] && rank[n := 0][u] < rank[n := 0][v]
    {
      assert v in cs && u in cs;
    }
  }

  lemma ConnectedSeating(cs: Clients, maps: Registry, botWatch: Watch, nextId: nat)
    requires ClientsKeyed(cs, nextId) && RidersPlaced(cs) && Occupancy(cs, maps) && HistoryBounded(cs)
    requires ListenersRegistered(cs, botWatch) && Linked(cs)
    ensures nextId !in cs
    ensures var r := cs[nextId := NewClient(nextId)];
      ClientsKeyed(r, nextId + 1) && RidersPlaced(r) && Occupancy(r, maps) && HistoryBounded(r)
      && ListenersRegistered(r, botWatch)
  {
    var r := cs[nextId := NewClient(nextId)];
    forall m, u | m in maps && u in maps[m].users
      ensures u in r && r[u].onMap == Some(m)
    {
      assert u in cs;
    }
  }

  /** A new connection, with the next id, keeps the registry consistent. */
  lemma ConnectedKeepsConsistent(cs: Clients, maps: Registry, botWatch: Watch, db: Store, rank: Rank, nextId: nat)
    requires Consistent(cs, maps, botWatch, db, rank, nextId)
    ensures nextId !in cs
    ensures Consistent(cs[nextId := NewClient(nextId)], maps, botWatch, db, rank[nextId := 0], nextId + 1)
  {
    ConnectedSeating(cs, maps, botWatch, nextId);
    ConnectedLinked(cs, nextId);
    ConnectedRanked(cs, rank, nextId);
  }

  // ---- connection teardown ----

  lemma DetachedSeating(cs: Clients, maps: Registry, botWatch: Watch, nextId: nat, c: ClientId)
    requires ClientsKeyed(cs, nextId) && RidersPlaced(cs) && Occupancy(cs, maps) && HistoryBounded(cs)
    requires ListenersRegistered(cs, botWatch) && c in cs
    ensures var r := cs[c := cs[c].(link := cs[c].link.(attached := false))];
      ClientsKeyed(r, nextId) && RidersPlaced(r) && Occupancy(r, maps) && HistoryBounded(r)
      && ListenersRegistered(r, botWatch)
  {
  }

  /** Dropping `c`'s socket reference keeps the registry consistent. */
  lemma DetachedKeepsConsistent(cs: Clients, maps: Registry, botWatch: Watch, db: Store, rank: Rank, nextId: nat,
                                c: ClientId)
    requires Consistent(cs, maps, botWatch, db, rank, nextId) && c in cs
    ensures Consistent(cs[c := cs[c].(link := cs[c].link.(attached := false))], maps, botWatch, db, rank, nextId)
  {
    var r := cs[c := cs[c].(link := cs[c].link.(attached := false))];
    assert SameRiding(cs, r);
    SameRidingKeepsLinks(cs, r, rank);
    DetachedSeating(cs, maps, botWatch, nextId, c);
  }

  /** Removing a detached client from one listener set keeps the registry consistent. */
  lemma UnwatchedKeepsConsistent(cs: Clients, maps: Registry, botWatch: Watch, db: Store, rank: Rank, nextId: nat,
                                 c: ClientId, p: (string, MapId))
    requires Consistent(cs, maps, botWatch, db, rank, nextId) && c in cs && !cs[c].link.attached && p in botWatch
    ensures Consistent(cs, maps, botWatch[p := botWatch[p] - {c}], db, rank, nextId)
  {
  }
}

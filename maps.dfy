/**
 * The loaded-map registry as seen by the session layer: each map has an id,
 * the set of clients on it, a spawn point and an owner. Map contents, map
 * files and the map's own permission logic are not part of this model.
 */
module Maps {
  import opened Wrappers
  import opened Session

  datatype GameMap = GameMap(id: MapId, users: set<ClientId>, startPos: (int, int), owner: Option<nat>)

  /** What the map loader supplies for a map id that is not resident. */
  datatype MapFile = MapFile(startPos: (int, int), owner: Option<nat>)

  type Registry = map<MapId, GameMap>

  /**
   * Proof device, not a model entity: a map id as the registry loops
   * enumerate them. The constraint holds for every integer, so this is
   * `MapId` under another name; an id picked with `:|` out of a non-empty
   * `set<int>` leaves the verifier without a term for the witness (and a
   * spurious contradictory-assumption report), which this constraint supplies.
   */
  type Listed = k: MapId | -k <= k || k <= -k

  /** Each loaded map is filed under its own id. */
  ghost predicate Keyed(maps: Registry) {
    forall k | k in maps :: maps[k].id == k
  }

  /**
   * A client's map is loaded and lists it as a user, and every user of a
   * loaded map is a registered client that is on that map.
   */
  ghost predicate Occupancy(cs: map<ClientId, Client>, maps: Registry) {
    && (forall u | u in cs && cs[u].onMap.Some? :: cs[u].onMap.value in maps && u in maps[cs[u].onMap.value].users)
    && (forall m, u | m in maps && u in maps[m].users :: u in cs && cs[u].onMap == Some(m))
  }

  /** `getMapById`: the registry after making `id` resident (a newly loaded map has no users). */
  function Resident(maps: Registry, id: MapId, file: MapFile): (r: Registry)
    ensures id in r && r.Keys == maps.Keys + {id}
    ensures forall k | k in maps :: r[k] == maps[k]
    ensures id !in maps ==> r[id].users == {} && r[id].id == id
  {
    if id in maps then maps else maps[id := GameMap(id, {}, file.startPos, file.owner)]
  }

  /** Loading a map no client is on keeps the registry consistent. */
  lemma ResidentKeepsOccupancy(cs: map<ClientId, Client>, maps: Registry, id: MapId, file: MapFile)
    requires Keyed(maps) && Occupancy(cs, maps)
    ensures Keyed(Resident(maps, id, file)) && Occupancy(cs, Resident(maps, id, file))
  {
  }

  /** The maps that stay loaded after a tick: the pinned ones and those with users. */
  function Unloaded(maps: Registry, pinned: set<MapId>): (r: Registry)
    ensures r.Keys <= maps.Keys
    ensures forall k | k in r :: r[k] == maps[k]
  {
    map k | k in maps && (maps[k].id in pinned || |maps[k].users| >= 1) :: maps[k]
  }

  /**
   * Unloading removes exactly the unpinned maps nobody is on, so every
   * client's map stays loaded and the registry stays consistent.
   */
  lemma UnloadedMeaning(cs: map<ClientId, Client>, maps: Registry, pinned: set<MapId>, k: MapId)
    requires Keyed(maps) && Occupancy(cs, maps)
    ensures k in Unloaded(maps, pinned) <==> k in maps && (k in pinned || maps[k].users != {})
    ensures Keyed(Unloaded(maps, pinned)) && Occupancy(cs, Unloaded(maps, pinned))
  {
    if k in maps && maps[k].users != {} {
      var u :| u in maps[k].users;
      assert |maps[k].users| >= 1;
    }
    var r := Unloaded(maps, pinned);
    forall u | u in cs && cs[u].onMap.Some?
      ensures cs[u].onMap.value in r
    {
      var m := cs[u].onMap.value;
      assert u in maps[m].users;
      assert |maps[m].users| >= 1;
    }
  }

  /** The maps among `keys` that a tick unloads: not pinned and with no users. */
  function Idle(maps: Registry, pinned: set<MapId>, keys: set<MapId>): (r: set<MapId>)
    ensures r <= keys
  {
    set k | k in keys && k in maps && maps[k].id !in pinned && |maps[k].users| < 1
  }

  /** Removing every idle map leaves what `Unloaded` keeps, and the idle maps are exactly the ones dropped. */
  lemma IdleRemoved(maps: Registry, pinned: set<MapId>)
    ensures maps - Idle(maps, pinned, maps.Keys) == Unloaded(maps, pinned)
    ensures Idle(maps, pinned, maps.Keys) == maps.Keys - Unloaded(maps, pinned).Keys
  {
  }

  lemma IdleStep(maps: Registry, pinned: set<MapId>, done: set<MapId>, k: MapId)
    requires k in maps && k !in done
    ensures Idle(maps, pinned, done + {k}) ==
              Idle(maps, pinned, done) + (if maps[k].id !in pinned && |maps[k].users| < 1 then {k} else {})
    ensures k !in Idle(maps, pinned, done)
  {
  }
}

/**
 * What `ride` does to the riding graph, stated over registry values: the
 * rider is first unburdened (it leaves its vehicle and lets out its
 * passengers), then the new edge is recorded and the rider switches to its
 * vehicle's map and position.
 */
module Rides {
  import opened Wrappers
  import opened Permissions
  import opened Session
  import opened Riding
  import opened Maps
  import opened World
  import opened Switching
  import opened Release
  import opened Storage

  /** Where a client is: the map it is on, its map id and its position. */
  function Spot(cl: Client): (Option<MapId>, MapId, int, int) {
    (cl.onMap, cl.mapId, cl.x, cl.y)
  }

  /**
   * Everyone but `c` once `c` has let out the passengers in `out` and, when
   * `alighted`, left its vehicle: each let-out passenger is `Dropped`, the
   * former vehicle was told and no longer lists `c`, and nobody else changed.
   */
  function Freed(cs: Clients, c: ClientId, out: set<ClientId>, alighted: bool): (r: Clients)
    requires c in cs
    ensures r.Keys == cs.Keys
  {
    map u | u in cs :: FreedEntry(cs, c, out, alighted, u)
  }

  /** The entry of `u` in `Freed(cs, c, out, alighted)`. */
  function FreedEntry(cs: Clients, c: ClientId, out: set<ClientId>, alighted: bool, u: ClientId): Client
    requires c in cs && u in cs
  {
    if u in out then Dropped(cs[u])
    else if alighted && cs[c].mount.vehicle == Some(u) then
      Send(cs[u], "MSG").(mount := cs[u].mount.(passengers := cs[u].mount.passengers - {c}))
    else cs[u]
  }

  /**
   * From `cs0` to `cs`, `c` has left its vehicle (which no longer lists it)
   * but still carries its passengers; nobody moved, and nobody but `c` and
   * its former vehicle changed.
   */
  ghost predicate Dismounted(cs0: Clients, cs: Clients, c: ClientId) {
    && c in cs0 && c in cs && cs.Keys == cs0.Keys
    && cs[c].mount.vehicle.None? && cs[c].mount.passengers == cs0[c].mount.passengers
    && (cs0[c].mount.vehicle.Some? ==>
          cs0[c].mount.vehicle.value in cs && c !in cs[cs0[c].mount.vehicle.value].mount.passengers)
    && (forall u | u in cs0 :: Spot(cs[u]) == Spot(cs0[u]))
    && forall u | u in cs0 && u != c :: cs[u] == FreedEntry(cs0, c, {}, true, u)
  }

  /**
   * From `cs0` to `cs`, `c` has left its vehicle and let out every passenger:
   * it rides nothing and carries nobody, its former vehicle no longer lists
   * it, its former passengers ride nothing, and nobody moved; everyone but
   * `c` is as `Freed` says, so each former passenger and the former vehicle
   * were told once and nobody else changed.
   */
  ghost predicate Unburdened(cs0: Clients, cs: Clients, c: ClientId) {
    && c in cs0 && c in cs && cs.Keys == cs0.Keys && c !in cs0[c].mount.passengers
    && cs[c].mount.vehicle.None? && cs[c].mount.passengers == {}
    && (forall p | p in cs0[c].mount.passengers :: p in cs && cs[p].mount.vehicle.None?)
    && (cs0[c].mount.vehicle.Some? ==>
          cs0[c].mount.vehicle.value in cs && c !in cs[cs0[c].mount.vehicle.value].mount.passengers)
    && (forall u | u in cs0 :: Spot(cs[u]) == Spot(cs0[u]))
    && forall u | u in cs0 && u != c :: cs[u] == FreedEntry(cs0, c, cs0[c].mount.passengers, true, u)
  }

  /** What the rider is told while `ride` unburdens it: leaving its vehicle, letting out its passengers, and once per passenger. */
  function UnburdenNotes(cl: Client): (r: seq<string>)
    ensures !cl.link.attached ==> r == []
    ensures cl.link.attached ==> |r| == (if cl.mount.vehicle.Some? then 1 else 0)
                                        + (if cl.mount.passengers != {} then 1 + |cl.mount.passengers| else 0)
  {
    if !cl.link.attached then []
    else (if cl.mount.vehicle.Some? then ["MSG"] else [])
         + (if cl.mount.passengers != {} then ["MSG"] + Repeated("MSG", |cl.mount.passengers|) else [])
  }

  /** The rider once `ride` has unburdened it: it rides nothing, carries nobody and was told `UnburdenNotes`. */
  function UnburdenedRider(cl: Client): Client {
    cl.(mount := cl.mount.(vehicle := None, passengers := {}),
        link := cl.link.(outbox := cl.link.outbox + UnburdenNotes(cl)))
  }

  /** Once an unburdened client is removed, the registry is exactly what `Freed` says of everyone else. */
  lemma UnburdenedRemoved(cs0: Clients, cs: Clients, c: ClientId)
    requires Unburdened(cs0, cs, c)
    ensures cs - {c} == Freed(cs0, c, cs0[c].mount.passengers, true) - {c}
  {
    var f := Freed(cs0, c, cs0[c].mount.passengers, true);
    assert (cs - {c}).Keys == (f - {c}).Keys;
    forall u | u in cs - {c}
      ensures (cs - {c})[u] == (f - {c})[u]
    {
      assert cs[u] == FreedEntry(cs0, c, cs0[c].mount.passengers, true, u);
    }
  }

  /** Recording a row id on the unburdened client keeps it unburdened. */
  lemma SavedStillUnburdened(cs0: Clients, cs1: Clients, c: ClientId, id: Identity)
    requires Unburdened(cs0, cs1, c)
    ensures Unburdened(cs0, cs1[c := cs1[c].(ident := id)], c)
  {
  }

  lemma DismountedStart(cs0: Clients, c: ClientId)
    requires c in cs0 && cs0[c].mount.vehicle.None?
    ensures Dismounted(cs0, cs0, c)
  {
  }

  /** `dismount` of a riding client is what `Dismounted` says. */
  lemma UnmountedDismounts(cs0: Clients, c: ClientId, v: ClientId)
    requires c in cs0 && v in cs0 && c != v && cs0[c].mount.vehicle == Some(v)
    ensures Dismounted(cs0, Unmounted(cs0, c, v), c)
  {
  }

  /** A dismounted client without passengers is unburdened. */
  lemma DismountedUnburdened(cs0: Clients, cs: Clients, c: ClientId)
    requires Dismounted(cs0, cs, c) && cs[c].mount.passengers == {}
    ensures Unburdened(cs0, cs, c)
  {
  }

  /** Telling a dismounted client and then letting out its passengers unburdens it. */
  lemma LetOutUnburdens(cs0: Clients, cs1: Clients, c: ClientId)
    requires Dismounted(cs0, cs1, c) && c !in cs0[c].mount.passengers && Linked(cs0)
    requires cs0[c].mount.vehicle.None? || cs0[c].mount.vehicle.value !in cs0[c].mount.passengers
    ensures var cs2 := cs1[c := Send(cs1[c], "MSG")];
      Unburdened(cs0, LetOut(cs2, c, cs2[c].mount.passengers), c)
  {
    var cs2 := cs1[c := Send(cs1[c], "MSG")];
    assert Dismounted(cs0, cs2, c);
    LetOutAfterDismounted(cs0, cs2, c);
  }

  lemma LetOutAfterDismounted(cs0: Clients, cs1: Clients, c: ClientId)
    requires Dismounted(cs0, cs1, c) && c !in cs0[c].mount.passengers && Linked(cs0)
    requires cs0[c].mount.vehicle.None? || cs0[c].mount.vehicle.value !in cs0[c].mount.passengers
    ensures Unburdened(cs0, LetOut(cs1, c, cs1[c].mount.passengers), c)
  {
    LetOutMeaning(cs1, c);
    var r := LetOut(cs1, c, cs1[c].mount.passengers);
    forall u | u in cs0 && u != c
      ensures r[u] == FreedEntry(cs0, c, cs0[c].mount.passengers, true, u)
    {
      assert cs1[u] == FreedEntry(cs0, c, {}, true, u);
    }
    FreedMeaning(cs0, r, c);
  }

  /**
   * The rider's own record through `ride`'s unburdening: it is told when it
   * leaves its vehicle, told again before letting out its passengers, and
   * once per passenger let out; it ends as `UnburdenedRider` says.
   */
  lemma UnburdenedRiderSteps(cl: Client)
    ensures var cl1 := if cl.mount.vehicle.Some? then Send(cl, "MSG").(mount := cl.mount.(vehicle := None)) else cl;
      && (cl.mount.passengers != {} ==> Released(Send(cl1, "MSG"), cl1.mount.passengers) == UnburdenedRider(cl))
      && (cl.mount.passengers == {} ==> cl1 == UnburdenedRider(cl))
  {
    var cl1 := if cl.mount.vehicle.Some? then Send(cl, "MSG").(mount := cl.mount.(vehicle := None)) else cl;
    if cl.mount.passengers != {} && cl.link.attached {
      var n := UnburdenNotes(cl);
      assert Released(Send(cl1, "MSG"), cl1.mount.passengers).link.outbox == cl.link.outbox + n;
    }
  }

  /** The vehicle once `c` gets on: it is told, and it lists `c` among its passengers. */
  function TookOn(cl: Client, c: ClientId): (r: Client)
    ensures r.mount.passengers == cl.mount.passengers + {c}
  {
    Send(cl, "MSG").(mount := cl.mount.(passengers := cl.mount.passengers + {c}))
  }

  /** The rider once boarded: unburdened, told, and riding `other`. */
  function BoardedRider(cl: Client, other: ClientId): (r: Client)
    ensures r.mount.vehicle == Some(other) && r.mount.passengers == {}
    ensures r.onMap == cl.onMap && r.mapId == cl.mapId && r.x == cl.x && r.y == cl.y && r.ident == cl.ident
  {
    var u := UnburdenedRider(cl);
    Send(u, "MSG").(mount := u.mount.(vehicle := Some(other)))
  }

  /**
   * Just before the switch of `ride`: `c` rides `other`, both sides record
   * it, `c` carries nobody, its former passengers ride nothing, its former
   * vehicle (unless it is `other`) no longer lists it, and neither party
   * moved; the rider is as `BoardedRider` says, `other` took `c` on and
   * everyone else is as `Freed` says.
   */
  ghost predicate Boarded(cs0: Clients, cs: Clients, c: ClientId, other: ClientId) {
    && c in cs0 && other in cs0 && c in cs && other in cs && cs.Keys == cs0.Keys
    && cs[c] == BoardedRider(cs0[c], other)
    && cs[c].mount.vehicle == Some(other) && cs[c].mount.passengers == {} && c in cs[other].mount.passengers
    && (forall p | p in cs0[c].mount.passengers :: p in cs && cs[p].mount.vehicle.None?)
    && (cs0[c].mount.vehicle.Some? && cs0[c].mount.vehicle.value != other ==>
          cs0[c].mount.vehicle.value in cs && c !in cs[cs0[c].mount.vehicle.value].mount.passengers)
    && Spot(cs[c]) == Spot(cs0[c]) && Spot(cs[other]) == Spot(cs0[other])
    && cs[other] == TookOn(FreedEntry(cs0, c, cs0[c].mount.passengers, true, other), c)
    && forall u | u in cs0 && u != c && u != other :: cs[u] == FreedEntry(cs0, c, cs0[c].mount.passengers, true, u)
  }

  /** The messages and the new edge after unburdening give `Boarded`. */
  lemma BoardedAfter(cs0: Clients, cs1: Clients, c: ClientId, other: ClientId)
    requires Unburdened(cs0, cs1, c) && other in cs0 && c != other && cs1[c] == UnburdenedRider(cs0[c])
    ensures var cs2: Clients := cs1[c := Send(cs1[c], "MSG")];
      Boarded(cs0, Mounted(cs2[other := Send(cs2[other], "MSG")], c, other), c, other)
  {
    var cs2: Clients := cs1[c := Send(cs1[c], "MSG")];
    var r := Mounted(cs2[other := Send(cs2[other], "MSG")], c, other);
    assert r[c] == BoardedRider(cs0[c], other);
    assert r[other] == TookOn(cs1[other], c);
    forall u | u in cs0 && u != c && u != other
      ensures r[u] == FreedEntry(cs0, c, cs0[c].mount.passengers, true, u)
    {
      assert r[u] == cs1[u];
    }
    forall p | p in cs0[c].mount.passengers
      ensures p in r && r[p].mount.vehicle.None?
    {
      assert r[p].mount.vehicle == cs1[p].mount.vehicle;
    }
    if cs0[c].mount.vehicle.Some? && cs0[c].mount.vehicle.value != other && cs0[c].mount.vehicle.value != c {
      assert r[cs0[c].mount.vehicle.value] == cs1[cs0[c].mount.vehicle.value];
    }
  }

  /**
   * What `ride` of `c` on `other` achieves from `cs0` to `cs` when `allowed`
   * says whether the vehicle's map admits the rider: `c` rides `other`, both
   * sides of the edge are recorded, `c` carries nobody, its former passengers
   * ride nothing and its former vehicle (unless it is `other`) no longer lists
   * it; when the map admits it `c` stands on the vehicle's map at the
   * vehicle's position, and otherwise it stays on its own map, still riding.
   * The rider's whole record is the boarded rider switched to the vehicle's
   * map and position as `Followed` says, with permission cache from `db` and
   * listener warning `chat`; `other` took `c` on, and everyone but the two is
   * as `Freed` says.
   */
  ghost predicate Rode(cs0: Clients, cs: Clients, c: ClientId, other: ClientId, allowed: bool, db: Store, chat: bool) {
    && c in cs0 && other in cs0 && c in cs && other in cs && cs.Keys == cs0.Keys
    && cs[c].mount.vehicle == Some(other) && cs[c].mount.passengers == {} && c in cs[other].mount.passengers
    && (forall p | p in cs0[c].mount.passengers :: p in cs && cs[p].mount.vehicle.None?)
    && (cs0[c].mount.vehicle.Some? && cs0[c].mount.vehicle.value != other ==>
          cs0[c].mount.vehicle.value in cs && c !in cs[cs0[c].mount.vehicle.value].mount.passengers)
    && (Admitted(cs0[c], cs0[other].mapId, allowed) ==>
          cs[c].onMap == Some(cs0[other].mapId) && cs[c].x == cs0[other].x && cs[c].y == cs0[other].y)
    && (!Admitted(cs0[c], cs0[other].mapId, allowed) ==> cs[c].onMap == cs0[c].onMap)
    && Followed(BoardedRider(cs0[c], other), cs[c], cs0[other], cs0[other].mapId, allowed, db, chat)
    && cs[other] == TookOn(FreedEntry(cs0, c, cs0[c].mount.passengers, true, other), c)
    && forall u | u in cs0 && u != c && u != other :: cs[u] == FreedEntry(cs0, c, cs0[c].mount.passengers, true, u)
  }

  /** Boarding followed by the switch of the rider to the vehicle's map and position is what `Rode` says. */
  lemma RideComposed(cs0: Clients, cs3: Clients, cs: Clients, m3: Registry, m: Registry, rank: Rank,
                     c: ClientId, other: ClientId, file: MapFile, db: Store, chat: bool,
                     perm: (MapId, ClientId, string) -> bool, ok: bool)
    requires Boarded(cs0, cs3, c, other) && forall u | Carried(cs3, rank, u, c) :: u == c
    requires Switched(cs3, cs, m3, m, rank, c, cs3[other].mapId, Some((cs3[other].x, cs3[other].y)), true, true,
                      file, db, chat, perm, ok)
    ensures Rode(cs0, cs, c, other, perm(cs0[other].mapId, c, "entry"), db, chat)
  {
    var target := cs3[other].mapId;
    if ok {
      LandedMeaning(cs3[c], cs[c], target, (cs3[other].x, cs3[other].y), true,
                    CachedPermissions(db, cs3[c].ident.dbId, target), chat);
    }
    BoardedFrame(cs0, cs3, cs, rank, c, other);
  }

  /** A change within what the boarded rider carries, which is only itself, keeps everyone else as boarding left them. */
  lemma BoardedFrame(cs0: Clients, cs3: Clients, cs: Clients, rank: Rank, c: ClientId, other: ClientId)
    requires Boarded(cs0, cs3, c, other) && ChangedWithin(cs3, cs, rank, c)
    requires forall u | Carried(cs3, rank, u, c) :: u == c
    ensures other in cs && cs[other] == TookOn(FreedEntry(cs0, c, cs0[c].mount.passengers, true, other), c)
    ensures forall u | u in cs0 && u != c && u != other :: cs[u] == FreedEntry(cs0, c, cs0[c].mount.passengers, true, u)
  {
    forall u | u in cs0 && u != c
      ensures cs[u] == cs3[u]
    {
      assert !Carried(cs3, rank, u, c);
    }
  }

  /**
   * `cleanup` of `c` from `cs0`: once the socket reference is dropped, the
   * passengers are let out and `c` leaves its vehicle, if any; the result is
   * an unburdened client that is no longer attached and was told nothing.
   */
  lemma CleanedUp(cs0: Clients, c: ClientId)
    requires Linked(cs0) && c in cs0 && c !in cs0[c].mount.passengers && cs0[c].mount.vehicle != Some(c)
    requires cs0[c].mount.vehicle.None? || cs0[c].mount.vehicle.value !in cs0[c].mount.passengers
    ensures var cs1 := cs0[c := cs0[c].(link := cs0[c].link.(attached := false))];
      var cs2 := LetOut(cs1, c, cs1[c].mount.passengers);
      var cs := if cs0[c].mount.vehicle.Some? then Unmounted(cs2, c, cs0[c].mount.vehicle.value) else cs2;
      && Unburdened(cs0, cs, c)
      && cs[c] == cs0[c].(mount := cs0[c].mount.(vehicle := None, passengers := {}), link := cs0[c].link.(attached := false))
  {
    var cs1 := cs0[c := cs0[c].(link := cs0[c].link.(attached := false))];
    var cs2 := LetOut(cs1, c, cs1[c].mount.passengers);
    EmptiedByLetOut(cs0, c);
    if cs0[c].mount.vehicle.Some? {
      UnmountedAfterEmptied(cs0, cs2, c, cs0[c].mount.vehicle.value);
    } else {
      assert forall u | u in cs0 && u != c ::
        FreedEntry(cs0, c, cs0[c].mount.passengers, false, u) == FreedEntry(cs0, c, cs0[c].mount.passengers, true, u);
    }
  }

  /**
   * Half-way through `cleanup`: `c` is detached and carries nobody, its
   * former passengers were let out and nobody else changed.
   */
  ghost predicate Emptied(cs0: Clients, cs: Clients, c: ClientId) {
    && c in cs0 && c in cs && cs.Keys == cs0.Keys
    && cs[c] == cs0[c].(mount := cs0[c].mount.(passengers := {}), link := cs0[c].link.(attached := false))
    && forall u | u in cs0 && u != c :: cs[u] == FreedEntry(cs0, c, cs0[c].mount.passengers, false, u)
  }

  lemma EmptiedByLetOut(cs0: Clients, c: ClientId)
    requires c in cs0
    ensures var cs1 := cs0[c := cs0[c].(link := cs0[c].link.(attached := false))];
      Emptied(cs0, LetOut(cs1, c, cs1[c].mount.passengers), c)
  {
  }

  /** Leaving the vehicle after the passengers are out completes `cleanup`. */
  lemma UnmountedAfterEmptied(cs0: Clients, cs2: Clients, c: ClientId, v: ClientId)
    requires Linked(cs0) && Emptied(cs0, cs2, c) && c !in cs0[c].mount.passengers
    requires cs0[c].mount.vehicle == Some(v) && v != c && v !in cs0[c].mount.passengers
    ensures var cs := Unmounted(cs2, c, v);
      && Unburdened(cs0, cs, c)
      && cs[c] == cs0[c].(mount := cs0[c].mount.(vehicle := None, passengers := {}), link := cs0[c].link.(attached := false))
  {
    var cs := Unmounted(cs2, c, v);
    assert v in cs0;
    UnmountedFreed(cs0, cs2, c, v);
    FreedMeaning(cs0, cs, c);
  }

  /** Leaving the vehicle after the passengers are out leaves everyone else as `Freed` says. */
  lemma UnmountedFreed(cs0: Clients, cs2: Clients, c: ClientId, v: ClientId)
    requires Emptied(cs0, cs2, c) && cs0[c].mount.vehicle == Some(v) && v in cs0 && v != c && v !in cs0[c].mount.passengers
    ensures var cs := Unmounted(cs2, c, v);
      cs.Keys == cs0.Keys && forall u | u in cs0 && u != c :: cs[u] == FreedEntry(cs0, c, cs0[c].mount.passengers, true, u)
  {
    var cs := Unmounted(cs2, c, v);
    forall u | u in cs0 && u != c
      ensures cs[u] == FreedEntry(cs0, c, cs0[c].mount.passengers, true, u)
    {
      assert cs2[u] == FreedEntry(cs0, c, cs0[c].mount.passengers, false, u);
    }
  }

  /** Everyone but `c` being as `Freed` says means nobody else moved and `c`'s former riding edges are gone on the other side. */
  lemma FreedMeaning(cs0: Clients, cs: Clients, c: ClientId)
    requires Linked(cs0) && c in cs0 && c !in cs0[c].mount.passengers && cs0[c].mount.vehicle != Some(c)
    requires cs0[c].mount.vehicle.None? || cs0[c].mount.vehicle.value !in cs0[c].mount.passengers
    requires forall u | u in cs0 && u != c :: u in cs && cs[u] == FreedEntry(cs0, c, cs0[c].mount.passengers, true, u)
    ensures forall u | u in cs0 && u != c :: Spot(cs[u]) == Spot(cs0[u])
    ensures forall p | p in cs0[c].mount.passengers :: p in cs && cs[p].mount.vehicle.None?
    ensures cs0[c].mount.vehicle.Some? ==>
              cs0[c].mount.vehicle.value in cs && c !in cs[cs0[c].mount.vehicle.value].mount.passengers
  {
    forall u | u in cs0 && u != c
      ensures Spot(cs[u]) == Spot(cs0[u])
    {
      assert cs[u] == FreedEntry(cs0, c, cs0[c].mount.passengers, true, u);
    }
    forall p | p in cs0[c].mount.passengers
      ensures p in cs && cs[p].mount.vehicle.None?
    {
      assert cs[p] == FreedEntry(cs0, c, cs0[c].mount.passengers, true, p);
    }
    if cs0[c].mount.vehicle.Some? {
      var v := cs0[c].mount.vehicle.value;
      assert cs[v] == FreedEntry(cs0, c, cs0[c].mount.passengers, true, v);
    }
  }
}

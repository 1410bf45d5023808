/**
 * `moveTo` on the registry: a client moves, and takes along everything it
 * carries. A passenger that follows goes to where its vehicle stood before
 * the move, any other passenger goes to where its vehicle went, and each
 * passenger moves its own passengers the same way. The recursion ends
 * because a passenger ranks below its vehicle.
 */
module Moving {
  import opened Wrappers
  import opened Session
  import opened Riding

  /** The registry with only positions changed. */
  ghost predicate MovedOnly(cs1: Clients, cs2: Clients) {
    && cs1.Keys == cs2.Keys
    && forall u | u in cs1 :: cs2[u] == cs1[u].(x := cs2[u].x, y := cs2[u].y)
  }

  /** `u` stands where its vehicle's `moveTo` put it: at the vehicle's old place when following, on it otherwise. */
  ghost predicate Trails(before: Clients, after: Clients, u: ClientId)
    requires u in before && u in after && before[u].mount.vehicle.Some?
    requires before[u].mount.vehicle.value in before && before[u].mount.vehicle.value in after
  {
    var v := before[u].mount.vehicle.value;
    (after[u].x, after[u].y)
      == if before[u].mount.isFollowing then (before[v].x, before[v].y) else (after[v].x, after[v].y)
  }

  /**
   * What `moveTo(c, x, y)` does to the registry `cs`, giving `r`: only
   * positions change; `c` is at (x, y); every client that `c` does not carry
   * stays as it was; every client it carries trails its vehicle.
   */
  ghost predicate GroupMoved(cs: Clients, r: Clients, rank: Rank, c: ClientId, x: int, y: int) {
    && MovedOnly(cs, r)
    && c in r && r[c].x == x && r[c].y == y
    && (forall u {:trigger Carried(cs, rank, u, c)} | u in r && !Carried(cs, rank, u, c) :: r[u] == cs[u])
    && (forall u {:trigger Carried(cs, rank, u, c)} | u in r && u != c && Carried(cs, rank, u, c) ::
          cs[u].mount.vehicle.Some? && cs[u].mount.vehicle.value in r && Trails(cs, r, u))
  }

  /**
   * The passenger loop of a `moveTo` of `c` to (x, y) that started from
   * `start`, with the passengers in `todo` still to move: `c` is at (x, y),
   * the groups of the passengers already moved trail, and nothing else has
   * changed.
   */
  ghost predicate MoveLoop(start: Clients, now: Clients, rank: Rank, c: ClientId, x: int, y: int, todo: set<ClientId>) {
    && Linked(start) && Ranked(start, rank) && c in start
    && todo <= start[c].mount.passengers
    && MovedOnly(start, now)
    && c in now && now[c].x == x && now[c].y == y
    && (forall u {:trigger Carried(start, rank, u, c)} | u in now && !Carried(start, rank, u, c) :: now[u] == start[u])
    && (forall u, t {:trigger Carried(start, rank, u, t)} | u in now && t in todo && Carried(start, rank, u, t) ::
          now[u] == start[u])
    && (forall u, q {:trigger Carried(start, rank, u, q)}
          | u in now && q in start[c].mount.passengers && q !in todo && Carried(start, rank, u, q) ::
          start[u].mount.vehicle.Some? && start[u].mount.vehicle.value in now && Trails(start, now, u))
  }

  lemma MovedOnlySameRiding(cs1: Clients, cs2: Clients, rank: Rank)
    requires MovedOnly(cs1, cs2)
    ensures SameRiding(cs1, cs2) && SameRiding(cs2, cs1)
    ensures Linked(cs1) ==> Linked(cs2)
    ensures Ranked(cs1, rank) ==> Ranked(cs2, rank)
  {
    SameRidingKeepsLinks(cs1, cs2, rank);
  }

  lemma MovedOnlyTransitive(cs1: Clients, cs2: Clients, cs3: Clients)
    requires MovedOnly(cs1, cs2) && MovedOnly(cs2, cs3)
    ensures MovedOnly(cs1, cs3)
  {
  }

  /** Before any passenger has moved, only `c` has. */
  lemma MoveStart(cs: Clients, rank: Rank, c: ClientId, x: int, y: int)
    requires Linked(cs) && Ranked(cs, rank) && c in cs
    ensures MoveLoop(cs, cs[c := cs[c].(x := x, y := y)], rank, c, x, y, cs[c].mount.passengers)
  {
    var r := cs[c := cs[c].(x := x, y := y)];
    forall u, t {:trigger Carried(cs, rank, u, t)} | u in r && t in cs[c].mount.passengers && Carried(cs, rank, u, t)
      ensures r[u] == cs[u]
    {
      VehicleNotCarriedByPassenger(cs, rank, c, t);
    }
  }

  /** Restates what moving `p` promised in terms of the riding graph at the start. */
  lemma MoveCallFrame(start: Clients, before: Clients, after: Clients, rank: Rank, p: ClientId)
    requires SameRiding(before, start) && before.Keys == after.Keys
    requires forall u {:trigger Carried(before, rank, u, p)} | u in after && !Carried(before, rank, u, p) :: after[u] == before[u]
    requires forall u {:trigger Carried(before, rank, u, p)} | u in after && u != p && Carried(before, rank, u, p) ::
               before[u].mount.vehicle.Some? && before[u].mount.vehicle.value in after && Trails(before, after, u)
    ensures forall u {:trigger Carried(start, rank, u, p)} | u in after && !Carried(start, rank, u, p) :: after[u] == before[u]
    ensures forall u {:trigger Carried(start, rank, u, p)} | u in after && u != p && Carried(start, rank, u, p) ::
              before[u].mount.vehicle.Some? && before[u].mount.vehicle.value in after && Trails(before, after, u)
  {
    forall u | u in after && !Carried(start, rank, u, p)
      ensures after[u] == before[u]
    {
      CarriedFrame(before, start, rank, u, p);
    }
    forall u | u in after && u != p && Carried(start, rank, u, p)
      ensures before[u].mount.vehicle.Some? && before[u].mount.vehicle.value in after && Trails(before, after, u)
    {
      CarriedFrame(before, start, rank, u, p);
    }
  }

  /** Moving passenger `p` leaves alone everything outside `p`'s group. */
  lemma MoveStepKeeps(start: Clients, before: Clients, after: Clients, rank: Rank, c: ClientId, x: int, y: int,
                      todo: set<ClientId>, p: ClientId)
    requires MoveLoop(start, before, rank, c, x, y, todo) && p in todo
    requires before.Keys == after.Keys
    requires forall u {:trigger Carried(start, rank, u, p)} | u in after && !Carried(start, rank, u, p) :: after[u] == before[u]
    ensures c in after && after[c] == before[c]
    ensures forall u {:trigger Carried(start, rank, u, c)} | u in after && !Carried(start, rank, u, c) :: after[u] == start[u]
    ensures forall u, t {:trigger Carried(start, rank, u, t)} | u in after && t in todo - {p} && Carried(start, rank, u, t) ::
              after[u] == start[u]
  {
    VehicleNotCarriedByPassenger(start, rank, c, p);
    forall u {:trigger Carried(start, rank, u, c)} | u in after && !Carried(start, rank, u, c)
      ensures after[u] == start[u]
    {
      if Carried(start, rank, u, p) {
        PassengerCarried(start, rank, c, p, u);
      }
    }
    forall u, t {:trigger Carried(start, rank, u, t)} | u in after && t in todo - {p} && Carried(start, rank, u, t)
      ensures after[u] == start[u]
    {
      PassengerGroupsDisjoint(start, rank, c, p, t, u);
    }
  }

  /** After moving passenger `p`, `p`'s own group trails. */
  lemma MoveStepTrailsGroup(start: Clients, before: Clients, after: Clients, rank: Rank, c: ClientId, x: int, y: int,
                            todo: set<ClientId>, p: ClientId)
    requires MoveLoop(start, before, rank, c, x, y, todo) && p in todo
    requires before.Keys == after.Keys
    requires c in after && after[c] == before[c]
    requires forall u {:trigger Carried(start, rank, u, p)} | u in after && u != p && Carried(start, rank, u, p) ::
               before[u].mount.vehicle.Some? && before[u].mount.vehicle.value in after && Trails(before, after, u)
    requires p in after
    requires (after[p].x, after[p].y) == if start[p].mount.isFollowing then (start[c].x, start[c].y) else (x, y)
    ensures forall u {:trigger Carried(start, rank, u, p)} | u in after && Carried(start, rank, u, p) ::
              start[u].mount.vehicle.Some? && start[u].mount.vehicle.value in after && Trails(start, after, u)
  {
    assert start[p].mount.vehicle == Some(c);
    forall u {:trigger Carried(start, rank, u, p)} | u in after && Carried(start, rank, u, p)
      ensures start[u].mount.vehicle.Some? && start[u].mount.vehicle.value in after && Trails(start, after, u)
    {
      if u != p {
        var v := start[u].mount.vehicle.value;
        CarriedStep(start, rank, u, v, p);
        assert before[u] == start[u] && before[v] == start[v];
        assert Trails(before, after, u);
      }
    }
  }

  /** Trailing survives changes to neither the client nor its vehicle. */
  lemma TrailsUntouched(start: Clients, before: Clients, after: Clients, u: ClientId)
    requires u in start && start[u].mount.vehicle.Some? && start[u].mount.vehicle.value in start
    requires u in before && start[u].mount.vehicle.value in before && Trails(start, before, u)
    requires u in after && after[u] == before[u]
    requires start[u].mount.vehicle.value in after && after[start[u].mount.vehicle.value] == before[start[u].mount.vehicle.value]
    ensures Trails(start, after, u)
  {
  }

  /** A client of the group of `q` lies outside the group of another passenger `p`, and so does its vehicle. */
  lemma OtherGroupUntouched(start: Clients, rank: Rank, c: ClientId, p: ClientId, q: ClientId, u: ClientId)
    requires Linked(start) && Ranked(start, rank) && c in start
    requires p in start[c].mount.passengers && q in start[c].mount.passengers && p != q
    requires u in start && Carried(start, rank, u, q)
    ensures !Carried(start, rank, u, p)
    ensures u != c && start[u].mount.vehicle.Some? && start[u].mount.vehicle.value in start
    ensures !Carried(start, rank, start[u].mount.vehicle.value, p)
  {
    PassengerGroupsDisjoint(start, rank, c, p, q, u);
    VehicleNotCarriedByPassenger(start, rank, c, q);
    var v := start[u].mount.vehicle.value;
    if u == q {
      VehicleNotCarriedByPassenger(start, rank, c, p);
    } else {
      CarriedStep(start, rank, u, v, q);
      PassengerGroupsDisjoint(start, rank, c, p, q, v);
    }
  }

  /** Moving passenger `p` keeps the groups of the passengers moved before trailing. */
  lemma MoveStepTrailsDone(start: Clients, before: Clients, after: Clients, rank: Rank, c: ClientId, x: int, y: int,
                           todo: set<ClientId>, p: ClientId)
    requires MoveLoop(start, before, rank, c, x, y, todo) && p in todo
    requires before.Keys == after.Keys
    requires forall u {:trigger Carried(start, rank, u, p)} | u in after && !Carried(start, rank, u, p) :: after[u] == before[u]
    ensures forall u, q {:trigger Carried(start, rank, u, q)}
              | u in after && q in start[c].mount.passengers && q !in todo && Carried(start, rank, u, q) ::
              start[u].mount.vehicle.Some? && start[u].mount.vehicle.value in after && Trails(start, after, u)
  {
    forall u, q {:trigger Carried(start, rank, u, q)}
      | u in after && q in start[c].mount.passengers && q !in todo && Carried(start, rank, u, q)
      ensures start[u].mount.vehicle.Some? && start[u].mount.vehicle.value in after && Trails(start, after, u)
    {
      OtherGroupUntouched(start, rank, c, p, q, u);
      TrailsUntouched(start, before, after, u);
    }
  }

  /** Passenger `p` of `c` having been moved, the passenger loop of `c` advances by one. */
  lemma MoveStep(start: Clients, now: Clients, r: Clients, rank: Rank, c: ClientId, x: int, y: int,
                 todo: set<ClientId>, p: ClientId)
    requires MoveLoop(start, now, rank, c, x, y, todo) && p in todo
    requires GroupMoved(now, r, rank, p, if start[p].mount.isFollowing then start[c].x else x,
                                         if start[p].mount.isFollowing then start[c].y else y)
    ensures MoveLoop(start, r, rank, c, x, y, todo - {p})
  {
    MovedOnlySameRiding(start, now, rank);
    MovedOnlyTransitive(start, now, r);
    MoveCallFrame(start, now, r, rank, p);
    MoveStepKeeps(start, now, r, rank, c, x, y, todo, p);
    MoveStepTrailsGroup(start, now, r, rank, c, x, y, todo, p);
    MoveStepTrailsDone(start, now, r, rank, c, x, y, todo, p);
  }

  /** Once every passenger has been moved, everything `c` carries trails. */
  lemma MoveDone(start: Clients, now: Clients, rank: Rank, c: ClientId, x: int, y: int)
    requires MoveLoop(start, now, rank, c, x, y, {})
    ensures GroupMoved(start, now, rank, c, x, y)
  {
    forall u {:trigger Carried(start, rank, u, c)} | u in now && u != c && Carried(start, rank, u, c)
      ensures start[u].mount.vehicle.Some? && start[u].mount.vehicle.value in now && Trails(start, now, u)
    {
      var p := CarriedBranch(start, rank, u, c);
    }
  }

  /**
   * `moveTo` on the registry: `c` goes to (x, y); each passenger that follows
   * goes to where `c` was, every other passenger to (x, y), and so on down the
   * passengers' own passengers. Nothing else changes.
   */
  method MoveGroup(cs: Clients, ghost rank: Rank, c: ClientId, x: int, y: int) returns (r: Clients)
    requires Linked(cs) && Ranked(cs, rank) && c in cs
    decreases rank[c], 1
    ensures GroupMoved(cs, r, rank, c, x, y)
  {
    var oldx, oldy := cs[c].x, cs[c].y;
    r := cs[c := cs[c].(x := x, y := y)];
    var todo := cs[c].mount.passengers;
    MoveStart(cs, rank, c, x, y);
    while todo != {}
      invariant MoveLoop(cs, r, rank, c, x, y, todo)
      decreases todo
    {
      var p :| p in todo;
      r := MovePassenger(cs, r, rank, c, x, y, oldx, oldy, todo, p);
      todo := todo - {p};
    }
    MoveDone(cs, r, rank, c, x, y);
  }

  /** One turn of the passenger loop of `moveTo`: passenger `p` moves, taking its own group along. */
  method MovePassenger(ghost start: Clients, now: Clients, ghost rank: Rank, c: ClientId, x: int, y: int,
                       oldx: int, oldy: int, ghost todo: set<ClientId>, p: ClientId)
    returns (r: Clients)
    requires MoveLoop(start, now, rank, c, x, y, todo) && p in todo
    requires oldx == start[c].x && oldy == start[c].y
    decreases rank[c], 0
    ensures MoveLoop(start, r, rank, c, x, y, todo - {p})
  {
    MovedOnlySameRiding(start, now, rank);
    assert p in now[c].mount.passengers;
    if now[p].mount.isFollowing {
      r := MoveGroup(now, rank, p, oldx, oldy);
    } else {
      r := MoveGroup(now, rank, p, x, y);
    }
    MoveStep(start, now, r, rank, c, x, y, todo, p);
  }
}

/**
 * The riding graph: each client rides at most one vehicle and carries a set
 * of passengers. The two sides are kept symmetric, and a ghost rank (a
 * passenger ranks strictly below its vehicle) makes the graph acyclic, which
 * is what lets the recursive moves and map switches terminate.
 */
module Riding {
  import opened Wrappers
  import opened Session

  type Clients = map<ClientId, Client>
  type Rank = map<ClientId, nat>

  /** Every riding edge joins two registered clients and is recorded on both sides. */
  ghost predicate Linked(cs: Clients) {
    && (forall u {:trigger cs[u].mount.vehicle} | u in cs && cs[u].mount.vehicle.Some? ::
          cs[u].mount.vehicle.value in cs && u in cs[cs[u].mount.vehicle.value].mount.passengers)
    && (forall v, u | v in cs && u in cs[v].mount.passengers :: u in cs && cs[u].mount.vehicle == Some(v))
  }

  /** Passengers rank strictly below their vehicle. */
  ghost predicate Ranked(cs: Clients, rank: Rank) {
    && cs.Keys <= rank.Keys
    && (forall v, u | v in cs && u in cs[v].mount.passengers :: u in rank && rank[u] < rank[v])
  }

  /** The two registries have the same clients and the same riding edges. */
  ghost predicate SameRiding(cs1: Clients, cs2: Clients) {
    && cs1.Keys == cs2.Keys
    && forall k | k in cs1 :: cs1[k].mount == cs2[k].mount
  }

  /** `u` is `c` or is carried, directly or through other passengers, by `c`. */
  ghost predicate Carried(cs: Clients, rank: Rank, u: ClientId, c: ClientId)
    decreases if u in rank && c in rank && rank[u] < rank[c] then rank[c] - rank[u] else 0
  {
    u == c ||
    (u in cs && u in rank && c in rank && rank[u] < rank[c] && cs[u].mount.vehicle.Some? &&
     var v := cs[u].mount.vehicle.value; v in rank && rank[u] < rank[v] && Carried(cs, rank, v, c))
  }

  lemma SameRidingKeepsLinks(cs1: Clients, cs2: Clients, rank: Rank)
    requires SameRiding(cs1, cs2)
    ensures Linked(cs1) ==> Linked(cs2)
    ensures Ranked(cs1, rank) ==> Ranked(cs2, rank)
  {
  }

  /** Carried depends on the riding edges alone. */
  lemma {:induction false} CarriedFrame(cs1: Clients, cs2: Clients, rank: Rank, u: ClientId, c: ClientId)
    requires SameRiding(cs1, cs2)
    ensures Carried(cs1, rank, u, c) == Carried(cs2, rank, u, c)
    decreases if u in rank && c in rank && rank[u] < rank[c] then rank[c] - rank[u] else 0
  {
    if u != c && u in cs1 && u in rank && c in rank && rank[u] < rank[c] && cs1[u].mount.vehicle.Some? {
      var v := cs1[u].mount.vehicle.value;
      if v in rank && rank[u] < rank[v] {
        CarriedFrame(cs1, cs2, rank, v, c);
      }
    }
  }

  lemma CarriedRank(cs: Clients, rank: Rank, u: ClientId, c: ClientId)
    requires Carried(cs, rank, u, c) && u in rank && c in rank
    ensures rank[u] <= rank[c]
  {
  }

  /** A passenger of something carried by `c` is carried by `c`. */
  lemma CarriedStep(cs: Clients, rank: Rank, u: ClientId, v: ClientId, c: ClientId)
    requires Linked(cs) && Ranked(cs, rank)
    requires u in cs && cs[u].mount.vehicle == Some(v) && c in cs
    requires Carried(cs, rank, v, c)
    ensures Carried(cs, rank, u, c)
  {
    CarriedRank(cs, rank, v, c);
  }

  /** Carried is transitive. */
  lemma {:induction false} CarriedTransitive(cs: Clients, rank: Rank, u: ClientId, p: ClientId, c: ClientId)
    requires Linked(cs) && Ranked(cs, rank) && p in cs && c in cs
    requires Carried(cs, rank, u, p) && Carried(cs, rank, p, c)
    ensures Carried(cs, rank, u, c)
    decreases if u in rank && p in rank && rank[u] < rank[p] then rank[p] - rank[u] else 0
  {
    if u != p {
      var v := cs[u].mount.vehicle.value;
      CarriedTransitive(cs, rank, v, p, c);
      CarriedStep(cs, rank, u, v, c);
    }
  }

  /** Two clients carrying `u` are on one vehicle chain: one carries the other. */
  lemma {:induction false} CarriedChain(cs: Clients, rank: Rank, u: ClientId, p: ClientId, q: ClientId)
    requires Carried(cs, rank, u, p) && Carried(cs, rank, u, q)
    ensures Carried(cs, rank, p, q) || Carried(cs, rank, q, p)
    decreases if u in rank && p in rank && rank[u] < rank[p] then rank[p] - rank[u] else 0
  {
    if u != p && u != q {
      CarriedChain(cs, rank, cs[u].mount.vehicle.value, p, q);
    }
  }

  /** Nobody rides itself. */
  lemma NoSelfRide(cs: Clients, rank: Rank, c: ClientId)
    requires Linked(cs) && Ranked(cs, rank) && c in cs
    ensures c !in cs[c].mount.passengers && cs[c].mount.vehicle != Some(c)
  {
  }

  /** A vehicle is never carried by its own passenger. */
  lemma VehicleNotCarriedByPassenger(cs: Clients, rank: Rank, c: ClientId, p: ClientId)
    requires Linked(cs) && Ranked(cs, rank) && c in cs && p in cs[c].mount.passengers
    ensures !Carried(cs, rank, c, p)
  {
    if Carried(cs, rank, c, p) {
      CarriedRank(cs, rank, c, p);
    }
  }

  /** Whatever a passenger carries, its vehicle carries. */
  lemma PassengerCarried(cs: Clients, rank: Rank, c: ClientId, p: ClientId, u: ClientId)
    requires Linked(cs) && Ranked(cs, rank) && c in cs && p in cs[c].mount.passengers
    requires Carried(cs, rank, u, p)
    ensures Carried(cs, rank, u, c)
  {
    CarriedStep(cs, rank, p, c, c);
    CarriedTransitive(cs, rank, u, p, c);
  }

  /** The groups carried by two different passengers of one vehicle are disjoint. */
  lemma PassengerGroupsDisjoint(cs: Clients, rank: Rank, c: ClientId, p: ClientId, q: ClientId, u: ClientId)
    requires Linked(cs) && Ranked(cs, rank) && c in cs
    requires p in cs[c].mount.passengers && q in cs[c].mount.passengers && p != q
    ensures !(Carried(cs, rank, u, p) && Carried(cs, rank, u, q))
  {
    if Carried(cs, rank, u, p) && Carried(cs, rank, u, q) {
      CarriedChain(cs, rank, u, p, q);
      if Carried(cs, rank, p, q) {
        CarriedRank(cs, rank, c, q);
      } else {
        CarriedRank(cs, rank, c, p);
      }
    }
  }

  /** Everything `c` carries, other than `c`, is carried by one of its passengers. */
  lemma {:induction false} CarriedBranch(cs: Clients, rank: Rank, u: ClientId, c: ClientId) returns (p: ClientId)
    requires Linked(cs) && Ranked(cs, rank) && c in cs
    requires Carried(cs, rank, u, c) && u != c
    ensures p in cs[c].mount.passengers && Carried(cs, rank, u, p)
    decreases if u in rank && c in rank && rank[u] < rank[c] then rank[c] - rank[u] else 0
  {
    var v := cs[u].mount.vehicle.value;
    if v == c {
      p := u;
    } else {
      p := CarriedBranch(cs, rank, v, c);
      CarriedStep(cs, rank, u, v, p);
    }
  }

  /** A client that carries nobody carries only itself. */
  lemma CarriesOnlyItself(cs: Clients, rank: Rank, c: ClientId)
    requires Linked(cs) && Ranked(cs, rank) && c in cs && cs[c].mount.passengers == {}
    ensures forall u | Carried(cs, rank, u, c) :: u == c
  {
    forall u | Carried(cs, rank, u, c)
      ensures u == c
    {
      if u != c {
        var p := CarriedBranch(cs, rank, u, c);
      }
    }
  }

  /** A client's vehicle is never one of its own passengers. */
  lemma VehicleNotPassenger(cs: Clients, rank: Rank, c: ClientId)
    requires Linked(cs) && Ranked(cs, rank) && c in cs
    ensures cs[c].mount.vehicle.None? || cs[c].mount.vehicle.value !in cs[c].mount.passengers
  {
  }

  /** The client reached by following vehicle references `n` times, if the chain is that long. */
  function VehicleAt(cs: Clients, u: ClientId, n: nat): Option<ClientId>
    decreases n
  {
    if n == 0 then Some(u)
    else if u in cs && cs[u].mount.vehicle.Some? then VehicleAt(cs, cs[u].mount.vehicle.value, n - 1)
    else None
  }

  lemma {:induction false} VehicleAtRank(cs: Clients, rank: Rank, u: ClientId, n: nat)
    requires Linked(cs) && Ranked(cs, rank) && u in cs
    ensures VehicleAt(cs, u, n).Some? ==>
              VehicleAt(cs, u, n).value in cs && rank[VehicleAt(cs, u, n).value] >= rank[u] + n
    decreases n
  {
    if n > 0 && cs[u].mount.vehicle.Some? {
      VehicleAtRank(cs, rank, cs[u].mount.vehicle.value, n - 1);
    }
  }

  /** Riding is acyclic: following one or more vehicle references never leads back. */
  lemma NoRidingCycle(cs: Clients, rank: Rank, u: ClientId, n: nat)
    requires Linked(cs) && Ranked(cs, rank) && u in cs && n >= 1
    ensures VehicleAt(cs, u, n) != Some(u)
  {
    VehicleAtRank(cs, rank, u, n);
  }

  /** The WHO reports of two clients agree on who carries whom. */
  lemma WhoIsSymmetric(cs: Clients, u: ClientId, v: ClientId)
    requires Linked(cs) && u in cs && v in cs
    ensures Who(cs[u]).vehicle == Some(v) <==> u in Who(cs[v]).passengers
  {
  }
}

/**
 * What the map switch made by `login` does to the session that has just
 * loaded its account: the switch keeps the client where it stands
 * (`goto_spawn=False`, no new position), so only its map can change.
 */
module Logins {
  import opened Wrappers
  import opened Accounts
  import opened Permissions
  import opened Session
  import opened Riding
  import opened Maps
  import opened Switching
  import opened Storage

  /** `login`: True, False after a bad password, False for an unknown account, or an exception. */
  datatype LoginOutcome = LoggedIn | BadPassword | NoAccount | LoginRaised

  /**
   * Where a switch to `target` leaves a client: on `target` when it was
   * admitted, otherwise where it was; its connection is untouched.
   */
  ghost predicate Placed(before: Client, after: Client, c: ClientId, target: MapId,
                         perm: (MapId, ClientId, string) -> bool) {
    && after.link.attached == before.link.attached
    && after.onMap == if Admitted(before, target, perm(target, c, "entry")) then Some(target) else before.onMap
  }

  /** Every switch leaves the client as `Placed` says. */
  lemma SwitchPlaces(cs0: Clients, cs: Clients, m0: Registry, m: Registry, rank: Rank, c: ClientId, target: MapId,
                     newPos: Option<(int, int)>, gotoSpawn: bool, update: bool, file: MapFile, db: Store,
                     chat: bool, perm: (MapId, ClientId, string) -> bool, ok: bool)
    requires Switched(cs0, cs, m0, m, rank, c, target, newPos, gotoSpawn, update, file, db, chat, perm, ok)
    ensures c in cs && Placed(cs0[c], cs[c], c, target, perm)
  {
  }

  /**
   * A switch to the client's own map id that keeps it where it stands: the
   * account fields, name and position are kept, and it is placed as
   * `Placed` says.
   */
  ghost predicate Resumed(before: Client, after: Client, c: ClientId, perm: (MapId, ClientId, string) -> bool) {
    && after.ident == before.ident && after.name == before.name
    && after.x == before.x && after.y == before.y
    && Placed(before, after, c, before.mapId, perm)
  }

  /**
   * After an accepted login of `before` into account `a`: the session holds
   * the account's identity, name and position, its connection is untouched,
   * and it is on the saved map exactly when that map admits it.
   */
  ghost predicate Restored(before: Client, after: Client, a: Account, c: ClientId,
                           perm: (MapId, ClientId, string) -> bool) {
    var restored := Restore(before, a);
    && after.ident == restored.ident && after.name == restored.name
    && after.x == restored.x && after.y == restored.y && after.link.attached == before.link.attached
    && (after.onMap == Some(restored.mapId) <==> Admitted(restored, restored.mapId, perm(restored.mapId, c, "entry")))
  }

  /**
   * The accepted branch of `login` from `before` into account `a`: the
   * session is `Restored`; the login raised exactly when it is on no map;
   * and a successful login ends with the inventory message.
   */
  ghost predicate Welcomed(before: Client, cs: Clients, a: Account, c: ClientId,
                           perm: (MapId, ClientId, string) -> bool, outcome: LoginOutcome) {
    && c in cs && Restored(before, cs[c], a, c, perm)
    && (outcome == LoginRaised <==> cs[c].onMap.None?)
    && (outcome == LoggedIn && before.link.attached ==>
          LastTold(cs[c], "BAG"))
  }

  /**
   * `switch_map(target)` with the default arguments, from `before` and maps
   * `m0`: the client is placed as `Placed` says, the loaded maps keep their
   * identity once `target` is resident, and an admitted client stands at
   * the target's spawn point.
   */
  ghost predicate SentToSpawn(before: Client, after: Client, m0: Registry, m: Registry, c: ClientId, target: MapId,
                              file: MapFile, perm: (MapId, ClientId, string) -> bool) {
    && Placed(before, after, c, target, perm)
    && SameMapInfo(Resident(m0, target, file), m)
    && (Admitted(before, target, perm(target, c, "entry")) ==>
          target in m && (after.x, after.y) == m[target].startPos)
  }

  /** A switch with no position and `goto_spawn` set does what `SentToSpawn` says. */
  lemma SwitchSentToSpawn(cs0: Clients, cs: Clients, m0: Registry, m: Registry, rank: Rank, c: ClientId, target: MapId,
                          update: bool, file: MapFile, db: Store, chat: bool,
                          perm: (MapId, ClientId, string) -> bool, ok: bool)
    requires Switched(cs0, cs, m0, m, rank, c, target, None, true, update, file, db, chat, perm, ok)
    ensures c in cs && SentToSpawn(cs0[c], cs[c], m0, m, c, target, file, perm)
  {
    if ok {
      LandedMeaning(cs0[c], cs[c], target, m[target].startPos, update, CachedPermissions(db, cs0[c].ident.dbId, target), chat);
    }
  }

  /** The resumed session, told of its inventory when it stands on a map, is what `Welcomed` says. */
  lemma WelcomedAfter(before: Client, cs2: Clients, cs: Clients, a: Account, c: ClientId,
                      perm: (MapId, ClientId, string) -> bool, outcome: LoginOutcome)
    requires c in cs2 && Resumed(Restore(before, a), cs2[c], c, perm)
    requires outcome == LoginRaised || outcome == LoggedIn
    requires outcome == LoginRaised ==> cs == cs2 && cs2[c].onMap.None?
    requires outcome == LoggedIn ==> cs2[c].onMap.Some? && cs == cs2[c := Send(cs2[c], "BAG")]
    ensures Welcomed(before, cs, a, c, perm, outcome)
  {
  }

  /** A switch to the client's own map id that neither places it nor sends it to spawn is what `Resumed` says. */
  lemma StayingSwitch(cs0: Clients, cs: Clients, m0: Registry, m: Registry, rank: Rank, c: ClientId,
                      update: bool, file: MapFile, db: Store, chat: bool,
                      perm: (MapId, ClientId, string) -> bool, ok: bool)
    requires c in cs0
    requires Switched(cs0, cs, m0, m, rank, c, cs0[c].mapId, None, false, update, file, db, chat, perm, ok)
    ensures c in cs && Resumed(cs0[c], cs[c], c, perm)
  {
  }

  /** `b` is `a` with possibly more messages queued, and nothing else changed. */
  ghost predicate OnlyTold(a: Client, b: Client) {
    b == a.(link := a.link.(outbox := b.link.outbox))
  }

  /** Extra messages queued after the login do not change what `Restored` says. */
  lemma RestoredTold(before: Client, a1: Client, a2: Client, acct: Account, c: ClientId,
                     perm: (MapId, ClientId, string) -> bool)
    requires OnlyTold(a1, a2) && Restored(before, a1, acct, c, perm)
    ensures Restored(before, a2, acct, c, perm)
  {
  }

  /** Extra messages queued before or after the move do not change what `SentToSpawn` says. */
  lemma SpawnTold(b1: Client, b2: Client, a1: Client, a2: Client, m0: Registry, m: Registry,
                  c: ClientId, target: MapId, file: MapFile, perm: (MapId, ClientId, string) -> bool)
    requires OnlyTold(b1, b2) && OnlyTold(a1, a2) && SentToSpawn(b2, a1, m0, m, c, target, file, perm)
    ensures SentToSpawn(b1, a2, m0, m, c, target, file, perm)
  {
  }

  /** The last message queued for `cl` is `code`. */
  ghost predicate LastTold(cl: Client, code: string) {
    |cl.link.outbox| > 0 && cl.link.outbox[|cl.link.outbox| - 1] == code
  }
}

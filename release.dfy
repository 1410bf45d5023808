/**
 * The two releases a client makes of what it holds: letting out every
 * passenger (the snapshot-then-dismount loops of `ride` and `cleanup`) and
 * dropping its bot-listener registrations (the tail of `cleanup`).
 */
module Release {
  import opened Wrappers
  import opened Session
  import opened Riding
  import opened World

  /** `n` copies of one command code, as repeated sends of it queue. */
  function Repeated(code: string, n: nat): (r: seq<string>)
    ensures |r| == n && forall i | 0 <= i < n :: r[i] == code
  {
    seq(n, _ => code)
  }

  /** A vehicle once it has let out the passengers in `done`: it was told once per passenger and no longer carries them. */
  function Released(cl: Client, done: set<ClientId>): (r: Client)
    ensures r.mount == cl.mount.(passengers := cl.mount.passengers - done)
    ensures r.link.outbox == cl.link.outbox + (if cl.link.attached then Repeated("MSG", |done|) else [])
    ensures r == cl.(mount := r.mount, link := cl.link.(outbox := r.link.outbox))
  {
    cl.(mount := cl.mount.(passengers := cl.mount.passengers - done),
        link := cl.link.(outbox := cl.link.outbox + (if cl.link.attached then Repeated("MSG", |done|) else [])))
  }

  /** A passenger once it has dismounted: it was told and rides nothing. */
  function Dropped(cl: Client): (r: Client)
    ensures r.mount == cl.mount.(vehicle := None) && r.link.outbox == Send(cl, "MSG").link.outbox
    ensures r == cl.(mount := r.mount, link := cl.link.(outbox := r.link.outbox))
  {
    Send(cl, "MSG").(mount := cl.mount.(vehicle := None))
  }

  /**
   * The registry once `c` has let out the passengers in `done`: each of them
   * is `Dropped`, `c` is `Released`, and nobody else changed.
   */
  function LetOut(cs: Clients, c: ClientId, done: set<ClientId>): (r: Clients)
    requires c in cs
    ensures r.Keys == cs.Keys
  {
    map u | u in cs :: if u == c then Released(cs[c], done) else if u in done then Dropped(cs[u]) else cs[u]
  }

  /** Moving one element from the to-do part of `all` to the done part. */
  lemma DoneStep<T>(all: set<T>, todo: set<T>, u: T)
    requires u in todo && todo <= all
    ensures (all - todo) + {u} == all - (todo - {u})
  {
  }

  lemma LetOutNone(cs: Clients, c: ClientId)
    requires c in cs
    ensures LetOut(cs, c, {}) == cs
  {
    assert cs[c].link.outbox + Repeated("MSG", 0) == cs[c].link.outbox;
    assert Released(cs[c], {}) == cs[c];
    assert forall u | u in cs :: LetOut(cs, c, {})[u] == cs[u];
  }

  /** Dismounting `u` adds one message for the vehicle and removes `u` from its passengers. */
  lemma ReleasedStep(cl: Client, done: set<ClientId>, u: ClientId)
    requires u !in done
    ensures var r := Released(cl, done);
      Send(r, "MSG").(mount := r.mount.(passengers := r.mount.passengers - {u})) == Released(cl, done + {u})
  {
    assert |done + {u}| == |done| + 1;
    assert Repeated("MSG", |done|) + ["MSG"] == Repeated("MSG", |done + {u}|);
    assert cl.mount.passengers - done - {u} == cl.mount.passengers - (done + {u});
  }

  /**
   * Dismounting one more passenger `u` of `c` continues the release: `u`
   * still rides `c`, and afterwards `u` is let out as well.
   */
  lemma LetOutStep(cs0: Clients, c: ClientId, done: set<ClientId>, u: ClientId)
    requires Linked(cs0) && c in cs0
    requires u in cs0[c].mount.passengers && u !in done && u != c
    ensures var cs := LetOut(cs0, c, done);
      u in cs && cs[u].mount.vehicle == Some(c) && Unmounted(cs, u, c) == LetOut(cs0, c, done + {u})
  {
    var cs := LetOut(cs0, c, done);
    var r, r' := Unmounted(cs, u, c), LetOut(cs0, c, done + {u});
    assert cs[u] == cs0[u];
    ReleasedStep(cs0[c], done, u);
    assert r[c] == r'[c];
    assert r[u] == r'[u];
    forall k | k in r
      ensures r[k] == r'[k]
    {
      if k != c && k != u {
        assert r[k] == cs[k];
      }
    }
  }

  /**
   * Once every passenger is let out, `c` carries nobody, each former
   * passenger rides nothing, and nobody moved or changed listeners.
   */
  lemma LetOutMeaning(cs: Clients, c: ClientId)
    requires c in cs
    ensures var r := LetOut(cs, c, cs[c].mount.passengers);
      && r[c].mount.passengers == {} && r[c].mount.vehicle == cs[c].mount.vehicle
      && (forall p | p in cs[c].mount.passengers && p in cs && p != c :: r[p].mount.vehicle.None?)
      && (forall u | u in cs && u != c :: r[u].mount.passengers == cs[u].mount.passengers)
      && forall u | u in cs ::
           r[u].onMap == cs[u].onMap && r[u].mapId == cs[u].mapId && r[u].x == cs[u].x && r[u].y == cs[u].y
           && r[u].link.attached == cs[u].link.attached && r[u].listeningMaps == cs[u].listeningMaps
  {
  }

  /** The bot-listener table after `c` is removed from every category in `ps`. */
  function Unwatched(w: Watch, c: ClientId, ps: set<(string, MapId)>): (r: Watch)
    ensures r.Keys == w.Keys
  {
    map p | p in w :: if p in ps then w[p] - {c} else w[p]
  }

  /** `c` is in no listed category afterwards, and every other entry is as it was. */
  lemma UnwatchedMeaning(w: Watch, c: ClientId, ps: set<(string, MapId)>)
    ensures forall p | p in ps && p in w :: c !in Unwatched(w, c, ps)[p]
    ensures forall p, u | p in w && u != c :: u in Unwatched(w, c, ps)[p] <==> u in w[p]
    ensures forall p | p in w && p !in ps :: Unwatched(w, c, ps)[p] == w[p]
  {
  }

  lemma UnwatchedStep(w: Watch, now: Watch, c: ClientId, done: set<(string, MapId)>, p: (string, MapId))
    requires now == Unwatched(w, c, done) && p in w && p !in done
    ensures now[p := now[p] - {c}] == Unwatched(w, c, done + {p})
  {
  }
}

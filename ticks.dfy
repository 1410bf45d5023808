/**
 * What one run of the background tick does to one client, to the request
 * table and to the shutdown counter, and what repeated ticks add up to.
 */
module Ticks {
  import opened Session

  /** Each request loses one tick; those that fall below zero are dropped. */
  function TickRequests(rs: map<string, Request>): map<string, Request> {
    map k | k in rs && rs[k].timer - 1 >= 0 :: rs[k].(timer := rs[k].timer - 1)
  }

  /**
   * One tick for one connection: the idle counter rises, the ping counter
   * falls; a ping is sent when it reaches 60 or 30 and a disconnect is
   * requested when it is below zero.
   */
  function TickLink(l: Link): Link {
    var p := l.pingTimer - 1;
    l.(idleTimer := l.idleTimer + 1,
       pingTimer := p,
       outbox := if (p == 60 || p == 30) && l.attached then l.outbox + ["PIN"] else l.outbox,
       closeRequested := l.closeRequested || (p != 60 && p != 30 && p < 0))
  }

  /** One tick for one client: its requests age and its connection ticks. */
  function TickClient(cl: Client): Client {
    cl.(requests := TickRequests(cl.requests), link := TickLink(cl.link))
  }

  /** The registry once the clients in `done` have had this tick. */
  function TickedSome(cs: map<ClientId, Client>, done: set<ClientId>): (r: map<ClientId, Client>)
    ensures r.Keys == cs.Keys
  {
    map u | u in cs :: if u in done then TickClient(cs[u]) else cs[u]
  }

  lemma TickedNone(cs: map<ClientId, Client>)
    ensures TickedSome(cs, {}) == cs
  {
    assert forall u | u in cs :: TickedSome(cs, {})[u] == cs[u];
  }

  /** Ticking one more client continues the tick of the registry. */
  lemma TickedStep(cs: map<ClientId, Client>, done: set<ClientId>, u: ClientId)
    requires u in cs && u !in done
    ensures TickedSome(cs, done)[u] == cs[u]
    ensures TickedSome(cs, done)[u := TickClient(cs[u])] == TickedSome(cs, done + {u})
  {
  }

  /**
   * One tick changes a client only in its requests, which age, and its
   * connection, which ticks; everything the registry invariant looks at is
   * kept.
   */
  lemma TickedMeaning(cs: map<ClientId, Client>, u: ClientId)
    requires u in cs
    ensures var t := TickedSome(cs, cs.Keys)[u];
      && t == cs[u].(requests := t.requests, link := t.link)
      && t.requests == TickRequests(cs[u].requests) && t.link == TickLink(cs[u].link)
      && t.link.attached == cs[u].link.attached
  {
  }

  /** The registry once the clients in `done` have been asked to disconnect. */
  function Closed(cs: map<ClientId, Client>, done: set<ClientId>): (r: map<ClientId, Client>)
    ensures r.Keys == cs.Keys
  {
    map u | u in cs :: if u in done then cs[u].(link := cs[u].link.(closeRequested := true)) else cs[u]
  }

  lemma ClosedNone(cs: map<ClientId, Client>)
    ensures Closed(cs, {}) == cs
  {
    assert forall u | u in cs :: Closed(cs, {})[u] == cs[u];
  }

  lemma ClosedStep(cs: map<ClientId, Client>, done: set<ClientId>, u: ClientId)
    requires u in cs && u !in done
    ensures Closed(cs, done)[u] == cs[u]
    ensures Closed(cs, done)[u := cs[u].(link := cs[u].link.(closeRequested := true))] == Closed(cs, done + {u})
  {
  }

  function TickRequestsN(rs: map<string, Request>, n: nat): map<string, Request>
    decreases n
  {
    if n == 0 then rs else TickRequests(TickRequestsN(rs, n - 1))
  }

  function TickLinkN(l: Link, n: nat): Link
    decreases n
  {
    if n == 0 then l else TickLink(TickLinkN(l, n - 1))
  }

  /**
   * After n ticks a request is still pending exactly when it started with at
   * least n ticks, and it has n fewer: one that started at t goes on tick t+1.
   */
  lemma {:induction false} RequestsExpire(rs: map<string, Request>, n: nat, k: string)
    requires k in rs ==> rs[k].timer >= 0
    ensures k in TickRequestsN(rs, n) <==> k in rs && rs[k].timer >= n
    ensures k in TickRequestsN(rs, n) ==>
              TickRequestsN(rs, n)[k] == rs[k].(timer := rs[k].timer - n)
    decreases n
  {
    if n > 0 {
      RequestsExpire(rs, n - 1, k);
      var prev := TickRequestsN(rs, n - 1);
      assert k in TickRequestsN(rs, n) <==> k in prev && prev[k].timer - 1 >= 0;
    }
  }

  /** A sequence of `n` pings. */
  function Pings(n: nat): (r: seq<string>)
    ensures |r| == n && forall i :: 0 <= i < n ==> r[i] == "PIN"
  {
    seq(n, i => "PIN")
  }

  /** How many of the ping marks 60 and 30 the counter passes through in n ticks from p. */
  function PingsDue(p: int, n: nat): nat {
    (if p - n <= 60 <= p - 1 then 1 else 0) + (if p - n <= 30 <= p - 1 then 1 else 0)
  }

  /**
   * After n ticks the ping counter has fallen by n and the idle counter risen
   * by n; a disconnect has been requested exactly when the counter went below
   * zero; and an attached client has been sent one ping per mark passed.
   */
  lemma {:induction false} PingCycle(cl: Link, n: nat)
    ensures TickLinkN(cl, n).pingTimer == cl.pingTimer - n
    ensures TickLinkN(cl, n).idleTimer == cl.idleTimer + n
    ensures TickLinkN(cl, n).closeRequested == (cl.closeRequested || (n > 0 && cl.pingTimer - n < 0))
    ensures TickLinkN(cl, n).outbox
            == cl.outbox + (if cl.attached then Pings(PingsDue(cl.pingTimer, n)) else [])
    ensures TickLinkN(cl, n).attached == cl.attached
    decreases n
  {
    if n > 0 {
      PingCycle(cl, n - 1);
      var prev := TickLinkN(cl, n - 1);
      if cl.attached {
        var p := cl.pingTimer - n;
        var extra := if p == 60 || p == 30 then 1 else 0;
        assert PingsDue(cl.pingTimer, n) == PingsDue(cl.pingTimer, n - 1) + extra;
        assert Pings(PingsDue(cl.pingTimer, n - 1)) + Pings(extra) == Pings(PingsDue(cl.pingTimer, n));
      }
    }
  }

  /**
   * A client that has just answered a ping (counter 300) is pinged twice and
   * is not dropped during the next 300 ticks, and is dropped on the 301st.
   */
  lemma PingTimeoutAfterReset(cl: Link)
    requires cl.pingTimer == PingResetValue && !cl.closeRequested && cl.attached
    ensures !TickLinkN(cl, 300).closeRequested
    ensures TickLinkN(cl, 301).closeRequested
    ensures TickLinkN(cl, 301).outbox == cl.outbox + ["PIN", "PIN"]
  {
    PingCycle(cl, 300);
    PingCycle(cl, 301);
    assert Pings(2) == ["PIN", "PIN"];
  }

  /** What one tick does with the shutdown counter. */
  datatype ShutdownStep = ShutdownStep(counter: int, finalWarning: bool, stop: bool, rearm: bool)

  /**
   * A positive counter is decremented; reaching 1 warns, disconnects and saves,
   * reaching 0 stops the loop; the tick is scheduled again only while the
   * counter is non-zero. A counter that is not positive stays as it is.
   */
  function ShutdownTick(counter: int): (s: ShutdownStep)
    ensures s.rearm <==> s.counter != 0
    ensures counter <= 0 ==> s.counter == counter && !s.finalWarning && !s.stop
  {
    if counter > 0 then
      var n := counter - 1;
      ShutdownStep(n, n == 1, n == 0, n != 0)
    else ShutdownStep(counter, false, false, counter != 0)
  }

  function ShutdownCounterN(counter: int, n: nat): int
    decreases n
  {
    if n == 0 then counter else ShutdownTick(ShutdownCounterN(counter, n - 1)).counter
  }

  /**
   * Started at s > 0, the counter reads s - n after n <= s ticks; the final
   * warning comes on tick s - 1 and the loop stops on tick s, after which the
   * counter stays at 0 and nothing re-arms the tick.
   */
  lemma {:induction false} ShutdownCountdown(s: int, n: nat)
    requires s > 0
    ensures n <= s ==> ShutdownCounterN(s, n) == s - n
    ensures n > s ==> ShutdownCounterN(s, n) == 0
    ensures 1 <= n <= s ==> (ShutdownTick(ShutdownCounterN(s, n - 1)).finalWarning <==> n == s - 1)
    ensures 1 <= n <= s ==> (ShutdownTick(ShutdownCounterN(s, n - 1)).stop <==> n == s)
    ensures 1 <= n ==> (ShutdownTick(ShutdownCounterN(s, n - 1)).rearm <==> n < s)
    decreases n
  {
    if n > 0 {
      ShutdownCountdown(s, n - 1);
    }
  }
}

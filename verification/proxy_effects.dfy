/**
 What the remaining events do, in plain terms: a reset or lost backend, a closed
 request, the idle sweep; and which connection a new request gets.
 */
module ProxyEffects {
  import opened Common
  import opened ResponseOrder
  import opened Relay
  import opened RelayInvariant
  import opened ProxyState
  import opened ProxyPopulation
  import opened ProxyRotation

  /** Settings of zero get the defaults: 16 connections, 100 streams each, 60 seconds, 1 MiB; others are
      kept. A new proxy has no stream, connection or group. */
  lemma DefaultsApply(c: Config)
    ensures Init(Config(0, 0, 0, 0)) == State(Config(16, 100, 60, 1048576), [], [], 0, [], 0, 0)
    ensures c.maxConns > 0 && c.maxStreams > 0 && c.timeoutSec > 0 && c.maxBuffer > 0 ==> Init(c).cfg == c
  {
  }

  // ---- one response loses its backend stream ----

  /** RST_STREAM with an error: a response without its FIN is closed, whatever was buffered is gone, the
      backend is left; nothing more was sent and nobody else is concerned. */
  lemma ResetCloses(p: State, cid: nat, sid: nat, j: nat)
    requires Inv(p) && j < |p.streams|
    ensures var q, s := Step(p, StreamClose(cid, sid, true)), p.streams[j];
            && j < |q.streams| && q.streams[j].log == s.log
            && (s.id != sid || s.backend != Some(cid) || s.life.backendClosed ==> q.streams[j] == s)
            && (s.id == sid && s.backend == Some(cid) && !s.life.backendClosed ==>
                  && q.streams[j].backend == None && q.streams[j].life.backendClosed
                  && Avail(q.streams[j].buf) == [] && q.streams[j].buf.unconsumed == 0
                  && q.streams[j].life.finSent == s.life.finSent
                  && (!s.life.finSent ==> q.streams[j].life.fate == Closing))
  {
    FoundStream(p.streams, j);
  }

  /** The 502 the proxy answers with when its backend is gone. */
  const GATEWAY_ANSWER: seq<Token> := [Head([Header(":status", "502")]), Fin]

  /** A lost connection: each of its responses is detached, empty and unarmed. One that had not started
      is answered 502 if HTTP/3 takes it, one cut off in the middle is closed, a finished one is left
      alone; responses of other connections do not change. */
  lemma LossAnswers(p: State, cid: nat, gateway: seq<Reply>, j: nat)
    requires Inv(p) && j < |p.streams|
    ensures var q, s := Step(p, BackendLost(cid, gateway)), p.streams[j];
            var t := if j < |q.streams| then q.streams[j] else s;
            && |q.streams| == |p.streams|
            && (s.backend != Some(cid) ==> t == s)
            && (s.backend == Some(cid) ==>
                  && t.backend == None && t.life.backendClosed && !t.wake.armed && t.buf == Buffer([], 0, 0) && !t.hdr.pending
                  && (s.life.started ==> t.log == s.log && t.life.finSent == s.life.finSent)
                  && (s.life.started && !s.life.finSent ==> t.life.fate == Closing)
                  && (!s.life.started ==>
                        if s.life.fate != Closing && ReplyAt(gateway, j).Accept?
                        then t.log.sent == s.log.sent + GATEWAY_ANSWER && t.life.finSent && t.life.fate == Gateway
                        else t.log == s.log && !t.life.finSent && t.life.fate != Relaying && t.life.fate != Gateway))
  {
    hide PhaseOf;
    if p.streams[j].backend == Some(cid) {
      HasConn(p, j);
      assert StreamInv(p.streams[j], p.cfg.maxBuffer);
      NotFinished(p.streams[j], p.cfg.maxBuffer);
    }
  }

  /** An attached response is relayed or closed, and has not ended before it started. */
  lemma NotFinished(s: Stream, limit: nat)
    requires StreamInv(s, limit) && s.backend.Some?
    ensures s.life.fate == Relaying || s.life.fate == Closing
    ensures s.wake.blocked == s.wake.armed && (s.life.finSent ==> s.life.started)
  {
  }

  /** A closed request leaves the list; the others stay as they are and in order. */
  lemma CloseRemoves(p: State, sid: nat)
    requires Inv(p)
    ensures var q := Step(p, RequestClose(sid)); var i := FindStream(p.streams, sid);
            && (i == |p.streams| ==> q == p)
            && (i < |p.streams| ==> p.streams[i].id == sid && q.streams == p.streams[..i] + p.streams[i + 1..])
            && forall k :: 0 <= k < |q.streams| ==> q.streams[k].id != sid
  {
    var i := FindStream(p.streams, sid);
    if i < |p.streams| {
      var rest := p.streams[..i] + p.streams[i + 1..];
      forall k | 0 <= k < |rest| ensures rest[k].id != sid { assert rest[k] == p.streams[if k < i then k else k + 1]; }
    }
  }

  // ---- a new request ----

  /** A request that is served is attached to the first connection with room, or to a new one if there is
      none; its record is fresh. */
  lemma RequestAttaches(p: State, key: nat, dialed: bool, now: nat)
    requires Inv(p)
    ensures var q := Step(p, Request(key, dialed, true, now)); var c := FreeConn(p.conns, p.cfg.maxStreams);
            && (c < |p.conns| ==> q.streams == [NewStream(p.nextStream, key, Some(p.conns[c].id))] + p.streams
                                  && |q.conns| == |p.conns|)
            && (c == |p.conns| && p.connCount < p.cfg.maxConns && dialed ==>
                  && q.streams == [NewStream(p.nextStream, key, Some(p.nextConn))] + p.streams
                  && q.conns == [Conn(p.nextConn, 1, now, 0)] + p.conns)
            && (c == |p.conns| && !(p.connCount < p.cfg.maxConns && dialed) ==> q.streams == p.streams)
  {
    hide CreateStream, Attach, DestroyStream, NewStream;
    var p1 := CreateStream(p, key);
    Created(p, key);
    var c := FreeConn(p.conns, p.cfg.maxStreams);
    if c < |p.conns| {
      Attached1(p1, c, p, key);
    } else if p.connCount < p.cfg.maxConns && dialed {
      Attached1(OpenBackend(p1, now), 0, p, key);
    } else {
      Discarded(p1, p);
    }
  }

  lemma Created(p: State, key: nat)
    ensures var q := CreateStream(p, key);
            q.streams == [NewStream(p.nextStream, key, None)] + p.streams && q == p.(streams := q.streams, groups := q.groups, nextStream := p.nextStream + 1)
  {
  }

  /** The record at the head of the list goes to connection c. */
  lemma Attached1(p1: State, c: nat, p: State, key: nat)
    requires |p1.streams| > 0 && c < |p1.conns| && p1.streams == [NewStream(p.nextStream, key, None)] + p.streams
    ensures var q := Attach(p1, c, true); var conn := p1.conns[c];
            && q.streams == [NewStream(p.nextStream, key, Some(conn.id))] + p.streams
            && q.conns == p1.conns[c := conn.(count := conn.count + 1)]
  {
  }

  lemma Discarded(p1: State, p: State)
    requires |p1.streams| > 0 && p1.streams[1..] == p.streams
    ensures DestroyStream(p1, 0).streams == p.streams
  {
  }

  // ---- the idle sweep ----

  /** Connections by place: the same ones, whatever their stream counts. */
  ghost predicate SameConns(cs: seq<Conn>, ds: seq<Conn>) {
    |cs| == |ds| && forall c {:trigger ds[c]} :: 0 <= c < |cs| ==> ds[c].id == cs[c].id && ds[c].lastActive == cs[c].lastActive
  }

  lemma {:induction false} RoundConns(p: State, key: nat, i: nat, remaining: nat, offers: seq<Offer>)
    ensures SameConns(p.conns, RoundFrom(p, key, i, remaining, offers).0.conns)
    decreases remaining
  {
    if i < |p.streams| && remaining > 0 && NextOffer(offers).unsent < UNSENT_MAX {
      hide Turn;
      var p1 := TakeTurn(p, key, i, NextOffer(offers).replies);
      assert SameConns(p.conns, p1.conns);
      RoundConns(p1, key, NextMember(p.streams, key, i), remaining - 1, Later(offers));
      hide TakeTurn, Put;
      ConnsTrans(p.conns, p1.conns, RoundFrom(p, key, i, remaining, offers).0.conns);
    }
  }

  lemma ConnsTrans(a: seq<Conn>, b: seq<Conn>, c: seq<Conn>)
    requires SameConns(a, b) && SameConns(b, c)
    ensures SameConns(a, c)
  {
    forall i | 0 <= i < |a| ensures c[i].id == a[i].id && c[i].lastActive == a[i].lastActive { assert b[i].id == a[i].id; }
  }

  lemma {:induction false} RoundsConns(p: State, keys: seq<nat>, rounds: seq<seq<Offer>>)
    ensures SameConns(p.conns, RunRounds(p, keys, rounds).conns)
    decreases keys
  {
    hide RoundFrom;
    if keys != [] {
      var os := if rounds == [] then [] else rounds[0];
      var g := FindGroup(p.groups, keys[0]);
      if g < |p.groups| { RoundConns(p, keys[0], StartAt(p, keys[0]), p.groups[g].count, os); }
      var p1 := RunRound(p, keys[0], os).0;
      RoundsConns(p1, keys[1..], Later(rounds));
      ConnsTrans(p.conns, p1.conns, RunRounds(p, keys, rounds).conns);
    }
  }

  /** The sweep keeps exactly the connections that are not idle, or not swept. */
  lemma {:induction false} EvictExactly(p: State, ids: seq<nat>, cutoff: nat, conn: Conn)
    requires Inv(p)
    ensures conn in Evict(p, ids, cutoff).conns <==> conn in p.conns && !(conn.id in ids && Idle(conn, cutoff))
    decreases ids
  {
    hide Inv, DestroyBackend;
    if ids != [] {
      var c := FindConn(p.conns, ids[0]);
      var p' := if c < |p.conns| && Idle(p.conns[c], cutoff) then DestroyBackend(p, ids[0], []) else p;
      EvictOne(p, ids[0], cutoff, conn);
      EvictExactly(p', ids[1..], cutoff, conn);
      assert conn.id in ids <==> conn.id == ids[0] || conn.id in ids[1..];
    }
  }

  lemma EvictOne(p: State, id: nat, cutoff: nat, conn: Conn)
    requires Inv(p)
    ensures var c := FindConn(p.conns, id);
            var p' := if c < |p.conns| && Idle(p.conns[c], cutoff) then DestroyBackend(p, id, []) else p;
            Inv(p') && (conn in p'.conns <==> conn in p.conns && !(conn.id == id && Idle(conn, cutoff)))
  {
    hide Inv, LoseBackend, Remove;
    SweepKeeps(p, id, cutoff);
    DistinctConns(p);
    OneGone(p.conns, id, conn);
  }

  lemma DistinctConns(p: State)
    requires Inv(p)
    ensures forall i, j :: 0 <= i < j < |p.conns| ==> p.conns[i].id != p.conns[j].id
  {
  }

  /** Taking the connection with an id out of the list takes out that one and no other. */
  lemma OneGone(cs: seq<Conn>, id: nat, conn: Conn)
    requires forall i, j :: 0 <= i < j < |cs| ==> cs[i].id != cs[j].id
    ensures var c := FindConn(cs, id);
            && (c < |cs| ==> (conn in Remove(cs, c) <==> conn in cs && conn.id != id))
            && (conn in cs && conn.id == id ==> c < |cs| && conn == cs[c])
  {
    var c := FindConn(cs, id);
    if c < |cs| {
      var ds := Remove(cs, c);
      assert forall d :: 0 <= d < |ds| ==> ds[d] == cs[if d < c then d else d + 1];
      if conn in cs && conn.id != id {
        var k :| 0 <= k < |cs| && cs[k] == conn;
        assert ds[if k < c then k else k - 1] == conn;
      }
    }
    if conn in cs && conn.id == id {
      var k :| 0 <= k < |cs| && cs[k] == conn;
      assert c <= k;
    }
  }

  lemma SweepKeeps(p: State, id: nat, cutoff: nat)
    requires Inv(p)
    ensures var c := FindConn(p.conns, id);
            c < |p.conns| && Idle(p.conns[c], cutoff) ==> Inv(DestroyBackend(p, id, []))
  {
    hide Inv, DestroyBackend;
    EvictKeeps(p, [id], cutoff);
    assert [id][1..] == [];
    var c := FindConn(p.conns, id);
    if c < |p.conns| && Idle(p.conns[c], cutoff) {
      assert Evict(DestroyBackend(p, id, []), [], cutoff) == DestroyBackend(p, id, []);
    }
  }

  ghost predicate InUse(ss: seq<Stream>, id: nat) { exists j {:trigger ss[j]} :: 0 <= j < |ss| && ss[j].backend == Some(id) }

  lemma CountIsUse(p: State, c: nat)
    requires Inv(p) && c < |p.conns|
    ensures p.conns[c].count == 0 <==> !InUse(p.streams, p.conns[c].id)
  {
    if j :| 0 <= j < |p.streams| && p.streams[j].backend == Some(p.conns[c].id) { AttachedSome(p.streams, j); }
    else { AttachedNone(p.streams, p.conns[c].id); }
  }

  ghost predicate HasConnection(p: State, id: nat) { exists c {:trigger p.conns[c]} :: 0 <= c < |p.conns| && p.conns[c].id == id }

  /** A tick leaves exactly the connections that have a stream, or that were active within the timeout. */
  lemma TickLeavesExactly(p: State, now: nat, rounds: seq<seq<Offer>>, c: nat)
    requires Inv(p) && c < |p.conns|
    ensures var q, conn := Step(p, TickAt(now, rounds)), p.conns[c];
            HasConnection(q, conn.id) <==> InUse(q.streams, conn.id) || conn.lastActive + p.cfg.timeoutSec >= now
  {
    hide Inv, RunRounds, Evict;
    var p1 := RunRounds(p, Keys(p.groups), rounds);
    var cutoff := if now > p.cfg.timeoutSec then now - p.cfg.timeoutSec else 0;
    RoundsKeep(p, Keys(p.groups), rounds);
    RoundsConns(p, Keys(p.groups), rounds);
    var q := Evict(p1, ConnIds(p1.conns), cutoff);
    EvictKeeps(p1, ConnIds(p1.conns), cutoff);
    var conn := p1.conns[c];
    assert conn.id == p.conns[c].id && conn.lastActive == p.conns[c].lastActive;
    EvictExactly(p1, ConnIds(p1.conns), cutoff, conn);
    CountIsUse(p1, c);
    assert ConnIds(p1.conns)[c] == conn.id;
    if conn in q.conns {
      var d :| 0 <= d < |q.conns| && q.conns[d] == conn;
    }
    if HasConnection(q, conn.id) {
      var d :| 0 <= d < |q.conns| && q.conns[d].id == conn.id;
      EvictExactly(p1, ConnIds(p1.conns), cutoff, q.conns[d]);
      SameConn(p1, c, q.conns[d]);
    }
  }

  lemma SameConn(p: State, c: nat, conn: Conn)
    requires Inv(p) && c < |p.conns| && conn in p.conns && conn.id == p.conns[c].id
    ensures conn == p.conns[c]
  {
  }

  /** A tick opens no connection. */
  lemma TickOpensNone(p: State, now: nat, rounds: seq<seq<Offer>>, id: nat)
    requires Inv(p) && HasConnection(Step(p, TickAt(now, rounds)), id)
    ensures HasConnection(p, id)
  {
    hide Inv, RunRounds, Evict;
    var p1 := RunRounds(p, Keys(p.groups), rounds);
    var cutoff := if now > p.cfg.timeoutSec then now - p.cfg.timeoutSec else 0;
    RoundsKeep(p, Keys(p.groups), rounds);
    RoundsConns(p, Keys(p.groups), rounds);
    var q := Evict(p1, ConnIds(p1.conns), cutoff);
    var d :| 0 <= d < |q.conns| && q.conns[d].id == id;
    EvictExactly(p1, ConnIds(p1.conns), cutoff, q.conns[d]);
    var c :| 0 <= c < |p1.conns| && p1.conns[c] == q.conns[d];
    assert p1.conns[c].id == p.conns[c].id;
  }

  /** Traffic on a connection is what keeps it: it sets that connection's time and nothing else. */
  lemma ActivityCounts(p: State, cid: nat, now: nat, c: nat)
    requires Inv(p) && c < |p.conns|
    ensures var q := Step(p, BackendActive(cid, now));
            && q == p.(conns := q.conns) && |q.conns| == |p.conns|
            && q.conns[c] == if p.conns[c].id == cid then p.conns[c].(lastActive := now) else p.conns[c]
  {
    FoundConn(p.conns, c);
  }
}

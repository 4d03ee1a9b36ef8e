/**
 HTTP/2 connection credit: what the proxy returned on a backend connection,
 against the DATA that arrived on it, over every run.
 */
module ProxyCredit {
  import opened Common
  import opened Relay
  import opened RelayInvariant
  import opened RelayCallbacks
  import opened ProxyState
  import opened ProxyPopulation

  // ---- what arrived, read off the events ----

  predicate Listed(p: State, cid: nat) { FindConn(p.conns, cid) < |p.conns| }

  /** The callback's guard: the stream the DATA is for is still attached to this connection. */
  predicate ForStream(p: State, e: Event)
    requires e.Data?
  {
    Owns(p, FindStream(p.streams, e.sid), e.cid)
  }

  /** e is DATA arriving on the connection, in the order nghttp2 enforces. */
  predicate Arrives(p: State, e: Event, cid: nat) {
    e.Data? && e.cid == cid && Listed(p, cid) && (ForStream(p, e) ==> AdmitsData(p.streams[FindStream(p.streams, e.sid)]))
  }

  /** The DATA bytes that arrived on the connection. */
  function Delivered(p: State, es: seq<Event>, cid: nat): nat
    decreases es
  {
    if es == [] then 0
    else (if Arrives(p, es[0], cid) then |es[0].data| else 0) + Delivered(Step(p, es[0]), es[1..], cid)
  }

  /** DATA that arrives for a stream the connection does not have any more. */
  predicate Stray(p: State, e: Event, cid: nat) { Arrives(p, e, cid) && !ForStream(p, e) && e.data != [] }

  // ---- what was returned ----

  function Refunded(p: State, cid: nat): nat {
    if Listed(p, cid) then p.conns[FindConn(p.conns, cid)].refunded else 0
  }

  /** The credit an event returns. */
  function Returned(p: State, e: Event, cid: nat): nat {
    if Arrives(p, e, cid) && ForStream(p, e) then |e.data| else 0
  }

  /** Connections of q are connections of p with the same credit returned. */
  ghost predicate Kept(p: State, q: State) {
    q.nextConn == p.nextConn
    && forall cid {:trigger Listed(q, cid)} :: Listed(q, cid) ==> Listed(p, cid) && Refunded(q, cid) == Refunded(p, cid)
  }

  lemma KeptTrans(p: State, q: State, r: State)
    requires Kept(p, q) && Kept(q, r)
    ensures Kept(p, r)
  {
  }

  lemma {:induction false} FoundId(cs: seq<Conn>, i: nat)
    requires i < |cs|
    ensures FindConn(cs, cs[i].id) <= i
    decreases cs
  {
    if i > 0 && cs[0].id != cs[i].id { FoundId(cs[1..], i - 1); }
  }

  lemma {:induction false} SameFound(cs: seq<Conn>, ds: seq<Conn>, cid: nat)
    requires |cs| == |ds| && forall i :: 0 <= i < |cs| ==> cs[i].id == ds[i].id
    ensures FindConn(cs, cid) == FindConn(ds, cid)
    decreases cs
  {
    if cs != [] { SameFound(cs[1..], ds[1..], cid); }
  }

  /** The same connections in the same places, whatever their counts. */
  lemma SameIdsKept(p: State, q: State)
    requires q.nextConn == p.nextConn && |q.conns| == |p.conns|
    requires forall i :: 0 <= i < |p.conns| ==> q.conns[i].id == p.conns[i].id && q.conns[i].refunded == p.conns[i].refunded
    ensures Kept(p, q)
  {
    forall cid: nat | Listed(q, cid) ensures Listed(p, cid) && Refunded(q, cid) == Refunded(p, cid) {
      SameFound(p.conns, q.conns, cid);
    }
  }

  lemma PutKept(p: State, i: nat, s: Stream)
    requires i < |p.streams|
    ensures Kept(p, Put(p, i, s))
  {
    SameIdsKept(p, Put(p, i, s));
  }

  lemma CursorKept(p: State, key: nat, cursor: Option<nat>)
    ensures Kept(p, SetCursor(p, key, cursor))
  {
    SameIdsKept(p, SetCursor(p, key, cursor));
  }

  lemma DestroyKept(p: State, i: nat)
    requires i < |p.streams|
    ensures Kept(p, DestroyStream(p, i))
  {
    SameIdsKept(p, DestroyStream(p, i));
  }

  lemma CreateKept(p: State, key: nat)
    ensures Kept(p, CreateStream(p, key))
  {
    SameIdsKept(p, CreateStream(p, key));
  }

  lemma AttachKept(p: State, c: nat, submitted: bool)
    requires |p.streams| > 0 && c < |p.conns|
    ensures Kept(p, Attach(p, c, submitted))
  {
    hide Kept, FindConn, DestroyStream;
    var p1 := Attach(p, c, true);
    SameIdsKept(p, p1);
    if !submitted {
      DestroyKept(p1, 0);
      KeptTrans(p, p1, DestroyStream(p1, 0));
    }
  }

  ghost predicate Distinct(cs: seq<Conn>) { forall j, k {:trigger cs[j].id, cs[k].id} :: 0 <= j < k < |cs| ==> cs[j].id != cs[k].id }

  lemma DistinctFound(cs: seq<Conn>, i: nat)
    requires i < |cs| && Distinct(cs)
    ensures FindConn(cs, cs[i].id) == i
  {
    FoundId(cs, i);
  }

  /** One connection taken out of a list of distinct ones: the others are found as before. */
  lemma RemovedConn(cs: seq<Conn>, c: nat)
    requires c < |cs| && Distinct(cs)
    ensures var ds := Remove(cs, c);
            && Distinct(ds) && FindConn(ds, cs[c].id) == |ds|
            && forall id: nat {:trigger FindConn(ds, id)} :: FindConn(ds, id) < |ds| ==>
                 FindConn(cs, id) < |cs| && cs[FindConn(cs, id)] == ds[FindConn(ds, id)]
  {
    var ds := Remove(cs, c);
    assert forall j :: 0 <= j < |ds| ==> ds[j] == cs[if j < c then j else j + 1];
    forall id: nat | FindConn(ds, id) < |ds|
      ensures id != cs[c].id && FindConn(cs, id) < |cs| && cs[FindConn(cs, id)] == ds[FindConn(ds, id)]
    {
      var j := FindConn(ds, id);
      DistinctFound(cs, if j < c then j else j + 1);
    }
  }

  /** A lost connection is gone; the others are untouched. */
  lemma LoseKept(p: State, cid: nat, gateway: seq<Reply>)
    requires Distinct(p.conns)
    ensures var q := DestroyBackend(p, cid, gateway); Kept(p, q) && !Listed(q, cid) && Distinct(q.conns)
  {
    hide LoseBackend, Remove, Distinct;
    var c := FindConn(p.conns, cid);
    if c < |p.conns| {
      RemovedConn(p.conns, c);
    } else {
      SameIdsKept(p, p);
    }
  }

  // ---- rounds and the idle sweep ----

  lemma {:induction false} RoundKept(p: State, key: nat, i: nat, remaining: nat, offers: seq<Offer>)
    ensures Kept(p, RoundFrom(p, key, i, remaining, offers).0)
    decreases remaining
  {
    hide Kept, Put, SetCursor;
    SameIdsKept(p, p);
    if i < |p.streams| && remaining > 0 {
      if NextOffer(offers).unsent >= UNSENT_MAX {
        var s := SetBlocked(p.streams[i], true);
        PutKept(p, i, s);
        CursorKept(Put(p, i, s), key, Some(p.streams[i].id));
        KeptTrans(p, Put(p, i, s), HoldAt(p, key, i));
      } else {
        var s := Turn(p.streams[i], NextOffer(offers).replies);
        var q := TakeTurn(p, key, i, NextOffer(offers).replies);
        PutKept(p, i, s);
        CursorKept(Put(p, i, s), key, IdAt(p.streams, NextMember(p.streams, key, i)));
        KeptTrans(p, Put(p, i, s), q);
        var next := NextMember(p.streams, key, i);
        RoundKept(q, key, next, remaining - 1, Later(offers));
        KeptTrans(p, q, RoundFrom(q, key, next, remaining - 1, Later(offers)).0);
      }
    }
  }

  lemma RunRoundKept(p: State, key: nat, offers: seq<Offer>)
    ensures Kept(p, RunRound(p, key, offers).0)
  {
    hide Kept, RoundFrom;
    SameIdsKept(p, p);
    var g := FindGroup(p.groups, key);
    if g < |p.groups| { RoundKept(p, key, StartAt(p, key), p.groups[g].count, offers); }
  }

  lemma {:induction false} RoundsKept(p: State, keys: seq<nat>, offers: seq<seq<Offer>>)
    ensures Kept(p, RunRounds(p, keys, offers))
    decreases keys
  {
    hide Kept, RunRound;
    SameIdsKept(p, p);
    if keys != [] {
      var round := if offers == [] then [] else offers[0];
      var q := RunRound(p, keys[0], round).0;
      RunRoundKept(p, keys[0], round);
      RoundsKept(q, keys[1..], Later(offers));
      KeptTrans(p, q, RunRounds(q, keys[1..], Later(offers)));
    }
  }

  lemma {:induction false} EvictKept(p: State, ids: seq<nat>, cutoff: nat)
    requires Distinct(p.conns)
    ensures Kept(p, Evict(p, ids, cutoff))
    decreases ids
  {
    hide Kept, DestroyBackend;
    SameIdsKept(p, p);
    if ids != [] {
      var c := FindConn(p.conns, ids[0]);
      var q := if c < |p.conns| && Idle(p.conns[c], cutoff) then DestroyBackend(p, ids[0], []) else p;
      LoseKept(p, ids[0], []);
      EvictKept(q, ids[1..], cutoff);
      KeptTrans(p, q, Evict(q, ids[1..], cutoff));
    }
  }

  lemma DistinctOf(p: State)
    requires Inv(p)
    ensures Distinct(p.conns) && forall cid: nat {:trigger Listed(p, cid)} :: Listed(p, cid) ==> cid < p.nextConn
  {
  }

  lemma TickKept(p: State, now: nat, rounds: seq<seq<Offer>>)
    requires Inv(p)
    ensures Kept(p, Tick(p, now, rounds))
  {
    hide Kept, Inv, RunRounds, Evict;
    var q := RunRounds(p, Keys(p.groups), rounds);
    RoundsKeep(p, Keys(p.groups), rounds);
    RoundsKept(p, Keys(p.groups), rounds);
    DistinctOf(q);
    var cutoff := if now > p.cfg.timeoutSec then now - p.cfg.timeoutSec else 0;
    EvictKept(q, ConnIds(q.conns), cutoff);
    KeptTrans(p, q, Evict(q, ConnIds(q.conns), cutoff));
  }

  // ---- callbacks ----

  lemma FinishKept(p: State, i: nat, f: Flow, cid: nat, gateway: seq<Reply>)
    requires i < |p.streams| && Distinct(p.conns)
    ensures var q := Finish(p, i, f, cid, gateway); Kept(p, q) && (f.out == Fail ==> !Listed(q, cid))
  {
    hide Kept, DestroyBackend;
    var q := Put(p, i, f.s);
    PutKept(p, i, f.s);
    if f.out == Fail {
      assert forall j :: 0 <= j < |q.conns| ==> q.conns[j].id == p.conns[j].id;
      LoseKept(q, cid, gateway);
      KeptTrans(p, q, DestroyBackend(q, cid, gateway));
    }
  }

  /** What one event does to the credit of one connection. */
  ghost predicate Credits(p: State, e: Event, cid: nat) {
    var q := Step(p, e);
    && p.nextConn <= q.nextConn
    && (Listed(q, cid) && Listed(p, cid) ==> Refunded(q, cid) == Refunded(p, cid) + Returned(p, e, cid))
    && (Listed(q, cid) && !Listed(p, cid) ==> cid >= p.nextConn && Refunded(q, cid) == 0)
  }

  lemma KeptCredits(p: State, e: Event, cid: nat)
    requires Kept(p, Step(p, e)) && Returned(p, e, cid) == 0
    ensures Credits(p, e, cid)
  {
    hide Step;
  }

  lemma CreditSets(p: State, cid: nat, n: nat, id: nat)
    requires Distinct(p.conns)
    ensures var q := Credit(p, cid, n);
            && Distinct(q.conns) && q.nextConn == p.nextConn && q.streams == p.streams
            && (Listed(q, id) <==> Listed(p, id))
            && Refunded(q, id) == Refunded(p, id) + (if id == cid && Listed(p, cid) then n else 0)
  {
    var q := Credit(p, cid, n);
    assert |q.conns| == |p.conns| && forall j :: 0 <= j < |q.conns| ==> q.conns[j].id == p.conns[j].id;
    if Listed(p, id) { DistinctFound(q.conns, FindConn(p.conns, id)); }
    if Listed(q, id) { DistinctFound(p.conns, FindConn(q.conns, id)); }
  }

  /** DATA for an attached stream returns exactly its length, or fails and loses the connection. */
  lemma DataCredits(p: State, e: Event, cid: nat)
    requires Inv(p) && e.Data?
    ensures Credits(p, e, cid)
  {
    hide Kept, Finish, OnChunk, Fits, Inv, AdmitsData;
    DistinctOf(p);
    var i := FindStream(p.streams, e.sid);
    if !ForStream(p, e) || !AdmitsData(p.streams[i]) {
      SameIdsKept(p, p);
      KeptCredits(p, e, cid);
    } else {
      var s := p.streams[i];
      var f := OnChunk(s, e.data, p.cfg.maxBuffer, e.credit, e.replies);
      CreditSets(p, e.cid, |e.data|, cid);
      RefusedChunkFails(s, e.data, p.cfg.maxBuffer, e.credit, e.replies);
      var taken := Fits(s.buf, e.data, p.cfg.maxBuffer) && e.credit;
      var p1 := if taken then Credit(p, e.cid, |e.data|) else p;
      FinishKept(p1, i, f, e.cid, e.gateway);
      assert Step(p, e) == Finish(p1, i, f, e.cid, e.gateway);
      KeptAt(p1, Step(p, e), cid);
    }
  }

  lemma KeptAt(p: State, q: State, cid: nat)
    requires Kept(p, q)
    ensures q.nextConn == p.nextConn && (Listed(q, cid) ==> Listed(p, cid) && Refunded(q, cid) == Refunded(p, cid))
  {
  }

  lemma RefusedChunkFails(s: Stream, data: seq<Byte>, limit: nat, credit: bool, rs: seq<Reply>)
    ensures !(Fits(s.buf, data, limit) && credit) ==> OnChunk(s, data, limit, credit, rs).out == Fail
  {
  }

  /** A request may open a connection, under an id never used, with nothing returned on it yet. */
  lemma RequestCredits(p: State, e: Event, cid: nat)
    requires Inv(p) && e.Request?
    ensures Credits(p, e, cid)
  {
    hide Kept, Inv, CreateStream, Attach, DestroyStream;
    DistinctOf(p);
    var p1 := CreateStream(p, e.key);
    CreateKept(p, e.key);
    CreateHead(p, e.key);
    var c := FreeConn(p1.conns, p1.cfg.maxStreams);
    if c < |p1.conns| {
      AttachKept(p1, c, e.submitted);
      KeptTrans(p, p1, Attach(p1, c, e.submitted));
      KeptCredits(p, e, cid);
    } else if p1.connCount < p1.cfg.maxConns && e.dialed {
      var p2 := OpenBackend(p1, e.now);
      OpenSets(p1, e.now, cid);
      AttachKept(p2, 0, e.submitted);
      KeptAt(p2, Step(p, e), cid);
      KeptAt(p, p1, cid);
      assert Listed(p1, cid) == Listed(p, cid) by { assert p1.conns == p.conns; }
    } else {
      DestroyKept(p1, 0);
      KeptTrans(p, p1, DestroyStream(p1, 0));
      KeptCredits(p, e, cid);
    }
  }

  lemma CreateHead(p: State, key: nat)
    ensures CreateStream(p, key).conns == p.conns && |CreateStream(p, key).streams| > 0
  {
  }

  lemma OpenSets(p: State, now: nat, cid: nat)
    ensures var q := OpenBackend(p, now);
            && q.nextConn == p.nextConn + 1 && q.streams == p.streams && |q.conns| > 0
            && (cid == p.nextConn ==> Listed(q, cid) && Refunded(q, cid) == 0)
            && (cid != p.nextConn ==> (Listed(q, cid) <==> Listed(p, cid)) && Refunded(q, cid) == Refunded(p, cid))
  {
    var q := OpenBackend(p, now);
    assert q.conns[1..] == p.conns;
  }

  lemma StepCredits(p: State, e: Event, cid: nat)
    requires Inv(p)
    ensures Credits(p, e, cid)
  {
    hide Kept, Inv, Credits, Finish, OnHeaders, OnDataEnd, DestroyBackend, DestroyStream, RunRound, Tick, Put, AdmitsHeaders, AdmitsData;
    DistinctOf(p);
    SameIdsKept(p, p);
    match e {
      case Request(_, _, _, _) => RequestCredits(p, e, cid);
      case Data(_, _, _, _, _, _) => DataCredits(p, e, cid);
      case Headers(hid, sid, fields, end, replies, gateway) =>
        var i := FindStream(p.streams, sid);
        if i < |p.streams| { FinishKept(p, i, OnHeaders(p.streams[i], fields, end, replies), hid, gateway); }
        KeptCredits(p, e, cid);
      case DataEnd(hid, sid, replies, gateway) =>
        var i := FindStream(p.streams, sid);
        if i < |p.streams| { FinishKept(p, i, OnDataEnd(p.streams[i], replies), hid, gateway); }
        KeptCredits(p, e, cid);
      case StreamClose(_, sid, error) =>
        var i := FindStream(p.streams, sid);
        if i < |p.streams| { PutKept(p, i, OnStreamClose(p.streams[i], error)); }
        KeptCredits(p, e, cid);
      case BackendLost(lost, gateway) =>
        LoseKept(p, lost, gateway);
        KeptCredits(p, e, cid);
      case BackendActive(_, _) =>
        SameIdsKept(p, Step(p, e));
        KeptCredits(p, e, cid);
      case Writable(sid, offers) =>
        var i := FindStream(p.streams, sid);
        if i < |p.streams| { RunRoundKept(p, p.streams[i].key, offers); }
        KeptCredits(p, e, cid);
      case RequestClose(sid) =>
        var i := FindStream(p.streams, sid);
        if i < |p.streams| { DestroyKept(p, i); }
        KeptCredits(p, e, cid);
      case TickAt(now, rounds) =>
        TickKept(p, now, rounds);
        KeptCredits(p, e, cid);
    }
  }

  // ---- runs ----

  /** A connection that is gone never comes back under its id. */
  lemma {:induction false} NeverBack(p: State, es: seq<Event>, cid: nat)
    requires Inv(p) && cid < p.nextConn && !Listed(p, cid)
    ensures !Listed(Run(p, es), cid) && Delivered(p, es, cid) == 0
    decreases es
  {
    hide Inv, Step;
    if es != [] {
      StepCredits(p, es[0], cid);
      StepKeeps(p, es[0]);
      NeverBack(Step(p, es[0]), es[1..], cid);
    }
  }

  /** The DATA of the run that arrived for streams the connection still had. */
  function Owed(p: State, es: seq<Event>, cid: nat): nat
    decreases es
  {
    if es == [] then 0 else Returned(p, es[0], cid) + Owed(Step(p, es[0]), es[1..], cid)
  }

  lemma {:induction false} RunCredits(p: State, es: seq<Event>, cid: nat)
    requires Inv(p) && Listed(Run(p, es), cid)
    ensures Refunded(Run(p, es), cid) == Refunded(p, cid) + Owed(p, es, cid)
    decreases es
  {
    hide Inv, Step;
    if es != [] {
      var q := Step(p, es[0]);
      StepCredits(p, es[0], cid);
      StepKeeps(p, es[0]);
      DistinctOf(p);
      if !Listed(q, cid) && cid < q.nextConn { NeverBack(q, es[1..], cid); }
      RunCredits(q, es[1..], cid);
    }
  }

  /** Every run of events: what arrived is what is owed, unless some of it was stray. */
  lemma {:induction false} OwedExactly(p: State, es: seq<Event>, cid: nat)
    ensures Owed(p, es, cid) <= Delivered(p, es, cid)
    ensures Owed(p, es, cid) == Delivered(p, es, cid)
       <==> forall k {:trigger es[k]} :: 0 <= k < |es| ==> !Stray(Run(p, es[..k]), es[k], cid)
    decreases es
  {
    hide Step;
    if es != [] {
      var q, rest := Step(p, es[0]), es[1..];
      OwedExactly(q, rest, cid);
      assert es[..0] == [] && Run(p, es[..0]) == p;
      forall k | 0 <= k < |rest| ensures Run(p, es[..k + 1]) == Run(q, rest[..k]) {
        assert es[..k + 1][1..] == rest[..k];
      }
      if forall k {:trigger rest[k]} :: 0 <= k < |rest| ==> !Stray(Run(q, rest[..k]), rest[k], cid) {
        forall k | 0 < k < |es| ensures !Stray(Run(p, es[..k]), es[k], cid) { assert es[k] == rest[k - 1]; }
      } else {
        var k :| 0 <= k < |rest| && Stray(Run(q, rest[..k]), rest[k], cid);
        assert es[k + 1] == rest[k];
      }
    }
  }

  /** Over every run, on every connection still there: the credit returned is within the DATA that
      arrived, and is all of it if and only if no DATA arrived for a stream the connection had lost. */
  lemma ConnectionCreditExact(cfg: Config, es: seq<Event>, c: nat)
    requires c < |Run(Init(cfg), es).conns|
    ensures var conn := Run(Init(cfg), es).conns[c];
            && conn.refunded <= Delivered(Init(cfg), es, conn.id)
            && (conn.refunded == Delivered(Init(cfg), es, conn.id)
                <==> forall k {:trigger es[k]} :: 0 <= k < |es| ==> !Stray(Run(Init(cfg), es[..k]), es[k], conn.id))
  {
    hide Inv, Run;
    InitInv(cfg);
    RunKeeps(cfg, es);
    var p := Run(Init(cfg), es);
    DistinctOf(p);
    DistinctFound(p.conns, c);
    RunCredits(Init(cfg), es, p.conns[c].id);
    OwedExactly(Init(cfg), es, p.conns[c].id);
  }
}

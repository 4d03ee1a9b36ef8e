/**
 The proxy object: fields updated in place by the entry points of
 src/h2_proxy.c. Each method's new state is the specification function of its
 old state, so the theorems about runs speak about sequences of these calls.
 */
module H2Proxy {
  import opened Common
  import opened ResponseOrder
  import opened Relay
  import opened RelayProofs
  import opened RelayCallbacks
  import opened ProxyState

  method LookupStream(ss: seq<Stream>, id: nat) returns (i: nat)
    ensures i == FindStream(ss, id)
  {
    i := 0;
    while i < |ss| && ss[i].id != id
      invariant i <= |ss|
      invariant forall j :: 0 <= j < i ==> ss[j].id != id
    {
      i := i + 1;
    }
  }

  method LookupConn(cs: seq<Conn>, id: nat) returns (i: nat)
    ensures i == FindConn(cs, id)
  {
    i := 0;
    while i < |cs| && cs[i].id != id
      invariant i <= |cs|
      invariant forall j :: 0 <= j < i ==> cs[j].id != id
    {
      i := i + 1;
    }
  }

  method LookupGroup(gs: seq<Group>, key: nat) returns (i: nat)
    ensures i == FindGroup(gs, key)
  {
    i := 0;
    while i < |gs| && gs[i].key != key
      invariant i <= |gs|
      invariant forall j :: 0 <= j < i ==> gs[j].key != key
    {
      i := i + 1;
    }
  }

  /** backend_available's scan. */
  method LookupFree(cs: seq<Conn>, max: nat) returns (i: nat)
    ensures i == FreeConn(cs, max)
  {
    i := 0;
    while i < |cs| && cs[i].count >= max
      invariant i <= |cs|
      invariant forall j :: 0 <= j < i ==> cs[j].count >= max
    {
      i := i + 1;
    }
  }

  method ScanFrom(ss: seq<Stream>, key: nat, from: nat) returns (i: nat)
    requires from <= |ss|
    ensures i == FirstFrom(ss, key, from)
  {
    i := from;
    while i < |ss| && ss[i].key != key
      invariant from <= i <= |ss|
      invariant forall j :: from <= j < i ==> ss[j].key != key
    {
      i := i + 1;
    }
  }

  method ScanNext(ss: seq<Stream>, key: nat, i: nat) returns (j: nat)
    requires i < |ss|
    ensures j == NextMember(ss, key, i)
  {
    j := ScanFrom(ss, key, i + 1);
    if j == |ss| {
      j := ScanFrom(ss, key, 0);
    }
  }

  class Proxy {
    var cfg: Config
    var streams: seq<Stream>
    var conns: seq<Conn>
    var connCount: nat
    var groups: seq<Group>
    var nextStream: nat
    var nextConn: nat

    ghost function View(): State
      reads this
    {
      State(cfg, streams, conns, connCount, groups, nextStream, nextConn)
    }

    constructor (config: Config)
      ensures View() == Init(config)
    {
      cfg := Normalize(config);
      streams, conns, connCount, groups, nextStream, nextConn := [], [], 0, [], 0, 0;
    }

    // ---- helpers ----

    method PutStream(i: nat, s: Stream)
      requires i < |streams|
      modifies this
      ensures View() == Put(old(View()), i, s)
    {
      var b := streams[i].backend;
      streams := streams[i := s];
      if b.Some? && s.backend.None? {
        var c := LookupConn(conns, b.value);
        if c < |conns| && conns[c].count > 0 {
          conns := conns[c := conns[c].(count := conns[c].count - 1)];
        }
      }
    }

    method MoveCursor(key: nat, cursor: Option<nat>)
      modifies this
      ensures View() == SetCursor(old(View()), key, cursor)
    {
      var g := LookupGroup(groups, key);
      if g < |groups| {
        groups := groups[g := groups[g].(cursor := cursor)];
      }
    }

    // ---- stream_create, stream_destroy ----

    method StreamCreate(key: nat)
      modifies this
      ensures View() == CreateStream(old(View()), key)
    {
      var id := nextStream;
      var g := LookupGroup(groups, key);
      if g == |groups| {
        groups := [Group(key, Some(id), 1)] + groups;
      } else {
        var grown := groups[g].(count := groups[g].count + 1);
        if grown.cursor.None? {
          grown := grown.(cursor := Some(id));
        }
        groups := groups[g := grown];
      }
      streams := [NewStream(id, key, None)] + streams;
      nextStream := id + 1;
    }

    method StreamDestroy(i: nat)
      requires i < |streams|
      modifies this
      ensures View() == DestroyStream(old(View()), i)
    {
      var s := streams[i];
      var successor := if i + 1 < |streams| then Some(streams[i + 1].id) else None;
      streams := streams[..i] + streams[i + 1..];
      LeaveBackend(s);
      var g := LookupGroup(groups, s.key);
      if g < |groups| {
        var left := groups[g];
        if left.cursor == Some(s.id) {
          left := left.(cursor := successor);
        }
        if left.count <= 1 {
          groups := groups[..g] + groups[g + 1..];
        } else {
          groups := groups[g := left.(count := left.count - 1)];
        }
      }
    }

    method LeaveBackend(s: Stream)
      modifies `conns
      ensures conns == if s.backend.Some? then ProxyState.Release(old(conns), s.backend.value) else old(conns)
    {
      if s.backend.Some? {
        var c := LookupConn(conns, s.backend.value);
        if c < |conns| && conns[c].count > 0 {
          conns := conns[c := conns[c].(count := conns[c].count - 1)];
        }
      }
    }

    // ---- backend_destroy ----

    method BackendDestroy(cid: nat, gateway: seq<Reply>)
      modifies this
      ensures View() == DestroyBackend(old(View()), cid, gateway)
    {
      var c := LookupConn(conns, cid);
      if c == |conns| { return; }
      conns := conns[..c] + conns[c + 1..];
      ghost var was := streams;
      var i := 0;
      while i < |streams|
        invariant i <= |streams| == |was|
        invariant streams[..i] == LoseBackend(was, cid, gateway)[..i] && streams[i..] == was[i..]
        invariant conns == Remove(old(conns), c) && cfg == old(cfg) && connCount == old(connCount)
        invariant groups == old(groups) && nextStream == old(nextStream) && nextConn == old(nextConn)
      {
        assert streams[i] == was[i];
        if streams[i].backend == Some(cid) {
          streams := streams[i := BackendGone(streams[i], ReplyAt(gateway, i))];
        }
        i := i + 1;
      }
      assert streams == LoseBackend(was, cid, gateway);
      if connCount > 0 {
        connCount := connCount - 1;
      }
    }

    // ---- send_pressure_run_round ----

    method RoundStart(key: nat) returns (i: nat)
      ensures i == StartAt(View(), key)
    {
      var g := LookupGroup(groups, key);
      if g == |groups| { return |streams|; }
      i := |streams|;
      if groups[g].cursor.Some? {
        i := LookupStream(streams, groups[g].cursor.value);
      }
      if i == |streams| || streams[i].key != key {
        i := ScanFrom(streams, key, 0);
      }
    }

    /** One stream drains until HTTP/3 pushes back; a failed flush closes its request. */
    method GiveTurn(key: nat, i: nat, replies: seq<Reply>) returns (next: nat)
      requires i < |streams|
      modifies this
      ensures View() == TakeTurn(old(View()), key, i, replies)
      ensures next == NextMember(old(streams), key, i)
    {
      next := ScanNext(streams, key, i);
      var cursor := IdAt(streams, next);
      var s, ok := FlushResponse(streams[i], replies);
      FlushEnds(streams[i], replies);
      if !ok {
        s := s.(life := s.life.(fate := Closing));
      }
      PutStream(i, s);
      MoveCursor(key, cursor);
    }

    method HoldTurn(key: nat, i: nat)
      requires i < |streams|
      modifies this
      ensures View() == HoldAt(old(View()), key, i)
    {
      var s := streams[i];
      PutStream(i, SetBlocked(s, true));
      MoveCursor(key, Some(s.id));
    }

    method RunRound(key: nat, offers: seq<Offer>) returns (took: seq<nat>)
      modifies this
      ensures View() == ProxyState.RunRound(old(View()), key, offers).0
      ensures took == ProxyState.RunRound(old(View()), key, offers).1
    {
      hide TakeTurn, HoldAt;
      took := [];
      var g := LookupGroup(groups, key);
      if g == |groups| { return; }
      var remaining: nat := groups[g].count;
      var i: nat := RoundStart(key);
      var os := offers;
      ghost var full := RoundFrom(View(), key, i, remaining, os);
      while i < |streams| && remaining > 0
        invariant RoundFrom(View(), key, i, remaining, os).0 == full.0
        invariant took + RoundFrom(View(), key, i, remaining, os).1 == full.1
        decreases remaining
      {
        if NextOffer(os).unsent >= UNSENT_MAX {
          HoldTurn(key, i);
          return;
        }
        took := took + [streams[i].id];
        i := GiveTurn(key, i, NextOffer(os).replies);
        remaining, os := remaining - 1, Later(os);
      }
    }

    // ---- the entry points ----

    method TickAt(now: nat, rounds: seq<seq<Offer>>)
      modifies this
      ensures View() == Step(old(View()), ProxyState.TickAt(now, rounds))
    {
      hide RunRounds, Evict;
      var cutoff := if now > cfg.timeoutSec then now - cfg.timeoutSec else 0;
      RunAllRounds(rounds);
      EvictIdle(cutoff);
    }

    method RunAllRounds(rounds: seq<seq<Offer>>)
      modifies this
      ensures View() == RunRounds(old(View()), Keys(old(groups)), rounds)
    {
      hide ProxyState.RunRound;
      var keys := Keys(groups);
      var k := 0;
      var rest := rounds;
      while k < |keys|
        invariant k <= |keys|
        invariant RunRounds(View(), keys[k..], rest) == RunRounds(old(View()), keys, rounds)
      {
        assert keys[k..][0] == keys[k] && keys[k..][1..] == keys[k + 1..];
        var took := RunRound(keys[k], if rest == [] then [] else rest[0]);
        k, rest := k + 1, Later(rest);
      }
    }

    method EvictIdle(cutoff: nat)
      modifies this
      ensures View() == Evict(old(View()), ConnIds(old(conns)), cutoff)
    {
      hide DestroyBackend;
      var ids := ConnIds(conns);
      var k := 0;
      while k < |ids|
        invariant k <= |ids|
        invariant Evict(View(), ids[k..], cutoff) == Evict(old(View()), ids, cutoff)
      {
        assert ids[k..][0] == ids[k] && ids[k..][1..] == ids[k + 1..];
        var c := LookupConn(conns, ids[k]);
        if c < |conns| && conns[c].count == 0 && conns[c].lastActive < cutoff {
          BackendDestroy(ids[k], []);
        }
        k := k + 1;
      }
    }

    method OnWritable(sid: nat, offers: seq<Offer>)
      modifies this
      ensures View() == Step(old(View()), Writable(sid, offers))
    {
      hide ProxyState.RunRound;
      var i := LookupStream(streams, sid);
      if i < |streams| {
        var took := RunRound(streams[i].key, offers);
      }
    }

    method OnRequestClose(sid: nat)
      modifies this
      ensures View() == Step(old(View()), RequestClose(sid))
    {
      var i := LookupStream(streams, sid);
      if i < |streams| {
        StreamDestroy(i);
      }
    }

    /** h2_proxy_handle_request: served exactly if some connection has room or one may be and is opened,
        and nghttp2 takes the request. One that is not is told 502, once, if HTTP/3 takes that, and
        leaves no stream behind. */
    method HandleRequest(key: nat, dialed: bool, submitted: bool, now: nat, reply: Reply)
      returns (served: bool, told: seq<Token>)
      modifies this
      ensures View() == Step(old(View()), Request(key, dialed, submitted, now))
      ensures served <==> submitted && (FreeConn(old(conns), old(cfg).maxStreams) < old(|conns|) || (old(connCount) < old(cfg).maxConns && dialed))
      ensures if served then |streams| > 0 && streams[1..] == old(streams) && streams[0].backend.Some? else streams == old(streams)
      ensures told == if !served && reply.Accept? then [Head(BAD_GATEWAY), Fin] else []
    {
      hide CreateStream, DestroyStream, Attach;
      served, told := false, if reply.Accept? then [Head(BAD_GATEWAY), Fin] else [];
      StreamCreate(key);
      NewHead(old(View()), key);
      var c := LookupFree(conns, cfg.maxStreams);
      if c == |conns| {
        if connCount >= cfg.maxConns || !dialed {
          DropHead(View());
          StreamDestroy(0);
          return;
        }
        conns := [Conn(nextConn, 0, now, 0)] + conns;
        connCount, nextConn, c := connCount + 1, nextConn + 1, 0;
      }
      Submit(c, submitted);
      if submitted { served, told := true, []; }
    }

    /** Bind the new request to connection c and submit it. */
    method Submit(c: nat, submitted: bool)
      requires |streams| > 0 && c < |conns|
      modifies this
      ensures View() == Attach(old(View()), c, submitted)
      ensures if submitted then |streams| > 0 && streams[1..] == old(streams[1..]) && streams[0].backend.Some? else streams == old(streams[1..])
    {
      hide DestroyStream;
      streams := streams[0 := streams[0].(backend := Some(conns[c].id))];
      conns := conns[c := conns[c].(count := conns[c].count + 1)];
      if !submitted {
        DropHead(View());
        StreamDestroy(0);
      }
    }

    /** A callback's outcome: the new record, and the loss of the connection if it failed. */
    method Conclude(i: nat, s: Stream, ok: bool, cid: nat, gateway: seq<Reply>)
      requires i < |streams|
      modifies this
      ensures View() == Finish(old(View()), i, Flow(s, [], if ok then Stop else Fail), cid, gateway)
    {
      PutStream(i, s);
      if !ok {
        BackendDestroy(cid, gateway);
      }
    }

    method OnHeaders(cid: nat, sid: nat, fields: seq<Header>, end: bool, replies: seq<Reply>, gateway: seq<Reply>)
      modifies this
      ensures View() == Step(old(View()), Headers(cid, sid, fields, end, replies, gateway))
    {
      hide Finish;
      var i := LookupStream(streams, sid);
      if i == |streams| || streams[i].backend != Some(cid) || !AdmitsHeaders(streams[i], end) { return; }
      var s, ok := HeadersOn(streams[i], fields, end, replies);
      FinishOut(View(), i, Relay.OnHeaders(streams[i], fields, end, replies), cid, gateway);
      Conclude(i, s, ok, cid, gateway);
    }

    method OnDataChunk(cid: nat, sid: nat, data: seq<Byte>, credit: bool, replies: seq<Reply>, gateway: seq<Reply>)
      modifies this
      ensures View() == Step(old(View()), Data(cid, sid, data, credit, replies, gateway))
    {
      hide Finish, Fits;
      var i := LookupStream(streams, sid);
      if i == |streams| || streams[i].backend != Some(cid) || !AdmitsData(streams[i]) { return; }
      var s, fits, ok := ChunkOn(streams[i], data, cfg.maxBuffer, credit, replies);
      ghost var f := OnChunk(streams[i], data, cfg.maxBuffer, credit, replies);
      if fits && credit {
        ConsumeConnection(cid, |data|);
      }
      FinishOut(View(), i, f, cid, gateway);
      Conclude(i, s, ok, cid, gateway);
    }

    method OnDataEnd(cid: nat, sid: nat, replies: seq<Reply>, gateway: seq<Reply>)
      modifies this
      ensures View() == Step(old(View()), DataEnd(cid, sid, replies, gateway))
    {
      hide Finish;
      var i := LookupStream(streams, sid);
      if i == |streams| || streams[i].backend != Some(cid) || !AdmitsData(streams[i]) { return; }
      var was := streams[i];
      var s, ok := FlushResponse(was.(life := was.life.(eof := true),
                                      log := was.log.(received := was.log.received + FinIf(!was.life.eof))), replies);
      FinishOut(View(), i, Relay.OnDataEnd(was, replies), cid, gateway);
      Conclude(i, s, ok, cid, gateway);
    }

    method OnStreamClose(cid: nat, sid: nat, error: bool)
      modifies this
      ensures View() == Step(old(View()), StreamClose(cid, sid, error))
    {
      var i := LookupStream(streams, sid);
      if i == |streams| || streams[i].backend != Some(cid) || streams[i].life.backendClosed { return; }
      PutStream(i, Relay.OnStreamClose(streams[i], error));
    }

    method ConsumeConnection(cid: nat, n: nat)
      modifies this
      ensures View() == Credit(old(View()), cid, n)
    {
      var c := LookupConn(conns, cid);
      if c < |conns| {
        conns := conns[c := conns[c].(refunded := conns[c].refunded + n)];
      }
    }

    /** h2_proxy_needs_tick: some unfinished response has something to send. */
    method NeedsTick() returns (needed: bool)
      ensures needed <==> exists i :: 0 <= i < |streams| && HasWork(streams[i])
    {
      needed := false;
      for i := 0 to |streams|
        invariant forall j :: 0 <= j < i ==> !HasWork(streams[j])
      {
        var s := streams[i];
        if s.life.finSent { continue; }
        if s.hdr.pending || |s.buf.body| > s.buf.off || s.life.eof {
          return true;
        }
      }
    }
  }

  method HeadersOn(was: Stream, fields: seq<Header>, end: bool, replies: seq<Reply>) returns (s: Stream, ok: bool)
    ensures s == Relay.OnHeaders(was, fields, end, replies).s
    ensures ok <==> Relay.OnHeaders(was, fields, end, replies).out == Stop
  {
    if was.hdr.pending { return was, false; }
    var c, good := CollectHeaders(Collect([], 0, false, was.life.started, false, false), fields);
    if !good || (!c.trailers && !c.statusSeen) || (c.informational && end) {
      return was.(hdr := c), false;
    }
    s, ok := FlushResponse(WithBlock(was, c, end), replies);
  }

  method ChunkOn(was: Stream, data: seq<Byte>, limit: nat, credit: bool, replies: seq<Reply>)
    returns (s: Stream, fits: bool, ok: bool)
    ensures s == OnChunk(was, data, limit, credit, replies).s
    ensures fits <==> Fits(was.buf, data, limit)
    ensures ok <==> OnChunk(was, data, limit, credit, replies).out == Stop
  {
    var body, off;
    fits, body, off := BufferAppend(was.buf.body, was.buf.off, data, limit);
    if !fits { return was, fits, false; }
    assert data != [] ==> body == body[off..];
    s := was.(buf := was.buf.(body := body, off := off), log := was.log.(received := was.log.received + Octets(data)));
    if !credit { return s, fits, false; }
    s := s.(buf := s.buf.(unconsumed := s.buf.unconsumed + |data|));
    assert s == Buffered(was, data);
    s, ok := FlushResponse(s, replies);
  }

  lemma NewHead(p: State, key: nat)
    ensures var q := CreateStream(p, key);
            |q.streams| > 0 && q.streams[1..] == p.streams && q.conns == p.conns && q.connCount == p.connCount && q.cfg == p.cfg
  {
  }

  lemma DropHead(p: State)
    requires |p.streams| > 0
    ensures DestroyStream(p, 0).streams == p.streams[1..]
  {
  }

  /** Only the record and whether the callback failed matter to what follows. */
  lemma FinishOut(p: State, i: nat, f: Flow, cid: nat, gateway: seq<Reply>)
    requires i < |p.streams|
    ensures Finish(p, i, f, cid, gateway) ==
            Finish(p, i, Flow(f.s, [], if f.out == Fail then Fail else Stop), cid, gateway)
  {
  }

  lemma FlushEnds(s: Stream, rs: seq<Reply>)
    ensures Flush(s, rs).out != Go
  {
    if !s.life.finSent {
      var f1 := FlushHead(s, rs);
    }
  }
}

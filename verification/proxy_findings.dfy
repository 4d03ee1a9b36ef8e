/**
 Where the proxy does not meet what one would expect of it: concrete runs, and
 the exact condition under which each expectation fails.
 */
module ProxyFindings {
  import opened Common
  import opened ResponseOrder
  import opened Relay
  import opened RelayProofs
  import opened RelayInvariant
  import opened RelayCallbacks
  import opened RelayProgress
  import opened ProxyState
  import opened ProxyPopulation
  import opened ProxyCredit
  import opened ProxyCursor

  const OK: Block := [Header(":status", "200")]

  // ---- a refused 502 and a bare FIN ----

  /** One response with END_STREAM on its headers, refused by HTTP/3 once; the backend fails and the
      502 is refused too; then HTTP/3 accepts the FIN. */
  const BARE_FIN: seq<Event> :=
    [Request(1, true, true, 0), Headers(0, 0, OK, true, [], []), BackendLost(0, []),
     Writable(0, [Offer(0, [Accept(0, true)])])]

  lemma FirstRequest(cfg: Config)
    ensures Step(Init(cfg), Request(1, true, true, 0)) ==
            State(Normalize(cfg), [NewStream(0, 1, Some(0))], [Conn(0, 1, 0, 0)], 1,
                  [Group(1, Some(0), 1)], 1, 1)
  {
    var p1 := CreateStream(Init(cfg), 1);
    assert p1.groups == [Group(1, Some(0), 1)] && p1.streams == [NewStream(0, 1, None)];
    assert FreeConn(p1.conns, p1.cfg.maxStreams) == 0;
    var p2 := OpenBackend(p1, 0);
    assert p2.conns == [Conn(0, 0, 0, 0)];
  }

  lemma RefusedHead(s: Stream)
    requires s == NewStream(0, 1, Some(0))
    ensures var f := OnHeaders(s, OK, true, []);
            && f.out == Stop && f.s.id == 0 && f.s.key == 1 && f.s.backend == Some(0)
            && f.s.life == Life(true, false, false, false, Relaying) && f.s.log.sent == []
            && AdmitsHeaders(s, true)
  {
    var h := OK[0];
    assert GoodStatus("200");
    assert CollectAll(Collect([h], 10, false, false, false, true), []) == (Collect([h], 10, false, false, false, true), true);
    assert OK[1..] == [];
  }

  lemma RefusedThenFin(s: Stream)
    requires s.backend == Some(0) && s.life == Life(true, false, false, false, Relaying) && s.log.sent == []
    ensures var t := BackendGone(s, Again);
            && t.life == Life(true, false, false, true, Refused) && t.id == s.id && t.key == s.key
            && Turn(t, [Accept(0, true)]).life.finSent && Turn(t, [Accept(0, true)]).log.sent == [Fin]
  {
    var t := BackendGone(s, Again);
    var rs := [Accept(0, true)];
    assert FlushHead(t, rs) == Flow(t, rs, Go);
    assert FlushBody(t, rs) == Flow(t, rs, Go);
    assert FlushTrailers(t, rs) == Flow(t, rs, Go);
    assert [] + [Fin] == [Fin];
  }

  lemma RefusedHeadStep(p: State)
    requires |p.streams| == 1 && p.streams[0] == NewStream(0, 1, Some(0))
    ensures var q := Step(p, BARE_FIN[1]);
            && |q.streams| == 1 && q.streams[0] == OnHeaders(p.streams[0], OK, true, []).s
            && q.conns == p.conns && q.groups == p.groups
  {
    RefusedHead(p.streams[0]);
    assert FindStream(p.streams, 0) == 0;
  }

  lemma RefusedGatewayStep(p: State)
    requires |p.streams| == 1 && p.streams[0].backend == Some(0) && |p.conns| == 1 && p.conns[0].id == 0
    ensures var q := Step(p, BARE_FIN[2]);
            |q.streams| == 1 && q.streams[0] == BackendGone(p.streams[0], Again) && q.groups == p.groups
  {
    assert FindConn(p.conns, 0) == 0;
  }

  /** After that run HTTP/3 has seen a FIN and no response headers. */
  lemma BareFinRun(cfg: Config)
    ensures var p := Run(Init(cfg), BARE_FIN);
            |p.streams| == 1 && p.streams[0].log.sent == [Fin] && PhaseOf(p.streams[0].log.sent) == Broken
  {
    hide Step, OnHeaders, BackendGone, Turn;
    var p0 := Init(cfg);
    FirstRequest(cfg);
    var p1 := Step(p0, BARE_FIN[0]);
    RefusedHead(p1.streams[0]);
    RefusedHeadStep(p1);
    var p2 := Step(p1, BARE_FIN[1]);
    RefusedThenFin(p2.streams[0]);
    RefusedGatewayStep(p2);
    var p3 := Step(p2, BARE_FIN[2]);
    LoneTurn(p3, 0, 1, [Offer(0, [Accept(0, true)])]);
    PhaseFin(AwaitFinal);
    RunFour(p0, p1, p2, p3, Step(p3, BARE_FIN[3]), BARE_FIN);
  }

  /** A round over a single stream gives it one turn. */
  lemma LoneTurn(p: State, sid: nat, key: nat, offers: seq<Offer>)
    requires |p.streams| == 1 && p.streams[0].id == sid && p.streams[0].key == key
    requires |p.groups| == 1 && p.groups[0] == Group(key, Some(sid), 1)
    requires NextOffer(offers).unsent < UNSENT_MAX
    ensures Step(p, Writable(sid, offers)).streams == [Turn(p.streams[0], NextOffer(offers).replies)]
  {
    var p1 := TakeTurn(p, key, 0, NextOffer(offers).replies);
    assert StartAt(p, key) == 0;
    assert RoundFrom(p1, key, NextMember(p.streams, key, 0), 0, Later(offers)).0 == p1;
    assert RoundFrom(p, key, 0, 1, offers).0 == p1;
    assert p1.streams == [Turn(p.streams[0], NextOffer(offers).replies)];
  }

  lemma RunFour(p0: State, p1: State, p2: State, p3: State, p4: State, es: seq<Event>)
    requires |es| == 4 && p1 == Step(p0, es[0]) && p2 == Step(p1, es[1]) && p3 == Step(p2, es[2]) && p4 == Step(p3, es[3])
    ensures Run(p0, es) == p4
  {
    hide Step;
    assert es[1..][0] == es[1] && es[2..][0] == es[2] && es[3..][0] == es[3];
    assert es[1..][1..] == es[2..] && es[2..][1..] == es[3..] && es[3..][1..] == [];
    assert Run(p4, []) == p4;
    assert Run(p3, es[3..]) == p4;
    assert Run(p2, es[2..]) == p4;
    assert Run(p1, es[1..]) == p4;
  }

  // ---- a response cut off without an error ----

  /** Response headers without END_STREAM, then the backend closes the stream with NO_ERROR. */
  const CUT_OFF: seq<Event> :=
    [Request(1, true, true, 0), Headers(0, 0, OK, false, [Accept(0, true)], []), StreamClose(0, 0, false), Writable(0, [])]

  /** The headers were relayed and there is nothing left to do. */
  ghost predicate HeadOnly(s: Stream, closed: bool) {
    && s.id == 0 && s.key == 1 && s.backend == Some(0) && s.life == Life(false, false, true, closed, Relaying)
    && s.log.sent == [Head(OK)] == s.log.received && !s.hdr.pending && s.buf == Buffer([], 0, 0) && s.wake == Wake(false, false)
  }

  lemma HeadRelayed(s: Stream)
    requires s == NewStream(0, 1, Some(0))
    ensures var f := OnHeaders(s, OK, false, [Accept(0, true)]);
            f.out == Stop && HeadOnly(f.s, false) && AdmitsHeaders(s, false)
  {
    var h, rs := OK[0], [Accept(0, true)];
    assert GoodStatus("200");
    var c := Collect([h], 10, false, false, false, true);
    assert CollectAll(c, []) == (c, true);
    assert OK[1..] == [];
    assert !HopByHop(h) by { assert h.name[0] == ':'; }
    assert [] + [h] == [h];
    assert CollectField(Collect([], 0, false, false, false, false), h) == (c, true);
    var t := s.(hdr := c.(pending := true), log := s.log.(received := s.log.received + ([Head(c.block)] + FinIf(false))));
    assert t.log.received == [Head(OK)];
    var f1 := FlushHead(t, rs);
    assert f1.s.log.sent == [Head(OK)] && f1.s.buf == Buffer([], 0, 0);
    assert FlushBody(f1.s, f1.rest) == Flow(f1.s, f1.rest, Go);
    assert FlushTrailers(f1.s, f1.rest) == Flow(f1.s, f1.rest, Go);
    assert OnHeaders(s, OK, false, rs) == Flush(t, rs);
    assert Flush(t, rs) == Flow(Settle(f1.s), f1.rest, Stop);
    assert f1.s.life == Life(false, false, true, false, Relaying);
    assert Settle(f1.s).wake == Wake(false, false);
  }

  lemma HeadRelayedStep(p: State)
    requires |p.streams| == 1 && p.streams[0] == NewStream(0, 1, Some(0)) && p.groups == [Group(1, Some(0), 1)]
    ensures var q := Step(p, CUT_OFF[1]); |q.streams| == 1 && HeadOnly(q.streams[0], false) && q.groups == p.groups
  {
    hide OnHeaders;
    HeadRelayed(p.streams[0]);
    assert FindStream(p.streams, 0) == 0;
  }

  lemma CutOffStep(p: State)
    requires |p.streams| == 1 && HeadOnly(p.streams[0], false)
    ensures var q := Step(p, CUT_OFF[2]); |q.streams| == 1 && HeadOnly(q.streams[0], true) && q.groups == p.groups
  {
    assert FindStream(p.streams, 0) == 0;
  }

  lemma IdleHead(s: Stream)
    requires HeadOnly(s, true)
    ensures HeadOnly(Turn(s, []), true)
  {
    assert FlushBody(s, []) == Flow(s, [], Go);
  }

  /** After that run the response is open, idle and unarmed, and no turn ever ends it. */
  lemma CutOffRun(cfg: Config)
    ensures var p := Run(Init(cfg), CUT_OFF);
            && |p.streams| == 1 && HeadOnly(p.streams[0], true) && !HasWork(p.streams[0])
            && forall acts :: !Acts(p.streams[0], acts).life.finSent
  {
    hide Step, Turn, NewStream;
    var p0 := Init(cfg);
    FirstRequest(cfg);
    var p1 := Step(p0, CUT_OFF[0]);
    HeadRelayedStep(p1);
    var p2 := Step(p1, CUT_OFF[1]);
    CutOffStep(p2);
    var p3 := Step(p2, CUT_OFF[2]);
    LoneTurn(p3, 0, 1, []);
    IdleHead(p3.streams[0]);
    RunFour(p0, p1, p2, p3, Step(p3, CUT_OFF[3]), CUT_OFF);
    RunKeeps(cfg, CUT_OFF);
    CutOffForever(Run(p0, CUT_OFF));
  }

  lemma CutOffForever(p: State)
    requires Inv(p) && |p.streams| == 1 && HeadOnly(p.streams[0], true)
    ensures !HasWork(p.streams[0]) && forall acts :: !Acts(p.streams[0], acts).life.finSent
  {
    var s := p.streams[0];
    assert StreamInv(s, p.cfg.maxBuffer);
    forall acts ensures !Acts(s, acts).life.finSent { NeverEnds(s, acts, p.cfg.maxBuffer); }
  }

  // ---- connection credit of data that arrives for a closed request ----

  /** A request is closed and one byte of its DATA still arrives. */
  const LATE_DATA: seq<Event> :=
    [Request(1, true, true, 0), RequestClose(0), Data(0, 0, [7], true, [], []), BackendActive(0, 0)]

  lemma LateDataRun(cfg: Config)
    ensures var p := Run(Init(cfg), LATE_DATA);
            |p.conns| == 1 && p.conns[0].refunded == 0 && Delivered(Init(cfg), LATE_DATA, p.conns[0].id) == 1
  {
    hide Step;
    var p0 := Init(cfg);
    FirstRequest(cfg);
    var p1 := Step(p0, LATE_DATA[0]);
    var p2 := Step(p1, LATE_DATA[1]);
    CloseOnly(p1);
    var p3 := Step(p2, LATE_DATA[2]);
    LateChunk(p2);
    var p4 := Step(p3, LATE_DATA[3]);
    Touch(p3);
    RunFour(p0, p1, p2, p3, p4, LATE_DATA);
    DeliveredFour(p0, p1, p2, p3, LATE_DATA, 0);
    assert FindConn(p2.conns, 0) == 0;
  }

  lemma DeliveredFour(p0: State, p1: State, p2: State, p3: State, es: seq<Event>, cid: nat)
    requires |es| == 4 && p1 == Step(p0, es[0]) && p2 == Step(p1, es[1]) && p3 == Step(p2, es[2])
    requires !es[0].Data? && !es[1].Data? && es[2].Data? && !es[3].Data?
    ensures Delivered(p0, es, cid) == if Arrives(p2, es[2], cid) then |es[2].data| else 0
  {
    hide Step, Arrives;
    assert es[1..][0] == es[1] && es[2..][0] == es[2] && es[3..][0] == es[3];
    assert es[1..][1..] == es[2..] && es[2..][1..] == es[3..] && es[3..][1..] == [];
    NotData(p0, es[0], cid);
    NotData(p1, es[1], cid);
    NotData(p3, es[3], cid);
    assert Delivered(p3, es[3..], cid) == 0 + Delivered(Step(p3, es[3]), [], cid);
    assert Delivered(p2, es[2..], cid) == (if Arrives(p2, es[2], cid) then |es[2].data| else 0) + Delivered(p3, es[3..], cid);
    assert Delivered(p1, es[1..], cid) == Delivered(p2, es[2..], cid);
  }

  lemma NotData(p: State, e: Event, cid: nat)
    requires !e.Data?
    ensures !Arrives(p, e, cid)
  {
  }

  lemma CloseOnly(p: State)
    requires p.streams == [NewStream(0, 1, Some(0))] && p.conns == [Conn(0, 1, 0, 0)]
    ensures var q := Step(p, RequestClose(0)); q.streams == [] && q.conns == [Conn(0, 0, 0, 0)]
  {
    assert FindStream(p.streams, 0) == 0 && FindConn(p.conns, 0) == 0;
  }

  lemma LateChunk(p: State)
    requires p.streams == [] && p.conns == [Conn(0, 0, 0, 0)]
    ensures Step(p, Data(0, 0, [7], true, [], [])).conns == [Conn(0, 0, 0, 0)]
  {
    assert FindConn(p.conns, 0) == 0;
  }

  lemma Touch(p: State)
    requires p.conns == [Conn(0, 0, 0, 0)]
    ensures Step(p, BackendActive(0, 0)).conns == p.conns
  {
    assert FindConn(p.conns, 0) == 0;
  }

  // ---- the rotation cursor ----

  /** Two requests of one QUIC connection around one of another; the valve leaves the first group's
      cursor on its newest stream, then that stream and its list successor are closed. */
  const STALE_CURSOR: seq<Event> :=
    [Request(1, true, true, 0), Request(2, true, true, 0), Request(1, true, true, 0),
     Writable(0, [Offer(0, []), Offer(UNSENT_MAX, [])]), RequestClose(2), RequestClose(1)]

  function Three(streams: seq<Stream>, groups: seq<Group>, count: nat, next: nat): State {
    State(Normalize(Config(0, 0, 0, 0)), streams, [Conn(0, count, 0, 0)], 1, groups, next, 1)
  }

  lemma SecondRequest(p: State)
    requires p == Three([NewStream(0, 1, Some(0))], [Group(1, Some(0), 1)], 1, 1)
    ensures Step(p, STALE_CURSOR[1]) ==
            Three([NewStream(1, 2, Some(0)), NewStream(0, 1, Some(0))], [Group(2, Some(1), 1), Group(1, Some(0), 1)], 2, 2)
  {
    var p1 := CreateStream(p, 2);
    assert FreeConn(p1.conns, 100) == 0;
    assert p1.streams[0 := NewStream(1, 2, Some(0))] == [NewStream(1, 2, Some(0)), NewStream(0, 1, Some(0))];
    assert p1.groups == [Group(2, Some(1), 1), Group(1, Some(0), 1)];
  }

  lemma ThirdRequest(p: State)
    requires p == Three([NewStream(1, 2, Some(0)), NewStream(0, 1, Some(0))], [Group(2, Some(1), 1), Group(1, Some(0), 1)], 2, 2)
    ensures Step(p, STALE_CURSOR[2]) ==
            Three([NewStream(2, 1, Some(0)), NewStream(1, 2, Some(0)), NewStream(0, 1, Some(0))],
                  [Group(2, Some(1), 1), Group(1, Some(0), 2)], 3, 3)
  {
    var p1 := CreateStream(p, 1);
    assert FindGroup(p.groups, 1) == 1 by { assert p.groups[0].key == 2; }
    assert FreeConn(p1.conns, 100) == 0;
    assert p1.streams[0 := NewStream(2, 1, Some(0))] == [NewStream(2, 1, Some(0)), NewStream(1, 2, Some(0)), NewStream(0, 1, Some(0))];
    assert p1.groups == [Group(2, Some(1), 1), Group(1, Some(0), 2)];
  }

  lemma IdleTurn(s: Stream)
    requires s == NewStream(s.id, s.key, s.backend)
    ensures Turn(s, []) == s
  {
    assert FlushBody(s, []) == Flow(s, [], Go);
  }

  lemma ValveStep(p: State)
    requires p == Three([NewStream(2, 1, Some(0)), NewStream(1, 2, Some(0)), NewStream(0, 1, Some(0))],
                        [Group(2, Some(1), 1), Group(1, Some(0), 2)], 3, 3)
    ensures Step(p, STALE_CURSOR[3]) ==
            Three([SetBlocked(NewStream(2, 1, Some(0)), true), NewStream(1, 2, Some(0)), NewStream(0, 1, Some(0))],
                  [Group(2, Some(1), 1), Group(1, Some(2), 2)], 3, 3)
  {
    hide Turn;
    var offers := STALE_CURSOR[3].offers;
    assert FindStream(p.streams, 0) == 2 by { assert p.streams[0].id == 2 && p.streams[1].id == 1; }
    assert FindGroup(p.groups, 1) == 1 by { assert p.groups[0].key == 2; }
    assert FirstFrom(p.streams, 1, 3) == 3 && FirstFrom(p.streams, 1, 0) == 0;
    IdleTurn(p.streams[2]);
    var p1 := TakeTurn(p, 1, 2, []);
    assert p1 == p.(groups := [Group(2, Some(1), 1), Group(1, Some(2), 2)]);
    assert FindGroup(p1.groups, 1) == 1 by { assert p1.groups[0].key == 2; }
    var p2 := HoldAt(p1, 1, 0);
    assert p2.groups == p1.groups;
    assert RoundFrom(p1, 1, 0, 1, Later(offers)).0 == p2;
    assert RoundFrom(p, 1, 2, 2, offers).0 == p2;
  }

  lemma CloseBoth(p: State)
    requires p == Three([SetBlocked(NewStream(2, 1, Some(0)), true), NewStream(1, 2, Some(0)), NewStream(0, 1, Some(0))],
                        [Group(2, Some(1), 1), Group(1, Some(2), 2)], 3, 3)
    ensures var q := Step(Step(p, STALE_CURSOR[4]), STALE_CURSOR[5]);
            q.streams == [NewStream(0, 1, Some(0))] && q.groups == [Group(1, Some(1), 1)]
  {
    assert FindStream(p.streams, 2) == 0 && FindConn(p.conns, 0) == 0;
    assert FindGroup(p.groups, 1) == 1 by { assert p.groups[0].key == 2; }
    var q := Step(p, STALE_CURSOR[4]);
    assert q.streams == [NewStream(1, 2, Some(0)), NewStream(0, 1, Some(0))];
    assert q.groups == [Group(2, Some(1), 1), Group(1, Some(1), 1)];
    assert q.conns == [Conn(0, 2, 0, 0)];
    assert FindStream(q.streams, 1) == 0 && FindGroup(q.groups, 2) == 0;
  }

  /** After that run the surviving group's cursor names a stream that no longer exists. */
  lemma StaleCursorRun()
    ensures var p := Run(Init(Config(0, 0, 0, 0)), STALE_CURSOR);
            p.streams == [NewStream(0, 1, Some(0))] && p.groups == [Group(1, Some(1), 1)] && !CursorsListed(p)
  {
    hide Step, NewStream;
    var p0 := Init(Config(0, 0, 0, 0));
    FirstRequest(Config(0, 0, 0, 0));
    var p1 := Step(p0, STALE_CURSOR[0]);
    var p2 := Step(p1, STALE_CURSOR[1]);
    SecondRequest(p1);
    var p3 := Step(p2, STALE_CURSOR[2]);
    ThirdRequest(p2);
    var p4 := Step(p3, STALE_CURSOR[3]);
    ValveStep(p3);
    CloseBoth(p4);
    var p6 := Step(Step(p4, STALE_CURSOR[4]), STALE_CURSOR[5]);
    RunFour(p0, p1, p2, p3, p4, STALE_CURSOR[..4]);
    RunSplit(p0, STALE_CURSOR[..4], STALE_CURSOR[4..]);
    RunTwo(p4, STALE_CURSOR[4..]);
    assert STALE_CURSOR == STALE_CURSOR[..4] + STALE_CURSOR[4..];
    Orphan(p6);
  }

  lemma Orphan(p: State)
    requires p.streams == [NewStream(0, 1, Some(0))] && p.groups == [Group(1, Some(1), 1)]
    ensures !CursorsListed(p)
  {
    assert FindStream(p.streams, 1) == 1;
    assert !OnList(p.streams, p.groups[0].cursor);
  }

  lemma RunTwo(p: State, es: seq<Event>)
    requires |es| == 2
    ensures Run(p, es) == Step(Step(p, es[0]), es[1])
  {
    hide Step;
    assert es[1..][0] == es[1] && es[1..][1..] == [];
    assert Run(Step(Step(p, es[0]), es[1]), []) == Step(Step(p, es[0]), es[1]);
    assert Run(Step(p, es[0]), es[1..]) == Step(Step(p, es[0]), es[1]);
  }
}

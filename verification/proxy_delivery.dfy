/**
 What a relayed response was delivered, read off the events of the run: the
 fields that cross of every HEADERS, the bytes of every DATA, the end of stream,
 each for its own stream and in order. With the relay's losslessness, what
 HTTP/3 accepted and what is buffered are those events and nothing else.
 */
module ProxyDelivery {
  import opened Common
  import opened ResponseOrder
  import opened Relay
  import opened RelayProofs
  import opened RelayInvariant
  import opened RelayCallbacks
  import opened RelayHeaders
  import opened ProxyState
  import opened ProxyPopulation
  import opened ProxyRotation
  import opened ProxyService
  import opened ProxyDrain

  /** What event e brings for stream sid: nothing unless it is a frame for that stream, on the
      connection it is attached to, in the order nghttp2 enforces. */
  function Brought(p: State, e: Event, sid: nat): seq<Token> {
    var i := FindStream(p.streams, sid);
    if i == |p.streams| then []
    else match e
      case Headers(cid, to, fields, end, _, _) =>
        if to == sid && Owns(p, i, cid) && AdmitsHeaders(p.streams[i], end)
        then [Head(Forwarded(fields))] + (if end then [Fin] else []) else []
      case Data(cid, to, data, _, _, _) =>
        if to == sid && Owns(p, i, cid) && AdmitsData(p.streams[i]) then Octets(data) else []
      case DataEnd(cid, to, _, _) =>
        if to == sid && Owns(p, i, cid) && AdmitsData(p.streams[i]) then [Fin] else []
      case _ => []
  }

  function BroughtBy(p: State, es: seq<Event>, sid: nat): seq<Token>
    decreases es
  {
    if es == [] then [] else Brought(p, es[0], sid) + BroughtBy(Step(p, es[0]), es[1..], sid)
  }

  // ---- one record ----

  /** s became t and, if it is still relayed, was delivered exactly ts. */
  predicate Advances(s: Stream, t: Stream, ts: seq<Token>) {
    t.id == s.id && (t.life.fate == Relaying ==> s.life.fate == Relaying && t.log.received == s.log.received + ts)
  }

  /** The same of a callback, which may fail instead; then the response is not relayed any more. */
  predicate FlowAdvances(s: Stream, f: Flow, ts: seq<Token>) {
    && f.s.id == s.id && f.s.life.fate == s.life.fate && (f.out == Fail ==> f.s.backend == s.backend)
    && (s.life.fate == Relaying ==> f.s.log.received == s.log.received + ts || (f.out == Fail && !f.s.life.finSent))
  }

  lemma Unchanged(s: Stream)
    ensures Advances(s, s, []) && Advances(s, SetBlocked(s, true), [])
  {
    assert s.log.received + [] == s.log.received;
  }

  lemma TurnAdvances(s: Stream, rs: seq<Reply>)
    ensures Advances(s, Turn(s, rs), [])
  {
    hide Flush;
    FlushReceives(s, rs);
    TurnSame(s, rs);
    assert s.log.received + [] == s.log.received;
  }

  lemma GoneAdvances(s: Stream, reply: Reply)
    ensures Advances(s, BackendGone(s, reply), [])
    ensures !s.life.finSent ==> BackendGone(s, reply).life.fate != Relaying
  {
    assert s.log.received + [] == s.log.received;
  }

  lemma CloseAdvances(s: Stream, error: bool)
    ensures Advances(s, OnStreamClose(s, error), [])
  {
    assert s.log.received + [] == s.log.received;
  }

  lemma HeadersAdvance(s: Stream, fields: seq<Header>, end: bool, rs: seq<Reply>, limit: nat)
    requires StreamInv(s, limit) && AdmitsHeaders(s, end)
    ensures FlowAdvances(s, OnHeaders(s, fields, end, rs), [Head(Forwarded(fields))] + (if end then [Fin] else []))
  {
    hide CollectAll, Flush, Relayable, PhaseOf;
    CallbacksSame(s, fields, [], end, 0, rs);
    if s.life.fate == Relaying { Unfinished(s, limit); }
    var (c, ok) := CollectAll(Collect([], 0, false, s.life.started, false, false), fields);
    FlushReceives(WithBlock(s, c, end), rs);
    if !s.hdr.pending { HeadersRelayed(s, fields, end, rs); }
    if !s.hdr.pending && !Relayable(s, fields, end) { RejectedFin(s, fields, end, rs); }
  }

  lemma Unfinished(s: Stream, limit: nat)
    requires StreamInv(s, limit) && s.life.fate == Relaying && PhaseOf(s.log.received) in {AwaitFinal, Body}
    ensures !s.life.finSent && !s.life.eof
  {
    NothingAfterFin(s);
  }

  /** A rejected block leaves the rest of the record alone. */
  lemma RejectedFin(s: Stream, fields: seq<Header>, end: bool, rs: seq<Reply>)
    requires !s.hdr.pending && !Relayable(s, fields, end)
    ensures OnHeaders(s, fields, end, rs).s.life == s.life
  {
    hide CollectAll, Flush, Acceptable, HasStatus, Provisional;
    CollectsExactly(fields, s.life.started);
  }

  lemma ChunkAdvances(s: Stream, data: seq<Byte>, credit: bool, rs: seq<Reply>, limit: nat)
    requires StreamInv(s, limit) && AdmitsData(s)
    ensures FlowAdvances(s, OnChunk(s, data, limit, credit, rs), Octets(data))
  {
    hide Flush, PhaseOf;
    CallbacksSame(s, [], data, credit, limit, rs);
    if s.life.fate == Relaying { Unfinished(s, limit); }
    FlushReceives(Buffered(s, data), rs);
  }

  lemma EndAdvances(s: Stream, rs: seq<Reply>, limit: nat)
    requires StreamInv(s, limit) && AdmitsData(s)
    ensures FlowAdvances(s, OnDataEnd(s, rs), [Fin])
  {
    hide Flush, PhaseOf;
    CallbacksSame(s, [], [], false, 0, rs);
    if s.life.fate == Relaying { Unfinished(s, limit); }
    FlushReceives(Ending(s), rs);
  }

  // ---- one event on a list that keeps its streams ----

  ghost predicate AllAdvance(p: State, q: State, e: Event) {
    && |q.streams| == |p.streams| && q.nextStream == p.nextStream
    && forall j {:trigger q.streams[j]} :: 0 <= j < |p.streams| ==> Advances(p.streams[j], q.streams[j], Brought(p, e, p.streams[j].id))
  }

  lemma Found(p: State, j: nat)
    requires Inv(p) && j < |p.streams|
    ensures FindStream(p.streams, p.streams[j].id) == j
  {
    FoundStream(p.streams, j);
  }

  lemma FinishAdvances(p: State, i: nat, f: Flow, cid: nat, gateway: seq<Reply>, ts: seq<Token>, j: nat)
    requires Inv(p) && Owns(p, i, cid) && FlowAdvances(p.streams[i], f, ts) && j < |p.streams|
    ensures var q := Finish(p, i, f, cid, gateway);
            && |q.streams| == |p.streams| && q.nextStream == p.nextStream
            && Advances(p.streams[j], q.streams[j], if j == i then ts else [])
  {
    hide BackendGone;
    var p1 := Put(p, i, f.s);
    Unchanged(p.streams[j]);
    HasConn(p, i);
    if f.out == Fail {
      GoneAdvances(p1.streams[j], ReplyAt(gateway, j));
      if j == i { GoneIf(p.streams[i], f, BackendGone(f.s, ReplyAt(gateway, i)), ts); }
    }
  }

  lemma GoneIf(s: Stream, f: Flow, t: Stream, ts: seq<Token>)
    requires FlowAdvances(s, f, ts) && f.out == Fail && Advances(f.s, t, []) && (!f.s.life.finSent ==> t.life.fate != Relaying)
    ensures Advances(s, t, ts)
  {
    assert f.s.log.received + [] == f.s.log.received;
  }

  lemma FrameAdvances(p: State, e: Event)
    requires Inv(p) && (e.Headers? || e.Data? || e.DataEnd?)
    ensures AllAdvance(p, Step(p, e), e)
  {
    hide Inv, Step, AdmitsHeaders, AdmitsData, Advances;
    if Takes(p, e) {
      TakenAdvances(p, e);
    } else {
      FrameIgnored(p, e);
      forall j | 0 <= j < |p.streams| ensures Advances(p.streams[j], p.streams[j], Brought(p, e, p.streams[j].id)) {
        Found(p, j);
        Unchanged(p.streams[j]);
      }
    }
  }

  lemma FrameIgnored(p: State, e: Event)
    requires (e.Headers? || e.Data? || e.DataEnd?) && !Takes(p, e)
    ensures Step(p, e) == p
  {
  }

  lemma TakenAdvances(p: State, e: Event)
    requires Inv(p) && (e.Headers? || e.Data? || e.DataEnd?) && Takes(p, e)
    ensures AllAdvance(p, Step(p, e), e)
  {
    hide Inv, Step, Finish, AdmitsHeaders, AdmitsData, Advances, FlowAdvances;
    var i := FindStream(p.streams, e.sid);
    var f, p1, q := FlowOf(p, e, p.streams[i]), AfterCredit(p, e), Step(p, e);
    FrameTaken(p, e);
    CreditOnly(p, e);
    FlowOfAdvances(p, e);
    FinishAdvances(p1, i, f, e.cid, e.gateway, Tokens(e), i);
    forall j | 0 <= j < |p.streams| ensures Advances(p.streams[j], q.streams[j], Brought(p, e, p.streams[j].id)) {
      Found(p, j);
      FinishAdvances(p1, i, f, e.cid, e.gateway, Tokens(e), j);
    }
  }

  lemma FlowOfAdvances(p: State, e: Event)
    requires Inv(p) && (e.Headers? || e.Data? || e.DataEnd?) && Takes(p, e)
    ensures var s := p.streams[FindStream(p.streams, e.sid)]; FlowAdvances(s, FlowOf(p, e, s), Tokens(e))
  {
    hide Inv, OnHeaders, OnChunk, OnDataEnd, AdmitsHeaders, AdmitsData, FlowAdvances;
    var i := FindStream(p.streams, e.sid);
    InvOf(p, i);
    match e {
      case Headers(_, _, fields, end, rs, _) => HeadersAdvance(p.streams[i], fields, end, rs, p.cfg.maxBuffer);
      case Data(_, _, data, credit, rs, _) => ChunkAdvances(p.streams[i], data, credit, rs, p.cfg.maxBuffer);
      case DataEnd(_, _, rs, _) => EndAdvances(p.streams[i], rs, p.cfg.maxBuffer);
    }
  }

  /** The state in which the callback's outcome is recorded: DATA that is taken returns its credit first. */
  function AfterCredit(p: State, e: Event): State
    requires (e.Headers? || e.Data? || e.DataEnd?) && Takes(p, e)
  {
    if e.Data? && Fits(p.streams[FindStream(p.streams, e.sid)].buf, e.data, p.cfg.maxBuffer) && e.credit
    then Credit(p, e.cid, |e.data|) else p
  }

  lemma FrameTaken(p: State, e: Event)
    requires (e.Headers? || e.Data? || e.DataEnd?) && Takes(p, e)
    ensures var i := FindStream(p.streams, e.sid);
            && i < |AfterCredit(p, e).streams|
            && Step(p, e) == Finish(AfterCredit(p, e), i, FlowOf(p, e, p.streams[i]), e.cid, e.gateway)
  {
    hide Finish, OnHeaders, OnChunk, OnDataEnd, AdmitsHeaders, AdmitsData, Fits;
  }

  /** The frame is for a stream the proxy has, in order. */
  predicate Takes(p: State, e: Event)
    requires e.Headers? || e.Data? || e.DataEnd?
  {
    var i := FindStream(p.streams, e.sid);
    Owns(p, i, e.cid) && if e.Headers? then AdmitsHeaders(p.streams[i], e.end) else AdmitsData(p.streams[i])
  }

  function Tokens(e: Event): seq<Token>
    requires e.Headers? || e.Data? || e.DataEnd?
  {
    match e
    case Headers(_, _, fields, end, _, _) => [Head(Forwarded(fields))] + (if end then [Fin] else [])
    case Data(_, _, data, _, _, _) => Octets(data)
    case DataEnd(_, _, _, _) => [Fin]
  }

  function FlowOf(p: State, e: Event, s: Stream): Flow
    requires e.Headers? || e.Data? || e.DataEnd?
  {
    match e
    case Headers(_, _, fields, end, rs, _) => OnHeaders(s, fields, end, rs)
    case Data(_, _, data, credit, rs, _) => OnChunk(s, data, p.cfg.maxBuffer, credit, rs)
    case DataEnd(_, _, rs, _) => OnDataEnd(s, rs)
  }

  lemma InvOf(p: State, i: nat)
    requires Inv(p) && i < |p.streams|
    ensures StreamInv(p.streams[i], p.cfg.maxBuffer)
  {
  }

  lemma CreditOnly(p: State, e: Event)
    requires Inv(p)
    ensures e.Data? ==> var q := Credit(p, e.cid, |e.data|); Inv(q) && q.streams == p.streams && q.nextStream == p.nextStream
  {
    if e.Data? { CreditKeeps(p, e.cid, |e.data|); }
  }

  /** The other events on a list that keeps its streams deliver nothing. */
  lemma OthersAdvance(p: State, e: Event)
    requires Inv(p) && (e.StreamClose? || e.BackendLost? || e.BackendActive? || e.Writable? || e.TickAt?)
    ensures AllAdvance(p, Step(p, e), e)
  {
    hide Inv, Advances, BackendGone, OnStreamClose, Tick, RunRound, ServedBy;
    var q := Step(p, e);
    SameList(p, e);
    forall j | 0 <= j < |p.streams| ensures Advances(p.streams[j], q.streams[j], Brought(p, e, p.streams[j].id)) {
      Unchanged(p.streams[j]);
      match e {
        case StreamClose(_, sid, error) => CloseAdvances(p.streams[j], error);
        case BackendLost(_, gateway) => GoneAdvances(p.streams[j], ReplyAt(gateway, j));
        case BackendActive(_, _) =>
        case Writable(sid, offers) =>
          WritableDrains(p, sid, offers, j);
          ServedAdvances(p.streams[j], q.streams[j], TurnsOf(p, e, p.streams[j].key), offers);
        case TickAt(now, rounds) =>
          TickDrains(p, now, rounds, j);
          ServedAdvances(p.streams[j], q.streams[j], TurnsOf(p, e, p.streams[j].key), RoundAt(rounds, FindGroup(p.groups, p.streams[j].key)));
      }
    }
  }

  lemma ServedAdvances(s: Stream, t: Stream, took: seq<nat>, offers: seq<Offer>)
    requires ServedBy(s, t, took, offers)
    ensures Advances(s, t, [])
  {
    hide Turn, Advances;
    Unchanged(s);
    if s.id in took {
      var k :| 0 <= k < |took| && took[k] == s.id;
      TurnAdvances(s, OfferAt(offers, k).replies);
    }
  }

  lemma SameList(p: State, e: Event)
    requires Inv(p) && (e.StreamClose? || e.BackendLost? || e.BackendActive? || e.Writable? || e.TickAt?)
    ensures |Step(p, e).streams| == |p.streams| && Step(p, e).nextStream == p.nextStream
  {
    hide Inv, Tick, RunRound;
    match e {
      case Writable(sid, offers) =>
        var i := FindStream(p.streams, sid);
        if i < |p.streams| {
          RunRoundKeeps(p, p.streams[i].key, offers);
          RoundNext(p, p.streams[i].key, offers);
        }
      case TickAt(now, rounds) => TickNext(p, now, rounds);
      case _ =>
    }
  }

  lemma RoundNext(p: State, key: nat, offers: seq<Offer>)
    ensures RunRound(p, key, offers).0.nextStream == p.nextStream
  {
    var g := FindGroup(p.groups, key);
    if g < |p.groups| { RoundFromNext(p, key, StartAt(p, key), p.groups[g].count, offers); }
  }

  lemma {:induction false} RoundFromNext(p: State, key: nat, i: nat, remaining: nat, offers: seq<Offer>)
    ensures RoundFrom(p, key, i, remaining, offers).0.nextStream == p.nextStream
    decreases remaining
  {
    if i < |p.streams| && remaining > 0 && NextOffer(offers).unsent < UNSENT_MAX {
      RoundFromNext(TakeTurn(p, key, i, NextOffer(offers).replies), key, NextMember(p.streams, key, i), remaining - 1, Later(offers));
    }
  }

  lemma {:induction false} RoundsNext(p: State, keys: seq<nat>, rounds: seq<seq<Offer>>)
    ensures RunRounds(p, keys, rounds).nextStream == p.nextStream
    decreases keys
  {
    hide RunRound;
    if keys != [] {
      var os := if rounds == [] then [] else rounds[0];
      RoundNext(p, keys[0], os);
      RoundsNext(RunRound(p, keys[0], os).0, keys[1..], Later(rounds));
    }
  }

  lemma {:induction false} EvictNext(p: State, ids: seq<nat>, cutoff: nat)
    ensures Evict(p, ids, cutoff).nextStream == p.nextStream
    decreases ids
  {
    if ids != [] {
      var c := FindConn(p.conns, ids[0]);
      EvictNext(if c < |p.conns| && Idle(p.conns[c], cutoff) then DestroyBackend(p, ids[0], []) else p, ids[1..], cutoff);
    }
  }

  lemma TickNext(p: State, now: nat, rounds: seq<seq<Offer>>)
    requires Inv(p)
    ensures |Tick(p, now, rounds).streams| == |p.streams| && Tick(p, now, rounds).nextStream == p.nextStream
  {
    hide Inv, RunRounds, Evict;
    var q := RunRounds(p, Keys(p.groups), rounds);
    var cutoff := if now > p.cfg.timeoutSec then now - p.cfg.timeoutSec else 0;
    RoundsKeep(p, Keys(p.groups), rounds);
    RoundsNext(p, Keys(p.groups), rounds);
    EvictKeeps(q, ConnIds(q.conns), cutoff);
    EvictNext(q, ConnIds(q.conns), cutoff);
  }

  // ---- by identifier, for every event ----

  predicate Going(p: State, sid: nat) {
    var i := FindStream(p.streams, sid); i < |p.streams| && p.streams[i].life.fate == Relaying
  }

  function ReceivedBy(p: State, sid: nat): seq<Token> {
    var i := FindStream(p.streams, sid); if i < |p.streams| then p.streams[i].log.received else []
  }

  /** A response relayed after the event was relayed before it, or is new. */
  ghost predicate Delivers(p: State, e: Event, sid: nat) {
    var q := Step(p, e);
    && p.nextStream <= q.nextStream
    && (Going(q, sid) ==> && (Going(p, sid) || sid >= p.nextStream)
                          && ReceivedBy(q, sid) == ReceivedBy(p, sid) + Brought(p, e, sid))
  }

  lemma AllDeliver(p: State, e: Event, sid: nat)
    requires Inv(p) && AllAdvance(p, Step(p, e), e)
    ensures Delivers(p, e, sid)
  {
    hide Step, Inv;
    var q := Step(p, e);
    var i := FindStream(q.streams, sid);
    if i < |q.streams| {
      assert Advances(p.streams[i], q.streams[i], Brought(p, e, p.streams[i].id));
      Found(p, i);
    }
  }

  /** The list apart from its head. */
  lemma BehindHead(ss: seq<Stream>, tt: seq<Stream>, sid: nat)
    requires tt != [] && tt[1..] == ss && tt[0].id != sid
    ensures FindStream(tt, sid) == FindStream(ss, sid) + 1
  {
    var i, j := FindStream(ss, sid), FindStream(tt, sid);
    assert forall k :: 0 <= k < |ss| ==> tt[k + 1] == ss[k];
    assert j > 0;
    if j < |tt| { assert ss[j - 1].id == sid; }
    if i < |ss| { assert tt[i + 1].id == sid; }
  }

  lemma RequestList(p: State, e: Event)
    requires e.Request?
    ensures var q := Step(p, e);
            && q.nextStream == p.nextStream + 1
            && (q.streams == p.streams || (q.streams != [] && q.streams[1..] == p.streams
                                           && q.streams[0].id == p.nextStream && q.streams[0].log.received == []))
  {
    hide LeaveGroup, Release;
    var p1 := CreateStream(p, e.key);
    assert p1.streams[1..] == p.streams && Remove(p1.streams, 0) == p.streams;
    var c := FreeConn(p1.conns, p1.cfg.maxStreams);
    if c < |p1.conns| {
      AttachList(p1, c, e.submitted);
    } else if p1.connCount < p1.cfg.maxConns && e.dialed {
      AttachList(OpenBackend(p1, e.now), 0, e.submitted);
    }
  }

  lemma AttachList(p: State, c: nat, submitted: bool)
    requires |p.streams| > 0 && c < |p.conns|
    ensures var q := Attach(p, c, submitted);
            && q.nextStream == p.nextStream
            && if submitted then |q.streams| == |p.streams| && q.streams[1..] == p.streams[1..] && q.streams[0].id == p.streams[0].id
                                 && q.streams[0].log == p.streams[0].log
               else q.streams == p.streams[1..]
  {
    hide LeaveGroup, Release;
    var p1 := Attach(p, c, true);
    assert p1.streams[1..] == p.streams[1..];
    assert Remove(p1.streams, 0) == p1.streams[1..];
  }

  lemma RequestDelivers(p: State, e: Event, sid: nat)
    requires Inv(p) && e.Request?
    ensures Delivers(p, e, sid)
  {
    hide Inv, Step;
    RequestList(p, e);
    var q := Step(p, e);
    assert Brought(p, e, sid) == [] && ReceivedBy(p, sid) + [] == ReceivedBy(p, sid);
    if q.streams != p.streams {
      if sid == p.nextStream {
        NewId(p);
        assert FindStream(q.streams, sid) == 0;
      } else {
        BehindHead(p.streams, q.streams, sid);
      }
    }
  }

  lemma NewId(p: State)
    requires Inv(p)
    ensures FindStream(p.streams, p.nextStream) == |p.streams|
  {
  }

  /** Closing a request takes its stream out of the list. */
  lemma CloseList(p: State, sid: nat)
    ensures var q := Step(p, RequestClose(sid)); var i := FindStream(p.streams, sid);
            && q.nextStream == p.nextStream
            && q.streams == if i < |p.streams| then p.streams[..i] + p.streams[i + 1..] else p.streams
  {
  }

  lemma CloseDelivers(p: State, e: Event, sid: nat)
    requires Inv(p) && e.RequestClose?
    ensures Delivers(p, e, sid)
  {
    hide Inv, Step;
    CloseList(p, e.sid);
    var q := Step(p, e);
    assert Brought(p, e, sid) == [] && ReceivedBy(p, sid) + [] == ReceivedBy(p, sid);
    var i, j := FindStream(p.streams, e.sid), FindStream(q.streams, sid);
    if i < |p.streams| && j < |q.streams| {
      var k := if j < i then j else j + 1;
      assert q.streams[j] == p.streams[k];
      Found(p, k);
    }
  }

  lemma StepDelivers(p: State, e: Event, sid: nat)
    requires Inv(p)
    ensures Delivers(p, e, sid)
  {
    hide Inv, Delivers, Step, AllAdvance;
    if e.Request? { RequestDelivers(p, e, sid); }
    else if e.RequestClose? { CloseDelivers(p, e, sid); }
    else {
      if e.Headers? || e.Data? || e.DataEnd? { FrameAdvances(p, e); } else { OthersAdvance(p, e); }
      AllDeliver(p, e, sid);
    }
  }

  // ---- every run ----

  lemma {:induction false} NeverAgain(p: State, es: seq<Event>, sid: nat)
    requires Inv(p) && sid < p.nextStream && !Going(p, sid)
    ensures !Going(Run(p, es), sid)
    decreases es
  {
    hide Inv, Step;
    if es != [] {
      StepDelivers(p, es[0], sid);
      StepKeeps(p, es[0]);
      NeverAgain(Step(p, es[0]), es[1..], sid);
    }
  }

  lemma {:induction false} RunDelivers(p: State, es: seq<Event>, sid: nat)
    requires Inv(p) && Going(Run(p, es), sid)
    ensures ReceivedBy(Run(p, es), sid) == ReceivedBy(p, sid) + BroughtBy(p, es, sid)
    decreases es
  {
    hide Inv, Step, Brought;
    if es == [] {
      assert ReceivedBy(p, sid) + [] == ReceivedBy(p, sid);
    } else {
      var q := Step(p, es[0]);
      StepDelivers(p, es[0], sid);
      StepKeeps(p, es[0]);
      if !Going(q, sid) && sid < q.nextStream { NeverAgain(q, es[1..], sid); }
      if Going(q, sid) {
        RunDelivers(q, es[1..], sid);
        Rejoin(ReceivedBy(p, sid), Brought(p, es[0], sid), BroughtBy(q, es[1..], sid));
      } else {
        RunDelivers(q, es[1..], sid);
        Newer(p, sid);
        Newer(q, sid);
        assert Brought(p, es[0], sid) == [] by { NothingYet(p, es[0], sid); }
        Rejoin(ReceivedBy(p, sid), Brought(p, es[0], sid), BroughtBy(q, es[1..], sid));
      }
    }
  }

  lemma Rejoin(a: seq<Token>, b: seq<Token>, c: seq<Token>)
    ensures (a + b) + c == a + (b + c)
    ensures b == [] ==> a + (b + c) == a + c
  {
  }

  /** Identifiers not yet issued name nothing. */
  lemma Newer(p: State, sid: nat)
    requires Inv(p) && sid >= p.nextStream
    ensures ReceivedBy(p, sid) == []
  {
  }

  lemma NothingYet(p: State, e: Event, sid: nat)
    requires Inv(p) && sid >= p.nextStream
    ensures Brought(p, e, sid) == []
  {
  }

  /** Over every run, for every response still relayed: what HTTP/3 accepted, followed by what the proxy
      holds, is what the run's frames brought for that stream, connection-specific fields aside. */
  lemma DeliveredIsRelayed(cfg: Config, es: seq<Event>, i: nat)
    requires i < |Run(Init(cfg), es).streams| && Run(Init(cfg), es).streams[i].life.fate == Relaying
    ensures var s := Run(Init(cfg), es).streams[i];
            && s.log.sent + Pending(s) == BroughtBy(Init(cfg), es, s.id)
            && (!HasWork(s) ==> s.log.sent == BroughtBy(Init(cfg), es, s.id))
  {
    hide Inv, Run, BroughtBy;
    InitInv(cfg);
    RunKeeps(cfg, es);
    var p := Run(Init(cfg), es);
    Found(p, i);
    RunDelivers(Init(cfg), es, p.streams[i].id);
    InvOf(p, i);
    assert [] + BroughtBy(Init(cfg), es, p.streams[i].id) == BroughtBy(Init(cfg), es, p.streams[i].id);
    NothingAfterFin(p.streams[i]);
    if !HasWork(p.streams[i]) { Settled(p.streams[i]); }
  }

  lemma Settled(s: Stream)
    requires Faithful(s) && !HasWork(s)
    ensures Pending(s) == []
  {
    NothingAfterFin(s);
  }
}

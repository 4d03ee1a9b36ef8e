/**
 The proxy of src/h2_proxy.c as one value: the stream list, the backend
 connections, one rotation group per downstream QUIC connection, and the
 effect of every entry point on them. Transport answers are part of the event,
 so a run ranges over every behaviour of xquic, nghttp2 and the clock.
 */
module ProxyState {
  import opened Common
  import opened ResponseOrder
  import opened Relay
  import opened RelayInvariant
  import opened RelayCallbacks

  const UNSENT_MAX := 1024 * 1024

  datatype Config = Config(maxConns: nat, maxStreams: nat, timeoutSec: nat, maxBuffer: nat)

  /** h2_proxy_create's defaults for zero settings. */
  function Normalize(c: Config): Config {
    Config(if c.maxConns == 0 then 16 else c.maxConns, if c.maxStreams == 0 then 100 else c.maxStreams,
           if c.timeoutSec == 0 then 60 else c.timeoutSec, if c.maxBuffer == 0 then 1024 * 1024 else c.maxBuffer)
  }

  /** `refunded` is history: the HTTP/2 connection credit returned to the backend. */
  datatype Conn = Conn(id: nat, count: nat, lastActive: nat, refunded: nat)

  datatype Group = Group(key: nat, cursor: Option<nat>, count: nat)

  datatype State = State(cfg: Config, streams: seq<Stream>, conns: seq<Conn>, connCount: nat,
                         groups: seq<Group>, nextStream: nat, nextConn: nat)

  /** One offer in a rotation: the connection's unsent bytes, and HTTP/3's answers. */
  datatype Offer = Offer(unsent: nat, replies: seq<Reply>)

  function Init(cfg: Config): State { State(Normalize(cfg), [], [], 0, [], 0, 0) }

  // ---- lookups ----

  function FindStream(ss: seq<Stream>, id: nat): (i: nat)
    ensures i <= |ss|
    ensures i < |ss| ==> ss[i].id == id
    ensures forall j :: 0 <= j < i ==> ss[j].id != id
  {
    if ss == [] || ss[0].id == id then 0 else 1 + FindStream(ss[1..], id)
  }

  function FindConn(cs: seq<Conn>, id: nat): (i: nat)
    ensures i <= |cs|
    ensures i < |cs| ==> cs[i].id == id
    ensures forall j :: 0 <= j < i ==> cs[j].id != id
  {
    if cs == [] || cs[0].id == id then 0 else 1 + FindConn(cs[1..], id)
  }

  function FindGroup(gs: seq<Group>, key: nat): (i: nat)
    ensures i <= |gs|
    ensures i < |gs| ==> gs[i].key == key
    ensures forall j :: 0 <= j < i ==> gs[j].key != key
  {
    if gs == [] || gs[0].key == key then 0 else 1 + FindGroup(gs[1..], key)
  }

  /** The first connection with a free stream slot. */
  function FreeConn(cs: seq<Conn>, max: nat): (i: nat)
    ensures i <= |cs|
    ensures i < |cs| ==> cs[i].count < max
    ensures forall j :: 0 <= j < i ==> cs[j].count >= max
  {
    if cs == [] || cs[0].count < max then 0 else 1 + FreeConn(cs[1..], max)
  }

  /** send_pressure_first_stream: the first list position at or after `from` whose stream has the key. */
  function FirstFrom(ss: seq<Stream>, key: nat, from: nat): (i: nat)
    requires from <= |ss|
    ensures from <= i <= |ss|
    ensures i < |ss| ==> ss[i].key == key
    ensures forall j :: from <= j < i ==> ss[j].key != key
    decreases |ss| - from
  {
    if from == |ss| || ss[from].key == key then from else FirstFrom(ss, key, from + 1)
  }

  /** send_pressure_next_stream: the next member after position i, wrapping to the first. */
  function NextMember(ss: seq<Stream>, key: nat, i: nat): nat
    requires i < |ss|
  {
    var j := FirstFrom(ss, key, i + 1);
    if j < |ss| then j else FirstFrom(ss, key, 0)
  }

  // ---- updates ----

  function Remove<T>(s: seq<T>, i: nat): seq<T>
    requires i < |s|
  {
    s[..i] + s[i + 1..]
  }

  /** One stream fewer on a connection. */
  function Release(cs: seq<Conn>, id: nat): seq<Conn> {
    var i := FindConn(cs, id);
    if i < |cs| && cs[i].count > 0 then cs[i := cs[i].(count := cs[i].count - 1)] else cs
  }

  /** Replaces a stream record; the connection it left loses one stream. */
  function Put(p: State, i: nat, s: Stream): State
    requires i < |p.streams|
  {
    var b := p.streams[i].backend;
    p.(streams := p.streams[i := s],
       conns := if b.Some? && s.backend.None? then Release(p.conns, b.value) else p.conns)
  }

  function SetCursor(p: State, key: nat, cursor: Option<nat>): State {
    var g := FindGroup(p.groups, key);
    if g == |p.groups| then p else p.(groups := p.groups[g := p.groups[g].(cursor := cursor)])
  }

  // ---- stream_create, stream_destroy, backend_destroy ----

  function CreateStream(p: State, key: nat): State {
    var id := p.nextStream;
    var g := FindGroup(p.groups, key);
    var groups :=
      if g == |p.groups| then [Group(key, Some(id), 1)] + p.groups
      else
        var was := p.groups[g];
        p.groups[g := was.(count := was.count + 1, cursor := if was.cursor.None? then Some(id) else was.cursor)];
    p.(streams := [NewStream(id, key, None)] + p.streams, groups := groups, nextStream := id + 1)
  }

  function DestroyStream(p: State, i: nat): State
    requires i < |p.streams|
  {
    var s := p.streams[i];
    var conns := if s.backend.Some? then Release(p.conns, s.backend.value) else p.conns;
    p.(streams := Remove(p.streams, i), conns := conns, groups := LeaveGroup(p, i))
  }

  /** The group loses a member; a cursor on it moves to its list successor, of whatever group. */
  function LeaveGroup(p: State, i: nat): seq<Group>
    requires i < |p.streams|
  {
    var s := p.streams[i];
    var g := FindGroup(p.groups, s.key);
    if g == |p.groups| then p.groups
    else
      var was := p.groups[g];
      var successor := if i + 1 < |p.streams| then Some(p.streams[i + 1].id) else None;
      if was.count <= 1 then Remove(p.groups, g)
      else p.groups[g := was.(count := was.count - 1,
                              cursor := if was.cursor == Some(s.id) then successor else was.cursor)]
  }

  function ReplyAt(rs: seq<Reply>, i: nat): Reply { if i < |rs| then rs[i] else Again }

  function LoseBackend(ss: seq<Stream>, cid: nat, gateway: seq<Reply>): (r: seq<Stream>)
    ensures |r| == |ss|
    ensures forall i :: 0 <= i < |ss| ==>
              r[i] == if ss[i].backend == Some(cid) then BackendGone(ss[i], ReplyAt(gateway, i)) else ss[i]
  {
    seq(|ss|, i requires 0 <= i < |ss| =>
      if ss[i].backend == Some(cid) then BackendGone(ss[i], ReplyAt(gateway, i)) else ss[i])
  }

  function DestroyBackend(p: State, cid: nat, gateway: seq<Reply>): State {
    var c := FindConn(p.conns, cid);
    if c == |p.conns| then p
    else p.(streams := LoseBackend(p.streams, cid, gateway), conns := Remove(p.conns, c),
            connCount := if p.connCount > 0 then p.connCount - 1 else 0)
  }

  // ---- send_pressure_run_round ----

  function NextOffer(offers: seq<Offer>): Offer { if offers == [] then Offer(0, []) else offers[0] }

  function Later<T>(xs: seq<T>): seq<T> { if xs == [] then [] else xs[1..] }

  /** List position at which a round of the group starts. */
  function StartAt(p: State, key: nat): (i: nat)
    ensures i <= |p.streams|
    ensures i < |p.streams| ==> p.streams[i].key == key
  {
    var g := FindGroup(p.groups, key);
    if g == |p.groups| then |p.streams|
    else
      var i := if p.groups[g].cursor.Some? then FindStream(p.streams, p.groups[g].cursor.value) else |p.streams|;
      if i < |p.streams| && p.streams[i].key == key then i else FirstFrom(p.streams, key, 0)
  }

  /** The unsent-byte valve holds the cursor on the stream that did not get its turn. */
  function HoldAt(p: State, key: nat, i: nat): State
    requires i < |p.streams|
  {
    SetCursor(Put(p, i, SetBlocked(p.streams[i], true)), key, Some(p.streams[i].id))
  }

  function IdAt(ss: seq<Stream>, i: nat): Option<nat> { if i < |ss| then Some(ss[i].id) else None }

  /** The stream at position i drains until HTTP/3 pushes back; the cursor moves on. */
  function TakeTurn(p: State, key: nat, i: nat, replies: seq<Reply>): State
    requires i < |p.streams|
  {
    SetCursor(Put(p, i, Turn(p.streams[i], replies)), key, IdAt(p.streams, NextMember(p.streams, key, i)))
  }

  /** The state after a round, and the streams that had a turn, in order. */
  function RoundFrom(p: State, key: nat, i: nat, remaining: nat, offers: seq<Offer>): (State, seq<nat>)
    decreases remaining
  {
    if i >= |p.streams| || remaining == 0 then (p, [])
    else if NextOffer(offers).unsent >= UNSENT_MAX then (HoldAt(p, key, i), [])
    else
      var (p', took) := RoundFrom(TakeTurn(p, key, i, NextOffer(offers).replies), key,
                                  NextMember(p.streams, key, i), remaining - 1, Later(offers));
      (p', [p.streams[i].id] + took)
  }

  function RunRound(p: State, key: nat, offers: seq<Offer>): (State, seq<nat>) {
    var g := FindGroup(p.groups, key);
    if g == |p.groups| then (p, []) else RoundFrom(p, key, StartAt(p, key), p.groups[g].count, offers)
  }

  function RunRounds(p: State, keys: seq<nat>, offers: seq<seq<Offer>>): State
    decreases keys
  {
    if keys == [] then p
    else RunRounds(RunRound(p, keys[0], if offers == [] then [] else offers[0]).0, keys[1..], Later(offers))
  }

  function Keys(gs: seq<Group>): (r: seq<nat>)
    ensures |r| == |gs| && forall i :: 0 <= i < |gs| ==> r[i] == gs[i].key
  {
    seq(|gs|, i requires 0 <= i < |gs| => gs[i].key)
  }

  function ConnIds(cs: seq<Conn>): (r: seq<nat>)
    ensures |r| == |cs| && forall i :: 0 <= i < |cs| ==> r[i] == cs[i].id
  {
    seq(|cs|, i requires 0 <= i < |cs| => cs[i].id)
  }

  predicate Idle(c: Conn, cutoff: nat) { c.count == 0 && c.lastActive < cutoff }

  /** The idle sweep of h2_proxy_tick over the connections listed when it starts. */
  function Evict(p: State, ids: seq<nat>, cutoff: nat): State
    decreases ids
  {
    if ids == [] then p
    else
      var c := FindConn(p.conns, ids[0]);
      var p' := if c < |p.conns| && Idle(p.conns[c], cutoff) then DestroyBackend(p, ids[0], []) else p;
      Evict(p', ids[1..], cutoff)
  }

  function Tick(p: State, now: nat, offers: seq<seq<Offer>>): State {
    var p1 := RunRounds(p, Keys(p.groups), offers);
    var cutoff := if now > p.cfg.timeoutSec then now - p.cfg.timeoutSec else 0;
    Evict(p1, ConnIds(p1.conns), cutoff)
  }

  // ---- h2_proxy_handle_request ----

  /** The new stream (at the head of the list) goes to connection c, then the request is submitted. */
  function Attach(p: State, c: nat, submitted: bool): State
    requires |p.streams| > 0 && c < |p.conns|
  {
    var p1 := p.(streams := p.streams[0 := p.streams[0].(backend := Some(p.conns[c].id))],
                 conns := p.conns[c := p.conns[c].(count := p.conns[c].count + 1)]);
    if submitted then p1 else DestroyStream(p1, 0)
  }

  function OpenBackend(p: State, now: nat): State {
    p.(conns := [Conn(p.nextConn, 0, now, 0)] + p.conns, connCount := p.connCount + 1, nextConn := p.nextConn + 1)
  }

  function HandleRequest(p: State, key: nat, dialed: bool, submitted: bool, now: nat): State {
    var p1 := CreateStream(p, key);
    var c := FreeConn(p1.conns, p1.cfg.maxStreams);
    if c < |p1.conns| then Attach(p1, c, submitted)
    else if p1.connCount < p1.cfg.maxConns && dialed then Attach(OpenBackend(p1, now), 0, submitted)
    else DestroyStream(p1, 0)
  }

  // ---- nghttp2 callbacks ----

  /** The callback's result; a failed callback fails the whole backend connection. */
  function Finish(p: State, i: nat, f: Flow, cid: nat, gateway: seq<Reply>): State
    requires i < |p.streams|
  {
    var p1 := Put(p, i, f.s);
    if f.out == Fail then DestroyBackend(p1, cid, gateway) else p1
  }

  /** nghttp2_session_consume_connection: n bytes of connection credit go back. */
  function Credit(p: State, cid: nat, n: nat): State {
    var c := FindConn(p.conns, cid);
    if c == |p.conns| then p else p.(conns := p.conns[c := p.conns[c].(refunded := p.conns[c].refunded + n)])
  }

  predicate Owns(p: State, i: nat, cid: nat) { i < |p.streams| && p.streams[i].backend == Some(cid) }

  /** DATA for a stream that is gone is dropped before its connection credit is returned. */
  function DataChunk(p: State, cid: nat, sid: nat, data: seq<Byte>, credit: bool,
                     replies: seq<Reply>, gateway: seq<Reply>): State {
    var i := FindStream(p.streams, sid);
    if !Owns(p, i, cid) || !AdmitsData(p.streams[i]) then p
    else
      var s := p.streams[i];
      var taken := Fits(s.buf, data, p.cfg.maxBuffer) && credit;
      Finish(if taken then Credit(p, cid, |data|) else p, i,
             OnChunk(s, data, p.cfg.maxBuffer, credit, replies), cid, gateway)
  }

  // ---- one event ----

  datatype Event =
    | Request(key: nat, dialed: bool, submitted: bool, now: nat)
    | Headers(cid: nat, sid: nat, fields: seq<Header>, end: bool, replies: seq<Reply>, gateway: seq<Reply>)
    | Data(cid: nat, sid: nat, data: seq<Byte>, credit: bool, replies: seq<Reply>, gateway: seq<Reply>)
    | DataEnd(cid: nat, sid: nat, replies: seq<Reply>, gateway: seq<Reply>)
    | StreamClose(cid: nat, sid: nat, error: bool)
    | BackendLost(cid: nat, gateway: seq<Reply>)
    | BackendActive(cid: nat, now: nat)
    | Writable(sid: nat, offers: seq<Offer>)
    | RequestClose(sid: nat)
    | TickAt(now: nat, rounds: seq<seq<Offer>>)

  function Step(p: State, e: Event): State {
    match e
    case Request(key, dialed, submitted, now) => HandleRequest(p, key, dialed, submitted, now)
    case Headers(cid, sid, fields, end, replies, gateway) =>
      var i := FindStream(p.streams, sid);
      if !Owns(p, i, cid) || !AdmitsHeaders(p.streams[i], end) then p
      else Finish(p, i, OnHeaders(p.streams[i], fields, end, replies), cid, gateway)
    case Data(cid, sid, data, credit, replies, gateway) => DataChunk(p, cid, sid, data, credit, replies, gateway)
    case DataEnd(cid, sid, replies, gateway) =>
      var i := FindStream(p.streams, sid);
      if !Owns(p, i, cid) || !AdmitsData(p.streams[i]) then p
      else Finish(p, i, OnDataEnd(p.streams[i], replies), cid, gateway)
    case StreamClose(cid, sid, error) =>
      var i := FindStream(p.streams, sid);
      if !Owns(p, i, cid) || p.streams[i].life.backendClosed then p
      else Put(p, i, OnStreamClose(p.streams[i], error))
    case BackendLost(cid, gateway) => DestroyBackend(p, cid, gateway)
    case BackendActive(cid, now) =>
      var c := FindConn(p.conns, cid);
      if c == |p.conns| then p else p.(conns := p.conns[c := p.conns[c].(lastActive := now)])
    case Writable(sid, offers) =>
      var i := FindStream(p.streams, sid);
      if i == |p.streams| then p else RunRound(p, p.streams[i].key, offers).0
    case RequestClose(sid) =>
      var i := FindStream(p.streams, sid);
      if i == |p.streams| then p else DestroyStream(p, i)
    case TickAt(now, rounds) => Tick(p, now, rounds)
  }

  /** A run: the state after a sequence of events. */
  function Run(p: State, es: seq<Event>): State
    decreases es
  {
    if es == [] then p else Run(Step(p, es[0]), es[1..])
  }
}

/**
 The response side of one proxied stream (struct h2_proxy_stream_s of
 src/h2_proxy.c): an h2c backend delivers header blocks and DATA, HTTP/3
 accepts any prefix of what it is offered. Functions give each handler's effect
 on the stream record; methods are the source's loops, proved against them.
 */
module Relay {
  import opened Common
  import opened ResponseOrder

  const SEND_CHUNK := 16 * 1024
  const MAX_HEADERS := 256
  const MAX_HEADER_BYTES := 32 * 1024

  /** How a response ends up being answered.
      Relaying: the backend's response is forwarded.
      Closing: xqc_h3_request_close was called; a close event will follow.
      Gateway: a synthesized 502 was accepted.
      Refused: the backend is gone and HTTP/3 refused the synthesized 502. */
  datatype Fate = Relaying | Closing | Gateway | Refused

  /** response_body, its read offset, and the HTTP/2 stream credit withheld. */
  datatype RawBuffer = Buffer(body: seq<Byte>, off: nat, unconsumed: nat)

  type Buffer = b: RawBuffer | b.off <= |b.body| witness Buffer([], 0, 0)

  /** The response header block being collected or waiting to be sent. */
  datatype Collect = Collect(block: Block, bytes: nat, pending: bool, trailers: bool,
                             informational: bool, statusSeen: bool)

  datatype Life = Life(eof: bool, finSent: bool, started: bool, backendClosed: bool, fate: Fate)

  datatype Wake = Wake(blocked: bool, armed: bool)

  /** History: tokens the backend delivered, tokens HTTP/3 accepted, HTTP/2
      stream credit returned. */
  datatype Log = Log(received: seq<Token>, sent: seq<Token>, credited: nat)

  datatype Stream = Stream(id: nat, key: nat, backend: Option<nat>,
                           buf: Buffer, hdr: Collect, life: Life, wake: Wake, log: Log)

  /** One answer of the transport to an offer: up to n bytes taken (n is ignored
      for header blocks and FIN), EAGAIN, or a hard error. `credit` is whether
      nghttp2 takes the stream credit for those bytes back. */
  datatype Reply = Accept(n: nat, credit: bool) | Again | Error

  datatype Outcome = Go | Stop | Fail
  datatype Flow = Flow(s: Stream, rest: seq<Reply>, out: Outcome)

  const EMPTY_COLLECT := Collect([], 0, false, false, false, false)

  function NewStream(id: nat, key: nat, conn: Option<nat>): Stream {
    Stream(id, key, conn, Buffer([], 0, 0), EMPTY_COLLECT, Life(false, false, false, false, Relaying),
           Wake(false, false), Log([], [], 0))
  }

  /** A request that was closed accepts nothing more; no further answer scripted
      means EAGAIN. */
  function Answer(fate: Fate, rs: seq<Reply>): Reply {
    if fate == Closing then Error else if rs == [] then Again else rs[0]
  }

  function Tail(rs: seq<Reply>): seq<Reply> { if rs == [] then [] else rs[1..] }

  function Avail(b: Buffer): seq<Byte>
  {
    b.body[b.off..]
  }

  function SetBlocked(s: Stream, b: bool): Stream { s.(wake := Wake(b, b)) }

  function ClearBlock(c: Collect): Collect { c.(block := [], bytes := 0, pending := false) }

  function FinIf(b: bool): seq<Token> { if b then [Fin] else [] }

  function Log1(l: Log, ts: seq<Token>): Log { l.(sent := l.sent + ts) }

  function Detach(s: Stream): Stream {
    if s.backend.None? then s else s.(wake := Wake(false, false), backend := None)
  }

  // ---- buffer_append ----

  predicate Fits(b: Buffer, data: seq<Byte>, limit: nat)
  {
    data == [] || |Avail(b)| + |data| <= limit
  }

  function Append(b: Buffer, data: seq<Byte>): Buffer
  {
    if data == [] then b else b.(body := Avail(b) + data, off := 0)
  }

  /** Compacts the buffer and appends, or refuses and changes nothing. */
  method BufferAppend(body: seq<Byte>, off: nat, data: seq<Byte>, limit: nat)
    returns (ok: bool, body': seq<Byte>, off': nat)
    requires off <= |body|
    ensures ok <==> data == [] || |body| - off + |data| <= limit
    ensures ok ==> off' <= |body'| && body'[off'..] == body[off..] + data
    ensures ok && data != [] ==> off' == 0
    ensures !ok || data == [] ==> body' == body && off' == off
  {
    ok, body', off' := true, body, off;
    if |data| == 0 {
      return;
    }
    var buffered := |body| - off;
    if buffered > limit || |data| > limit - buffered {
      ok := false;
      return;
    }
    if off > 0 {
      body' := body[off..];
      off' := 0;
    }
    body' := body' + data;
  }

  // ---- stream_flush_response ----

  function FlushHead(s: Stream, rs: seq<Reply>): Flow
  {
    if !(s.hdr.pending && !s.hdr.trailers) then Flow(s, rs, Go)
    else match Answer(s.life.fate, rs)
      case Again => Flow(SetBlocked(s, true), Tail(rs), Stop)
      case Error => Flow(s, Tail(rs), Fail)
      case Accept(_, _) =>
        var fin := s.life.eof && Avail(s.buf) == [];
        Flow(s.(life := s.life.(started := s.life.started || !s.hdr.informational,
                                finSent := s.life.finSent || fin),
                log := Log1(s.log, [Head(s.hdr.block)] + FinIf(fin)),
                hdr := ClearBlock(s.hdr)), Tail(rs), Go)
  }

  /** HTTP/3 took k bytes of the buffer (and the FIN when `last`). */
  function Take(s: Stream, k: nat, last: bool): Stream
    requires k <= |Avail(s.buf)|
  {
    s.(buf := s.buf.(off := s.buf.off + k), log := Log1(s.log, Octets(Avail(s.buf)[..k]) + FinIf(last)))
  }

  predicate Refunds(s: Stream, k: nat, credit: bool) {
    s.backend.Some? && k <= s.buf.unconsumed && (s.life.backendClosed || credit)
  }

  /** stream_consume_response: the stream credit for k bytes goes back to the backend. */
  function Refund(s: Stream, k: nat, last: bool): Stream
    requires k <= s.buf.unconsumed
  {
    s.(buf := s.buf.(unconsumed := s.buf.unconsumed - k),
       log := s.log.(credited := s.log.credited + (if s.life.backendClosed then 0 else k)),
       life := s.life.(finSent := s.life.finSent || last))
  }

  /** HTTP/3 answers an offer of at most SEND_CHUNK bytes by taking up to m of them. */
  function TakeSlice(s: Stream, m: nat, credit: bool): (Stream, Outcome)
    requires Avail(s.buf) != []
  {
    var n := |Avail(s.buf)|;
    var k := Min(m, Min(n, SEND_CHUNK));
    var last := s.life.eof && !s.hdr.pending && k == n;
    if k == 0 then (SetBlocked(s, true), Stop)
    else if !Refunds(s, k, credit) then (Take(s, k, last), Fail)
    else if k < Min(n, SEND_CHUNK) then (SetBlocked(Refund(Take(s, k, last), k, last), true), Stop)
    else (Refund(Take(s, k, last), k, last), Go)
  }

  function OfferBody(s: Stream, rs: seq<Reply>): Flow
    requires Avail(s.buf) != []
  {
    match Answer(s.life.fate, rs)
    case Again => Flow(SetBlocked(s, true), Tail(rs), Stop)
    case Error => Flow(s, Tail(rs), Fail)
    case Accept(m, credit) =>
      var (s', out) := TakeSlice(s, m, credit);
      Flow(s', Tail(rs), out)
  }

  function FlushBody(s: Stream, rs: seq<Reply>): Flow
    decreases |s.buf.body| - s.buf.off
  {
    if Avail(s.buf) == [] then Flow(s.(buf := s.buf.(body := [], off := 0)), rs, Go)
    else
      var f := OfferBody(s, rs);
      if f.out == Go then FlushBody(f.s, f.rest) else f
  }

  function FlushTrailers(s: Stream, rs: seq<Reply>): Flow {
    if !(s.hdr.pending && s.hdr.trailers && s.buf.body == []) then Flow(s, rs, Go)
    else match Answer(s.life.fate, rs)
      case Again => Flow(SetBlocked(s, true), Tail(rs), Stop)
      case Error => Flow(s, Tail(rs), Fail)
      case Accept(_, _) =>
        Flow(s.(life := s.life.(finSent := s.life.finSent || s.life.eof),
                log := Log1(s.log, [Head(s.hdr.block)] + FinIf(s.life.eof)),
                hdr := ClearBlock(s.hdr)), Tail(rs), Go)
  }

  function FlushFin(s: Stream, rs: seq<Reply>): Flow {
    if !(s.life.eof && !s.life.finSent && !s.hdr.pending && s.buf.body == []) then Flow(s, rs, Go)
    else match Answer(s.life.fate, rs)
      case Again => Flow(SetBlocked(s, true), Tail(rs), Stop)
      case Error => Flow(s, Tail(rs), Fail)
      case Accept(_, _) =>
        Flow(s.(life := s.life.(finSent := true), log := Log1(s.log, [Fin])), Tail(rs), Go)
  }

  /** Everything offered was accepted: leave the backend if the exchange is over,
      and release the write notification. */
  function Settle(s: Stream): Stream {
    SetBlocked(if s.life.backendClosed && s.buf.unconsumed == 0 && s.life.finSent
               then Detach(s) else s, false)
  }

  function FlushEnd(s: Stream, rs: seq<Reply>): Flow {
    var f3 := FlushTrailers(s, rs);
    if f3.out != Go then f3 else
    var f4 := FlushFin(f3.s, f3.rest);
    if f4.out != Go then f4 else Flow(Settle(f4.s), f4.rest, Stop)
  }

  function FlushRest(s: Stream, rs: seq<Reply>): Flow
  {
    var f2 := FlushBody(s, rs);
    if f2.out != Go then f2 else FlushEnd(f2.s, f2.rest)
  }

  function Flush(s: Stream, rs: seq<Reply>): Flow
  {
    if s.life.finSent then Flow(s, rs, Stop) else
    var f1 := FlushHead(s, rs);
    if f1.out != Go then f1 else FlushRest(f1.s, f1.rest)
  }

  /** Hands the body over slice by slice until it is gone or HTTP/3 declines more. */
  method SendBody(stream: Stream, replies: seq<Reply>) returns (s: Stream, rs: seq<Reply>, out: Outcome)
    ensures Flow(s, rs, out) == FlushBody(stream, replies)
  {
    s, rs, out := stream, replies, Go;
    while s.buf.off < |s.buf.body|
      invariant out == Go
      invariant FlushBody(s, rs) == FlushBody(stream, replies)
      decreases |s.buf.body| - s.buf.off
    {
      s, rs, out := SendSlice(s, rs);
      if out != Go { return; }
    }
    s := s.(buf := s.buf.(body := [], off := 0));
  }

  method SendSlice(stream: Stream, replies: seq<Reply>) returns (s: Stream, rs: seq<Reply>, out: Outcome)
    requires Avail(stream.buf) != []
    ensures Flow(s, rs, out) == OfferBody(stream, replies)
  {
    s, rs, out := stream, Tail(replies), Go;
    var avail := |s.buf.body| - s.buf.off;
    var chunk := avail;
    if chunk > SEND_CHUNK { chunk := SEND_CHUNK; }
    var fin := s.life.eof && !s.hdr.pending;
    match Answer(s.life.fate, replies) {
      case Again =>
        s, out := SetBlocked(s, true), Stop;
      case Error =>
        out := Fail;
      case Accept(n, credit) =>
        var sent := Min(n, chunk);
        if sent == 0 {
          s, out := SetBlocked(s, true), Stop;
          return;
        }
        avail := avail - sent;
        s := Take(s, sent, fin && avail == 0);
        if s.backend.None? || sent > s.buf.unconsumed || (!s.life.backendClosed && !credit) {
          out := Fail;
          return;
        }
        s := Refund(s, sent, fin && avail == 0);
        if sent < chunk { s, out := SetBlocked(s, true), Stop; }
    }
  }

  /** The source's flush. `ok` is its return code 0. */
  method FlushResponse(stream: Stream, replies: seq<Reply>) returns (s: Stream, ok: bool)
    ensures s == Flush(stream, replies).s
    ensures ok <==> Flush(stream, replies).out == Stop
  {
    s, ok := stream, true;
    if s.life.finSent { return; }
    var f := FlushHead(s, replies);
    if f.out != Go { return f.s, f.out == Stop; }
    var rs, out;
    s, rs, out := SendBody(f.s, f.rest);
    if out != Go { return s, out == Stop; }
    f := FlushTrailers(s, rs);
    if f.out != Go { return f.s, f.out == Stop; }
    f := FlushFin(f.s, f.rest);
    if f.out != Go { return f.s, f.out == Stop; }
    s := Settle(f.s);
  }

  // ---- backend callbacks ----

  /** is_hop_by_hop: fields that must not cross the proxy. */
  predicate HopByHop(h: Header) {
    || h.name in {"connection", "keep-alive", "proxy-connection", "transfer-encoding", "upgrade"}
    || (h.name == "te" && h.value != "trailers")
  }

  predicate GoodStatus(v: string) {
    |v| == 3 && '1' <= v[0] <= '5' && IsDigit(v[1]) && IsDigit(v[2]) && v != "101"
  }

  predicate HasRoom(c: Collect, h: Header) {
    |c.block| < MAX_HEADERS && c.bytes + |h.name| + |h.value| <= MAX_HEADER_BYTES
  }

  /** on_header_callback: the block after one more field, and whether it was acceptable. */
  function CollectField(c: Collect, h: Header): (Collect, bool) {
    if HopByHop(h) then (c, true)
    else
      var pseudo := |h.name| > 0 && h.name[0] == ':';
      if pseudo && (c.trailers || c.statusSeen || h.name != ":status" || !GoodStatus(h.value)) then (c, false)
      else
        var c' := if pseudo then c.(statusSeen := true, informational := h.value[0] == '1') else c;
        if !HasRoom(c', h) then (c', false)
        else (c'.(block := c.block + [h], bytes := c.bytes + |h.name| + |h.value|), true)
  }

  function CollectAll(c: Collect, fields: seq<Header>): (Collect, bool)
    decreases fields
  {
    if fields == [] then (c, true)
    else
      var (c', ok) := CollectField(c, fields[0]);
      if ok then CollectAll(c', fields[1..]) else (c', false)
  }

  method CollectHeaders(c0: Collect, fields: seq<Header>) returns (c: Collect, ok: bool)
    ensures (c, ok) == CollectAll(c0, fields)
  {
    c, ok := c0, true;
    var i := 0;
    while i < |fields|
      invariant 0 <= i <= |fields| && ok
      invariant CollectAll(c, fields[i..]) == CollectAll(c0, fields)
    {
      c, ok := CollectField(c, fields[i]).0, CollectField(c, fields[i]).1;
      if !ok { return; }
      i := i + 1;
    }
  }

  /** on_begin_headers, on_header for every field, on_frame_recv for the HEADERS frame. */
  function OnHeaders(s: Stream, fields: seq<Header>, end: bool, rs: seq<Reply>): Flow
  {
    if s.hdr.pending then Flow(s, rs, Fail)
    else
      var (c, ok) := CollectAll(Collect([], 0, false, s.life.started, false, false), fields);
      if !ok || (!c.trailers && !c.statusSeen) || (c.informational && end) then Flow(s.(hdr := c), rs, Fail)
      else Flush(s.(hdr := c.(pending := true), life := s.life.(eof := s.life.eof || end),
                    log := s.log.(received := s.log.received + ([Head(c.block)] + FinIf(end)))), rs)
  }

  /** The part of on_data_chunk_recv_callback before the flush. */
  function Buffered(s: Stream, data: seq<Byte>): Stream
  {
    s.(buf := Append(s.buf, data).(unconsumed := s.buf.unconsumed + |data|),
       log := s.log.(received := s.log.received + Octets(data)))
  }

  /** on_data_chunk_recv_callback; `credit` is whether nghttp2 takes the connection credit back. */
  function OnChunk(s: Stream, data: seq<Byte>, limit: nat, credit: bool, rs: seq<Reply>): Flow
  {
    if !Fits(s.buf, data, limit) then Flow(s, rs, Fail)
    else if !credit then
      Flow(s.(buf := Append(s.buf, data), log := s.log.(received := s.log.received + Octets(data))), rs, Fail)
    else Flush(Buffered(s, data), rs)
  }

  /** on_frame_recv_callback for a DATA frame with END_STREAM. */
  function OnDataEnd(s: Stream, rs: seq<Reply>): Flow
  {
    Flush(s.(life := s.life.(eof := true),
             log := s.log.(received := s.log.received + FinIf(!s.life.eof))), rs)
  }

  /** on_stream_close_callback. */
  function OnStreamClose(s: Stream, error: bool): Stream {
    if error then
      Detach(s.(buf := Buffer([], 0, 0),
                life := s.life.(backendClosed := true,
                                fate := if s.life.finSent then s.life.fate else Closing)))
    else
      var s' := s.(life := s.life.(backendClosed := true));
      if s.buf.unconsumed == 0 && s.life.finSent then Detach(s') else s'
  }

  const BAD_GATEWAY: Block := [Header(":status", "502")]

  /** What backend_destroy does to one attached stream. */
  function BackendGone(s: Stream, reply: Reply): Stream {
    var t := s.(wake := if s.wake.armed then Wake(false, false) else s.wake,
                buf := Buffer([], 0, 0), hdr := ClearBlock(s.hdr), backend := None);
    var l := s.life.(backendClosed := true);
    if l.started then t.(life := if l.finSent then l else l.(fate := Closing))
    else if Answer(l.fate, [reply]).Accept? then
      t.(life := l.(started := true, finSent := true, fate := Gateway),
         log := Log1(s.log, [Head(BAD_GATEWAY), Fin]))
    else t.(life := if l.fate == Closing then l else l.(fate := Refused))
  }
}

/**
 What every handler keeps true of one stream: the relay is lossless and in
 order, credit is conserved, and a response with work left is woken up again.
 */
module RelayProofs {
  import opened Common
  import opened ResponseOrder
  import opened Relay

  /** An interim or final block waiting ahead of the body. */
  function Lead(h: Collect): seq<Token> { if h.pending && !h.trailers then [Head(h.block)] else [] }

  /** Trailers and the end of stream waiting behind the body. */
  function Trail(h: Collect, l: Life): seq<Token> {
    (if h.pending && h.trailers then [Head(h.block)] else []) + FinIf(l.eof && !l.finSent)
  }

  /** Delivered by the backend, not yet accepted by HTTP/3, in the order it must leave. */
  function Pending(s: Stream): seq<Token>
  {
    Lead(s.hdr) + (Octets(Avail(s.buf)) + Trail(s.hdr, s.life))
  }

  /** Losslessness and order: accepted followed by pending is exactly what the backend delivered. */
  ghost predicate Faithful(s: Stream) {
    && s.log.sent + Pending(s) == s.log.received
    && PhaseOf(s.log.received) != Broken
    && (s.life.started <==> PhaseOf(s.log.sent) != AwaitFinal)
    && (s.life.eof <==> PhaseOf(s.log.received) == Ended)
    && (s.life.finSent <==> PhaseOf(s.log.sent) == Ended)
    && (s.hdr.pending ==>
          s.hdr.trailers == (KindOf(s.hdr.block) == Trailers) &&
          s.hdr.informational == (KindOf(s.hdr.block) == Interim))
  }

  /** Flow-control accounting of an attached stream. */
  ghost predicate Credited(s: Stream, limit: nat) {
    && (s.backend.None? ==> s.life.finSent)
    && (s.backend.Some? ==> s.buf.unconsumed == |Avail(s.buf)| <= limit)
    && (s.backend.Some? && !s.life.backendClosed ==>
          |BodyOf(s.log.received)| == s.log.credited + s.buf.unconsumed)
  }

  /** h2_proxy_needs_tick's test for one stream. */
  predicate HasWork(s: Stream) {
    !s.life.finSent && (s.hdr.pending || |s.buf.body| > s.buf.off || s.life.eof)
  }

  /** The write notification is armed exactly while there is something left to send. */
  predicate Rests(s: Stream) { s.wake == Wake(HasWork(s), HasWork(s)) }

  predicate Awake(s: Stream) {
    HasWork(s) ==> s.wake.armed || s.life.fate == Closing || s.life.fate == Refused
  }

  /** Accepting ts, the front of what is pending, leaves an ordered prefix. */
  lemma SentSplit(sent: seq<Token>, ts: seq<Token>, rest: seq<Token>, received: seq<Token>)
    requires sent + (ts + rest) == received
    requires PhaseOf(received) != Broken
    ensures (sent + ts) + rest == received
    ensures PhaseOf(sent + ts) == PhaseFrom(PhaseOf(sent), ts) != Broken
    ensures PhaseOf(sent) != Broken
    ensures PhaseOf(sent + ts) == Ended ==> rest == []
  {
    assert (sent + ts) + rest == received;
    PrefixIsOrdered(sent + ts, received);
    PrefixIsOrdered(sent, received);
    PhaseSplit(AwaitFinal, sent, ts);
  }

  lemma PhaseHead(ph: Phase, b: Block, fin: bool)
    ensures PhaseFrom(ph, [Head(b)] + FinIf(fin)) ==
            if fin then Advance(Advance(ph, Head(b)), Fin) else Advance(ph, Head(b))
  {
    var ts := [Head(b)] + FinIf(fin);
    assert ts[1..] == FinIf(fin);
    if fin {
      PhaseFin(Advance(ph, Head(b)));
    }
  }

  lemma PhaseFin(ph: Phase)
    ensures PhaseFrom(ph, [Fin]) == Advance(ph, Fin)
  {
    assert [Fin][1..] == [];
  }

  lemma PhaseOctets(ph: Phase, bytes: seq<Byte>, fin: bool)
    ensures var mid := if bytes == [] then ph else if ph == Body then Body else Broken;
            PhaseFrom(ph, Octets(bytes) + FinIf(fin)) == if fin then Advance(mid, Fin) else mid
  {
    OctetsPhase(ph, bytes);
    PhaseSplit(ph, Octets(bytes), FinIf(fin));
    PhaseFin(PhaseFrom(ph, Octets(bytes)));
  }

  /** A part of a flush that stops has work left and has armed the write notification. */
  ghost predicate StopsArmed(f: Flow) { f.out == Stop ==> f.s.wake == Wake(true, true) && HasWork(f.s) }

  lemma PendingHead(s: Stream)
    requires s.hdr.pending && !s.hdr.trailers && !s.life.finSent
    ensures var fin := s.life.eof && Avail(s.buf) == [];
            Pending(s) == ([Head(s.hdr.block)] + FinIf(fin)) + (Octets(Avail(s.buf)) + FinIf(s.life.eof && !fin))
  {
  }

  lemma HeadSentKeeps(s: Stream, rs: seq<Reply>)
    requires Faithful(s) && !s.life.finSent && s.hdr.pending && !s.hdr.trailers
    requires FlushHead(s, rs).out == Go
    ensures Faithful(FlushHead(s, rs).s)
  {
    var t := FlushHead(s, rs).s;
    var fin := s.life.eof && Avail(s.buf) == [];
    var ts := [Head(s.hdr.block)] + FinIf(fin);
    var rest := Octets(Avail(s.buf)) + FinIf(s.life.eof && !fin);
    PendingHead(s);
    SentSplit(s.log.sent, ts, rest, s.log.received);
    PhaseHead(PhaseOf(s.log.sent), s.hdr.block, fin);
    assert Pending(t) == rest;
    assert t.log.sent == s.log.sent + ts;
  }

  lemma SplitOctets(bytes: seq<Byte>, k: nat, trail: seq<Token>)
    requires k <= |bytes|
    ensures Octets(bytes) + trail == Octets(bytes[..k]) + (Octets(bytes[k..]) + trail)
    ensures k == |bytes| ==> Octets(bytes) + trail == (Octets(bytes[..k]) + trail) + (Octets(bytes[k..]) + [])
  {
    assert bytes == bytes[..k] + bytes[k..];
    OctetsConcat(bytes[..k], bytes[k..]);
  }

  lemma PendingNoLead(s: Stream)
    requires Lead(s.hdr) == []
    ensures Pending(s) == Octets(Avail(s.buf)) + Trail(s.hdr, s.life)
  {
  }

  function Taken(s: Stream, k: nat): Stream
    requires k <= |Avail(s.buf)|
  {
    var last := s.life.eof && !s.hdr.pending && k == |Avail(s.buf)|;
    var t := Take(s, k, last);
    t.(life := t.life.(finSent := last))
  }

  lemma PendingOctets(s: Stream, k: nat)
    requires Lead(s.hdr) == [] && !s.life.finSent
    requires k <= |Avail(s.buf)|
    ensures Avail(Taken(s, k).buf) == Avail(s.buf)[k..]
    ensures Pending(s) == (Octets(Avail(s.buf)[..k]) + FinIf(Taken(s, k).life.finSent)) + Pending(Taken(s, k))
  {
    var avail := Avail(s.buf);
    var trail := Trail(s.hdr, s.life);
    var u := Taken(s, k);
    assert Avail(u.buf) == avail[k..];
    PendingNoLead(s);
    PendingNoLead(u);
    SplitOctets(avail, k, trail);
    if u.life.finSent {
      assert trail == [Fin] && Trail(u.hdr, u.life) == [];
    } else {
      assert Trail(u.hdr, u.life) == trail;
      assert Octets(avail[..k]) + FinIf(false) == Octets(avail[..k]);
    }
  }

  /** HTTP/3 takes k octets; the FIN goes along exactly when they are the last of the response. */
  lemma TakeKeeps(s: Stream, k: nat)
    requires Faithful(s) && !s.life.finSent && Lead(s.hdr) == []
    requires 0 < k <= |Avail(s.buf)|
    ensures Faithful(Taken(s, k))
    ensures Taken(s, k).log.sent <= s.log.received
    ensures Avail(Taken(s, k).buf) == Avail(s.buf)[k..]
  {
    var avail := Avail(s.buf);
    var u := Taken(s, k);
    var ts := Octets(avail[..k]) + FinIf(u.life.finSent);
    PendingOctets(s, k);
    SentSplit(s.log.sent, ts, Pending(u), s.log.received);
    PhaseOctets(PhaseOf(s.log.sent), avail[..k], u.life.finSent);
    assert u.log.sent == s.log.sent + ts;
  }

  lemma RefundKeeps(s: Stream, k: nat, limit: nat)
    requires Faithful(s) && Credited(s, limit) && !s.life.finSent && Lead(s.hdr) == []
    requires 0 < k <= |Avail(s.buf)| && s.backend.Some? && k <= s.buf.unconsumed
    ensures var last := Taken(s, k).life.finSent;
            var t := Refund(Take(s, k, last), k, last);
            Faithful(t) && Credited(t, limit)
  {
    TakeKeeps(s, k);
    var last := Taken(s, k).life.finSent;
    assert Pending(Refund(Take(s, k, last), k, last)) == Pending(Taken(s, k));
  }

  lemma WakeKeeps(s: Stream, limit: nat)
    requires Faithful(s)
    ensures Faithful(SetBlocked(s, true)) && (Credited(s, limit) ==> Credited(SetBlocked(s, true), limit))
  {
    assert Pending(SetBlocked(s, true)) == Pending(s);
  }

  /** What holds of a stream between the parts of a flush. */
  ghost predicate Sound(s: Stream, limit: nat) { Faithful(s) && Credited(s, limit) }

  /** HTTP/3 took the end of the response but the credit could not be returned. */
  ghost predicate Sealed(s: Stream) {
    && Avail(s.buf) == [] && !s.hdr.pending && s.life.eof && !s.life.finSent && s.life.started
    && s.log.sent == s.log.received && PhaseOf(s.log.received) == Ended
  }

  /** What a failed offer leaves behind. */
  ghost predicate Aborted(s: Stream) { Faithful(s) || Sealed(s) }

  lemma TakeSliceKeeps(s: Stream, m: nat, credit: bool, limit: nat)
    requires Sound(s, limit) && !s.life.finSent && Lead(s.hdr) == [] && Avail(s.buf) != []
    ensures TakeSlice(s, m, credit).1 == Fail ==> Aborted(TakeSlice(s, m, credit).0)
    ensures TakeSlice(s, m, credit).1 != Fail ==> Sound(TakeSlice(s, m, credit).0, limit)
  {
    var k := Min(m, Min(|Avail(s.buf)|, SEND_CHUNK));
    if k == 0 {
      WakeKeeps(s, limit);
    } else if Refunds(s, k, credit) {
      RefundKeeps(s, k, limit);
      var last := Taken(s, k).life.finSent;
      WakeKeeps(Refund(Take(s, k, last), k, last), limit);
    } else {
      FailedTake(s, k);
    }
  }

  lemma FailedTake(s: Stream, k: nat)
    requires Faithful(s) && !s.life.finSent && Lead(s.hdr) == []
    requires 0 < k <= |Avail(s.buf)|
    ensures Aborted(Take(s, k, Taken(s, k).life.finSent))
  {
    TakeKeeps(s, k);
    var u := Taken(s, k);
    var t := Take(s, k, u.life.finSent);
    if u.life.finSent {
      PrefixIsOrdered(u.log.sent, u.log.received);
    } else {
      assert t == u;
    }
  }

  /** The parts of the record no part of a flush touches. */
  ghost predicate SameFrame(s: Stream, t: Stream) {
    && t.id == s.id && t.key == s.key && t.life.fate == s.life.fate
    && t.life.eof == s.life.eof && t.life.backendClosed == s.life.backendClosed
    && t.log.received == s.log.received
    && |t.buf.body| - t.buf.off <= |s.buf.body| - s.buf.off
    && (s.wake.blocked == s.wake.armed ==> t.wake.blocked == t.wake.armed)
    && (t.backend == s.backend || t.backend == None)
  }

  lemma TakeSliceFrame(s: Stream, m: nat, credit: bool)
    requires Avail(s.buf) != [] && !s.life.finSent
    ensures var (t, out) := TakeSlice(s, m, credit);
            SameFrame(s, t) && t.hdr == s.hdr && t.backend == s.backend && StopsArmed(Flow(t, [], out))
  {
    var n := |Avail(s.buf)|;
    var k := Min(m, Min(n, SEND_CHUNK));
    var t := Take(s, k, s.life.eof && !s.hdr.pending && k == n);
    assert SameFrame(s, t) && t.hdr == s.hdr && t.backend == s.backend;
    if k > 0 && Refunds(s, k, credit) {
      var u := Refund(t, k, s.life.eof && !s.hdr.pending && k == n);
      assert SameFrame(t, u) && u.hdr == t.hdr && u.backend == t.backend;
    }
  }

  lemma OfferBodyFrame(s: Stream, rs: seq<Reply>)
    requires Avail(s.buf) != [] && !s.life.finSent
    ensures var f := OfferBody(s, rs);
            SameFrame(s, f.s) && f.s.hdr == s.hdr && f.s.backend == s.backend && StopsArmed(f)
  {
    match Answer(s.life.fate, rs) {
      case Again =>
      case Error =>
      case Accept(m, credit) => TakeSliceFrame(s, m, credit);
    }
  }

  lemma OfferBodyKeeps(s: Stream, rs: seq<Reply>, limit: nat)
    requires Sound(s, limit) && !s.life.finSent && Lead(s.hdr) == [] && Avail(s.buf) != []
    ensures var f := OfferBody(s, rs);
            (f.out == Fail ==> Aborted(f.s)) && (f.out != Fail ==> Sound(f.s, limit))
  {
    match Answer(s.life.fate, rs) {
      case Again => WakeKeeps(s, limit);
      case Error =>
      case Accept(m, credit) => TakeSliceKeeps(s, m, credit, limit);
    }
  }

  lemma {:induction false} FlushBodyKeeps(s: Stream, rs: seq<Reply>, limit: nat)
    requires Sound(s, limit) && Lead(s.hdr) == []
    requires s.life.finSent ==> Avail(s.buf) == []
    ensures var f := FlushBody(s, rs);
            && SameFrame(s, f.s) && f.s.hdr == s.hdr && f.s.backend == s.backend && StopsArmed(f)
            && (f.out == Fail ==> Aborted(f.s)) && (f.out != Fail ==> Sound(f.s, limit))
            && (f.out == Go ==> f.s.buf.body == [])
    decreases |s.buf.body| - s.buf.off
  {
    if Avail(s.buf) == [] {
      var t := FlushBody(s, rs).s;
      assert Avail(t.buf) == Avail(s.buf);
      assert Pending(t) == Pending(s);
    } else {
      OfferBodyFrame(s, rs);
      OfferBodyKeeps(s, rs, limit);
      var f := OfferBody(s, rs);
      if f.out == Go {
        NothingAfterFin(f.s);
        FlushBodyKeeps(f.s, f.rest, limit);
      }
    }
  }

  /** Once HTTP/3 has the FIN, nothing is left over. */
  lemma NothingAfterFin(s: Stream)
    requires Faithful(s)
    ensures s.life.finSent ==> Pending(s) == [] && Avail(s.buf) == [] && !s.hdr.pending && s.life.eof
  {
    if s.life.finSent {
      PrefixIsOrdered(s.log.sent, s.log.received);
      assert |s.log.received| == |s.log.sent| + |Pending(s)|;
      assert |Octets(Avail(s.buf))| == |Avail(s.buf)|;
    }
  }

  lemma FlushTrailersKeeps(s: Stream, rs: seq<Reply>, limit: nat)
    requires Sound(s, limit) && Lead(s.hdr) == [] && s.buf.body == []
    ensures var f := FlushTrailers(s, rs);
            && SameFrame(s, f.s) && f.s.buf == s.buf && StopsArmed(f) && Sound(f.s, limit)
            && (f.out == Go ==> !f.s.hdr.pending)
  {
    hide PhaseOf, BodyOf, KindOf, Octets;
    var f := FlushTrailers(s, rs);
    if s.hdr.pending {
      NothingAfterFin(s);
      if f.out == Go {
        TrailersSent(s, rs);
      } else {
        assert Pending(f.s) == Pending(s);
      }
    }
  }

  lemma TrailersSent(s: Stream, rs: seq<Reply>)
    requires Faithful(s) && s.hdr.pending && s.hdr.trailers && s.buf.body == [] && !s.life.finSent
    requires FlushTrailers(s, rs).out == Go
    ensures Faithful(FlushTrailers(s, rs).s)
  {
    var t := FlushTrailers(s, rs).s;
    var ts := [Head(s.hdr.block)] + FinIf(s.life.eof);
    assert Pending(s) == ts + [];
    SentSplit(s.log.sent, ts, [], s.log.received);
    PhaseHead(PhaseOf(s.log.sent), s.hdr.block, s.life.eof);
    assert Pending(t) == [];
    assert t.log.sent == s.log.sent + ts;
  }

  lemma FinSent(s: Stream, rs: seq<Reply>)
    requires Faithful(s) && !s.hdr.pending && s.buf.body == [] && s.life.eof && !s.life.finSent
    requires FlushFin(s, rs).out == Go
    ensures Faithful(FlushFin(s, rs).s)
  {
    var t := FlushFin(s, rs).s;
    assert Pending(s) == [Fin] + [];
    SentSplit(s.log.sent, [Fin], [], s.log.received);
    PhaseFin(PhaseOf(s.log.sent));
    assert Pending(t) == [];
  }

  lemma FlushFinKeeps(s: Stream, rs: seq<Reply>, limit: nat)
    requires Sound(s, limit) && !s.hdr.pending && s.buf.body == []
    ensures var f := FlushFin(s, rs);
            && SameFrame(s, f.s) && f.s.buf == s.buf && f.s.hdr == s.hdr && StopsArmed(f) && Sound(f.s, limit)
            && (f.out == Go ==> s.life.eof ==> f.s.life.finSent)
  {
    var f := FlushFin(s, rs);
    if s.life.eof && !s.life.finSent && f.out == Go {
      FinSent(s, rs);
    } else {
      assert Pending(f.s) == Pending(s);
    }
  }

  lemma SettleKeeps(s: Stream, limit: nat)
    requires Sound(s, limit)
    ensures SameFrame(s, Settle(s)) && Sound(Settle(s), limit) && Settle(s).wake == Wake(false, false)
    ensures Settle(s).hdr == s.hdr && Settle(s).buf == s.buf && Settle(s).life == s.life
  {
    assert Pending(Settle(s)) == Pending(s);
  }

  lemma FlushEndKeeps(s: Stream, rs: seq<Reply>, limit: nat)
    requires Sound(s, limit) && Lead(s.hdr) == [] && s.buf.body == []
    ensures var f := FlushEnd(s, rs);
            && SameFrame(s, f.s) && f.out != Go && Sound(f.s, limit)
            && (f.out == Stop ==> Rests(f.s))
  {
    var f3 := FlushTrailers(s, rs);
    FlushTrailersKeeps(s, rs, limit);
    if f3.out == Go {
      FlushFinKeeps(f3.s, f3.rest, limit);
      SettleKeeps(FlushFin(f3.s, f3.rest).s, limit);
    }
  }

  lemma FlushHeadKeeps(s: Stream, rs: seq<Reply>, limit: nat)
    requires Sound(s, limit) && !s.life.finSent
    ensures var f := FlushHead(s, rs);
            && SameFrame(s, f.s) && StopsArmed(f) && Sound(f.s, limit)
            && (f.out == Go ==> Lead(f.s.hdr) == [])
  {
    hide PhaseOf, BodyOf, KindOf, Octets;
    var f := FlushHead(s, rs);
    if s.hdr.pending && !s.hdr.trailers && f.out == Go {
      HeadSentKeeps(s, rs);
    } else {
      assert Pending(f.s) == Pending(s);
    }
  }

  lemma FlushRestKeeps(s: Stream, rs: seq<Reply>, limit: nat)
    requires Sound(s, limit) && Lead(s.hdr) == []
    ensures var f := FlushRest(s, rs);
            && SameFrame(s, f.s) && f.out != Go && (f.out == Fail ==> Aborted(f.s))
            && (f.out == Stop ==> Sound(f.s, limit) && Rests(f.s))
  {
    NothingAfterFin(s);
    FlushBodyKeeps(s, rs, limit);
    var f2 := FlushBody(s, rs);
    if f2.out == Go {
      FlushEndKeeps(f2.s, f2.rest, limit);
    }
  }

  /** A flush that returns 0 leaves a sound stream that is either armed or has nothing to send;
      one that fails leaves an accepted prefix. */
  lemma FlushKeeps(s: Stream, rs: seq<Reply>, limit: nat)
    requires Sound(s, limit)
    ensures var f := Flush(s, rs);
            && SameFrame(s, f.s) && f.out != Go && (f.out == Fail ==> Aborted(f.s))
            && (f.out == Stop ==> Sound(f.s, limit) && (s.life.finSent || Rests(f.s)))
            && (s.life.finSent ==> f.s == s)
  {
    if !s.life.finSent {
      FlushHeadKeeps(s, rs, limit);
      var f1 := FlushHead(s, rs);
      if f1.out == Go {
        FlushRestKeeps(f1.s, f1.rest, limit);
      }
    }
  }
}

/**
 The backend callbacks keep the stream invariant, and a callback that fails
 leaves a stream from which backend_destroy restores it.
 */
module RelayCallbacks {
  import opened Common
  import opened ResponseOrder
  import opened Relay
  import opened RelayProofs
  import opened RelayInvariant

  // Frames nghttp2 delivers (section 8.1 of RFC 9113): DATA only between the final
  // block and the end, a block after the final one only as trailers that end the stream.

  predicate AdmitsHeaders(s: Stream, end: bool) {
    && s.backend.Some? && !s.life.backendClosed
    && (PhaseOf(s.log.received) == AwaitFinal || (PhaseOf(s.log.received) == Body && end))
  }

  predicate AdmitsData(s: Stream) {
    s.backend.Some? && !s.life.backendClosed && PhaseOf(s.log.received) == Body
  }

  // ---- header blocks ----

  ghost predicate CollectInv(c: Collect) {
    && !c.pending && c.statusSeen == StatusOf(c.block).Some? && !(c.trailers && c.statusSeen)
    && c.informational == (KindOf(c.block) == Interim)
    && |c.block| <= MAX_HEADERS && c.bytes <= MAX_HEADER_BYTES
    && forall h <- c.block :: !HopByHop(h)
  }

  lemma CollectFieldKeeps(c: Collect, h: Header)
    requires CollectInv(c)
    ensures var (c', ok) := CollectField(c, h);
            c'.trailers == c.trailers && !c'.pending && (ok ==> CollectInv(c'))
  {
    StatusOfAppend(c.block, h);
  }

  /** A collected block has at most one status, which decides its kind; trailers have none; it is
      bounded, and no hop-by-hop field crosses the proxy. */
  lemma {:induction false} CollectAllKeeps(c: Collect, fields: seq<Header>)
    requires CollectInv(c)
    ensures var (c', ok) := CollectAll(c, fields);
            c'.trailers == c.trailers && !c'.pending && (ok ==> CollectInv(c'))
    decreases fields
  {
    if fields != [] {
      CollectFieldKeeps(c, fields[0]);
      var (c', ok) := CollectField(c, fields[0]);
      if ok {
        CollectAllKeeps(c', fields[1..]);
      }
    }
  }

  // ---- delivering tokens ----

  /** Between blocks, everything but octets has been accepted. */
  lemma OnlyOctetsPending(s: Stream)
    requires Faithful(s) && !s.hdr.pending && !s.life.eof
    ensures Pending(s) == Octets(Avail(s.buf))
    ensures PhaseOf(s.log.received) == PhaseOf(s.log.sent) || PhaseOf(s.log.sent) == Body == PhaseOf(s.log.received)
    ensures PhaseOf(s.log.sent) == AwaitFinal ==> Avail(s.buf) == []
  {
    assert Pending(s) == Octets(Avail(s.buf));
    PhaseSplit(AwaitFinal, s.log.sent, Octets(Avail(s.buf)));
    OctetsPhase(PhaseOf(s.log.sent), Avail(s.buf));
  }

  function WithBlock(s: Stream, c: Collect, end: bool): Stream {
    s.(hdr := c.(pending := true), life := s.life.(eof := s.life.eof || end),
       log := s.log.(received := s.log.received + ([Head(c.block)] + FinIf(end))))
  }

  lemma BlockPhase(s: Stream, c: Collect, end: bool)
    requires Faithful(s) && !s.hdr.pending && AdmitsHeaders(s, end)
    requires CollectInv(c) && c.trailers == s.life.started
    requires c.trailers || c.statusSeen
    requires !(c.informational && end)
    ensures PhaseOf(s.log.received + ([Head(c.block)] + FinIf(end))) != Broken
    ensures end <==> PhaseOf(s.log.received + ([Head(c.block)] + FinIf(end))) == Ended
    ensures !s.life.eof && !s.life.finSent
  {
    var ts := [Head(c.block)] + FinIf(end);
    OnlyOctetsPending(s);
    PhaseSplit(AwaitFinal, s.log.received, ts);
    PhaseHead(PhaseOf(s.log.received), c.block, end);
    NothingAfterFin(s);
  }

  lemma BlockKeeps(s: Stream, c: Collect, end: bool)
    requires Faithful(s) && !s.hdr.pending && AdmitsHeaders(s, end)
    requires CollectInv(c) && c.trailers == s.life.started
    requires c.trailers || c.statusSeen
    requires !(c.informational && end)
    ensures Faithful(WithBlock(s, c, end))
  {
    hide PhaseOf, BodyOf;
    var t := WithBlock(s, c, end);
    BlockPhase(s, c, end);
    OnlyOctetsPending(s);
    var avail := Octets(Avail(s.buf));
    if c.trailers {
      assert Pending(t) == avail + ([Head(c.block)] + FinIf(end));
    } else {
      assert avail == [];
      assert Pending(t) == [Head(c.block)] + FinIf(end);
    }
    assert t.log.sent + Pending(t) == t.log.received;
  }

  lemma DataKeeps(s: Stream, data: seq<Byte>)
    requires Faithful(s) && AdmitsData(s)
    ensures Faithful(Buffered(s, data))
    ensures Avail(Buffered(s, data).buf) == Avail(s.buf) + data
  {
    var t := Buffered(s, data);
    NoTrailYet(s);
    assert Avail(t.buf) == Avail(s.buf) + data;
    OctetsConcat(Avail(s.buf), data);
    assert Pending(s) == Lead(s.hdr) + Octets(Avail(s.buf));
    assert Pending(t) == Lead(s.hdr) + (Octets(Avail(s.buf)) + Octets(data));
    assert t.log.sent + Pending(t) == t.log.received;
    PhaseSplit(AwaitFinal, s.log.received, Octets(data));
    OctetsPhase(Body, data);
  }

  /** While the body is open, nothing waits behind it. */
  lemma NoTrailYet(s: Stream)
    requires Faithful(s) && PhaseOf(s.log.received) == Body
    ensures Trail(s.hdr, s.life) == [] && !s.life.eof && !s.life.finSent
  {
    NothingAfterFin(s);
    if s.hdr.pending && s.hdr.trailers {
      var front := s.log.sent + Octets(Avail(s.buf));
      assert s.log.received == front + ([Head(s.hdr.block)] + FinIf(false));
      PhaseSplit(AwaitFinal, front, [Head(s.hdr.block)] + FinIf(false));
      PhaseHead(PhaseOf(front), s.hdr.block, false);
      assert false;
    }
  }

  function Ending(s: Stream): Stream {
    s.(life := s.life.(eof := true), log := s.log.(received := s.log.received + FinIf(!s.life.eof)))
  }

  lemma EndKeeps(s: Stream)
    requires Faithful(s) && AdmitsData(s)
    ensures Faithful(Ending(s))
  {
    var t := Ending(s);
    NoTrailYet(s);
    assert Pending(t) == Pending(s) + [Fin];
    assert t.log.sent + Pending(t) == t.log.received;
    PhaseSplit(AwaitFinal, s.log.received, [Fin]);
    PhaseFin(Body);
  }

  // ---- the callbacks ----

  /** A callback either returns 0 with the invariant or fails recoverably. */
  ghost predicate Handled(f: Flow, limit: nat) {
    && f.out != Go
    && (f.out == Stop ==> StreamInv(f.s, limit))
    && (f.out == Fail ==> Failing(f.s))
  }

  lemma FlushDelivered(t: Stream, rs: seq<Reply>, limit: nat)
    requires Faithful(t) && |Avail(t.buf)| <= limit && t.wake.blocked == t.wake.armed
    requires (t.life.fate == Relaying && Credited(t, limit)) || t.life.fate == Closing
    ensures Handled(Flush(t, rs), limit)
  {
    var f := Flush(t, rs);
    if t.life.fate == Relaying {
      FlushKeeps(t, rs, limit);
      if f.out == Fail {
        AbortedPrefixed(f.s);
      }
    } else {
      FlushClosing(t, rs);
      SameAborted(t, f.s);
      AbortedPrefixed(f.s);
    }
  }

  lemma FailingNow(s: Stream, limit: nat)
    requires StreamInv(s, limit) && s.backend.Some?
    ensures Failing(s)
  {
    AbortedPrefixed(s);
  }

  lemma BodyOfBlock(b: Block, fin: bool)
    ensures BodyOf([Head(b)] + FinIf(fin)) == []
  {
    var ts := [Head(b)] + FinIf(fin);
    assert ts[1..] == FinIf(fin);
    assert BodyOf(FinIf(fin)) == [];
  }

  lemma OnHeadersKeeps(s: Stream, fields: seq<Header>, end: bool, rs: seq<Reply>, limit: nat)
    requires StreamInv(s, limit) && AdmitsHeaders(s, end)
    ensures Handled(OnHeaders(s, fields, end, rs), limit)
  {
    hide PhaseOf, BodyOf, CollectAll, Flush;
    FailingNow(s, limit);
    if !s.hdr.pending {
      var c0 := Collect([], 0, false, s.life.started, false, false);
      CollectAllKeeps(c0, fields);
      var (c, ok) := CollectAll(c0, fields);
      if !ok || (!c.trailers && !c.statusSeen) || (c.informational && end) {
        var t := s.(hdr := c);
        if Faithful(s) {
          assert Pending(t) == Pending(s);
        }
      } else {
        BlockKeeps(s, c, end);
        var t := WithBlock(s, c, end);
        BodyOfConcat(s.log.received, [Head(c.block)] + FinIf(end));
        BodyOfBlock(c.block, end);
        FlushDelivered(t, rs, limit);
      }
    }
  }

  lemma OnChunkKeeps(s: Stream, data: seq<Byte>, credit: bool, rs: seq<Reply>, limit: nat)
    requires StreamInv(s, limit) && AdmitsData(s)
    ensures Handled(OnChunk(s, data, limit, credit, rs), limit)
  {
    FailingNow(s, limit);
    if Fits(s.buf, data, limit) {
      DataKeeps(s, data);
      var t := Buffered(s, data);
      if credit {
        BodyOfConcat(s.log.received, Octets(data));
        BodyOfOctets(data);
        FlushDelivered(t, rs, limit);
      } else {
        var u := OnChunk(s, data, limit, credit, rs).s;
        assert Pending(u) == Pending(t);
        AbortedPrefixed(u);
      }
    }
  }

  lemma OnDataEndKeeps(s: Stream, rs: seq<Reply>, limit: nat)
    requires StreamInv(s, limit) && AdmitsData(s)
    ensures Handled(OnDataEnd(s, rs), limit)
  {
    FailingNow(s, limit);
    EndKeeps(s);
    var t := Ending(s);
    NoTrailYet(s);
    BodyOfFin(s.log.received);
    FlushDelivered(t, rs, limit);
  }

  lemma OnStreamCloseKeeps(s: Stream, error: bool, limit: nat)
    requires StreamInv(s, limit) && s.backend.Some?
    ensures StreamInv(OnStreamClose(s, error), limit)
  {
    var t := OnStreamClose(s, error);
    FailingNow(s, limit);
    if s.life.fate == Relaying {
      NothingAfterFin(s);
      if !error || s.life.finSent {
        assert Pending(t) == Pending(s);
      }
    } else if !error {
      SameButClosed(s, t);
    }
  }

  lemma SameButClosed(s: Stream, t: Stream)
    requires Aborted(s) && t.log == s.log && t.hdr == s.hdr && t.buf == s.buf
    requires t.life == s.life.(backendClosed := t.life.backendClosed, fate := t.life.fate)
    ensures Aborted(t)
  {
    if Faithful(s) {
      assert Pending(t) == Pending(s);
    }
  }

  lemma GatewayPhase(sent: seq<Token>)
    requires PhaseOf(sent) == AwaitFinal
    ensures PhaseOf(sent + [Head(BAD_GATEWAY), Fin]) == Ended
    ensures BodyOf(sent + [Head(BAD_GATEWAY), Fin]) == BodyOf(sent) == []
  {
    assert [Head(BAD_GATEWAY), Fin] == [Head(BAD_GATEWAY)] + FinIf(true);
    PhaseSplit(AwaitFinal, sent, [Head(BAD_GATEWAY), Fin]);
    PhaseHead(AwaitFinal, BAD_GATEWAY, true);
    BodyOfConcat(sent, [Head(BAD_GATEWAY), Fin]);
    BodyOfBlock(BAD_GATEWAY, true);
    NoBodyYet(sent);
  }

  lemma {:induction false} NoBodyYet(ts: seq<Token>)
    requires PhaseOf(ts) == AwaitFinal
    ensures BodyOf(ts) == []
  {
    if ts != [] {
      if ts[0].Octet? || (ts[0].Head? && KindOf(ts[0].block) != Interim) || ts[0].Fin? {
        PhaseNeverBack(Advance(AwaitFinal, ts[0]), ts[1..]);
      }
      NoBodyYet(ts[1..]);
    }
  }

  lemma {:induction false} PhaseNeverBack(ph: Phase, ts: seq<Token>)
    requires ph != AwaitFinal
    ensures PhaseFrom(ph, ts) != AwaitFinal
    decreases ts
  {
    if ts != [] {
      PhaseNeverBack(Advance(ph, ts[0]), ts[1..]);
    }
  }

  /** Losing the backend leaves every attached stream answered, closed or refused. */
  lemma BackendGoneKeeps(s: Stream, reply: Reply, limit: nat)
    requires Failing(s)
    ensures StreamInv(BackendGone(s, reply), limit)
  {
    var t := BackendGone(s, reply);
    if s.life.started {
      if s.life.finSent && s.life.fate == Relaying {
        NothingAfterFin(s);
        assert Pending(t) == [];
      }
    } else {
      assert PhaseOf(s.log.sent) == AwaitFinal;
      GatewayPhase(s.log.sent);
    }
  }

  // ---- identity and attachment ----

  /** The record stays the same stream's; it can only leave its backend, and not by failing. */
  ghost predicate SameStream(s: Stream, f: Flow) {
    && f.s.id == s.id && f.s.key == s.key
    && (f.s.backend == s.backend || f.s.backend == None)
    && (f.out == Fail ==> f.s.backend == s.backend)
  }

  lemma OfferSame(s: Stream, rs: seq<Reply>)
    requires Avail(s.buf) != []
    ensures var f := OfferBody(s, rs); f.s.id == s.id && f.s.key == s.key && f.s.backend == s.backend
  {
  }

  lemma {:induction false} FlushBodySame(s: Stream, rs: seq<Reply>)
    ensures var f := FlushBody(s, rs); f.s.id == s.id && f.s.key == s.key && f.s.backend == s.backend
    decreases |s.buf.body| - s.buf.off
  {
    if Avail(s.buf) != [] {
      OfferSame(s, rs);
      var f := OfferBody(s, rs);
      if f.out == Go {
        FlushBodySame(f.s, f.rest);
      }
    }
  }

  lemma FlushEndSame(s: Stream, rs: seq<Reply>)
    ensures SameStream(s, FlushEnd(s, rs))
  {
    var f3 := FlushTrailers(s, rs);
    if f3.out == Go {
      assert f3.s.id == s.id && f3.s.key == s.key && f3.s.backend == s.backend;
    }
  }

  lemma FlushSame(s: Stream, rs: seq<Reply>)
    ensures SameStream(s, Flush(s, rs))
  {
    if !s.life.finSent {
      var f1 := FlushHead(s, rs);
      if f1.out == Go {
        FlushBodySame(f1.s, f1.rest);
        var f2 := FlushBody(f1.s, f1.rest);
        if f2.out == Go {
          FlushEndSame(f2.s, f2.rest);
        }
      }
    }
  }

  lemma CallbacksSame(s: Stream, fields: seq<Header>, data: seq<Byte>, flag: bool, limit: nat, rs: seq<Reply>)
    ensures SameStream(s, OnHeaders(s, fields, flag, rs))
    ensures SameStream(s, OnChunk(s, data, limit, flag, rs))
    ensures SameStream(s, OnDataEnd(s, rs))
  {
    var (c, ok) := CollectAll(Collect([], 0, false, s.life.started, false, false), fields);
    FlushSame(WithBlock(s, c, flag), rs);
    FlushSame(Buffered(s, data), rs);
    FlushSame(Ending(s), rs);
  }
}

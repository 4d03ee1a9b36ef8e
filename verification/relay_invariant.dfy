/**
 The invariant of one proxied response, kept by every handler, and what it says
 about the response HTTP/3 sees.
 */
module RelayInvariant {
  import opened Common
  import opened ResponseOrder
  import opened Relay
  import opened RelayProofs

  ghost predicate Prefixed(s: Stream) {
    s.log.sent <= s.log.received && PhaseOf(s.log.received) != Broken
  }

  /** Blocked and armed agree, work left over is woken up, and by fate:
      a relayed response is faithful and its credit accounted for; a closed one is a prefix;
      one answered by the proxy carries the 502 or nothing. */
  ghost predicate StreamInv(s: Stream, limit: nat) {
    && |Avail(s.buf)| <= limit
    && s.wake.blocked == s.wake.armed && Awake(s)
    && match s.life.fate
       case Relaying => Sound(s, limit)
       case Closing => Prefixed(s) && (s.backend.Some? ==> Aborted(s))
       case Gateway => s.backend.None? && s.life.finSent && PhaseOf(s.log.sent) == Ended && BodyOf(s.log.sent) == []
       case Refused =>
         && s.backend.None? && s.buf.body == [] && !s.hdr.pending
         && BodyOf(s.log.sent) == [] && (!s.life.finSent ==> Prefixed(s))
         && PhaseOf(s.log.sent) == (if s.life.finSent then Broken else AwaitFinal)
  }

  /** A failed callback leaves a stream from which backend_destroy recovers. */
  ghost predicate Failing(s: Stream) {
    && s.wake.blocked == s.wake.armed
    && (s.life.fate == Relaying || s.life.fate == Closing) && Prefixed(s) && Aborted(s)
  }

  lemma AbortedPrefixed(s: Stream)
    requires Aborted(s)
    ensures Prefixed(s)
  {
  }

  // ---- a turn: flush, and close the request if it fails ----

  function Turn(s: Stream, rs: seq<Reply>): Stream
  {
    var f := Flush(s, rs);
    if f.out == Fail then f.s.(life := f.s.life.(fate := Closing)) else f.s
  }

  /** A closed request accepts nothing, so a flush leaves its history alone. */
  lemma FlushClosing(s: Stream, rs: seq<Reply>)
    requires s.life.fate == Closing
    ensures var f := Flush(s, rs);
            && f.out != Go && f.s.log == s.log && f.s.life == s.life && f.s.hdr == s.hdr && f.s.id == s.id && f.s.key == s.key
            && Avail(f.s.buf) == Avail(s.buf) && f.s.buf.unconsumed == s.buf.unconsumed
            && (f.s.backend == s.backend || f.s.backend == None)
            && (s.wake.blocked == s.wake.armed ==> f.s.wake.blocked == f.s.wake.armed)
  {
    if !s.life.finSent {
      var f1 := FlushHead(s, rs);
      if f1.out == Go {
        assert f1.s == s;
        if Avail(s.buf) == [] {
          var t := s.(buf := s.buf.(body := [], off := 0));
          assert FlushBody(s, f1.rest) == Flow(t, f1.rest, Go);
          var f3 := FlushTrailers(t, f1.rest);
          if f3.out == Go {
            assert f3.s == t;
          }
        }
      }
    }
  }

  lemma SameAborted(s: Stream, t: Stream)
    requires Aborted(s) && t.log == s.log && t.life.(fate := s.life.fate) == s.life && t.hdr == s.hdr
    requires Avail(t.buf) == Avail(s.buf)
    ensures Aborted(t)
  {
    assert Pending(t) == Pending(s);
  }

  lemma TurnRelaying(s: Stream, rs: seq<Reply>, limit: nat)
    requires StreamInv(s, limit) && s.life.fate == Relaying
    ensures StreamInv(Turn(s, rs), limit)
  {
    FlushKeeps(s, rs, limit);
    var f := Flush(s, rs);
    if f.out == Fail {
      var t := Turn(s, rs);
      SameAborted(f.s, t);
      AbortedPrefixed(t);
    }
  }

  lemma BodyOfFin(ts: seq<Token>)
    ensures BodyOf(ts + [Fin]) == BodyOf(ts)
  {
    BodyOfConcat(ts, [Fin]);
    assert [Fin][1..] == [];
  }

  lemma BareFin(ts: seq<Token>)
    requires PhaseOf(ts) == AwaitFinal
    ensures PhaseOf(ts + [Fin]) == Broken
  {
    PhaseSplit(AwaitFinal, ts, [Fin]);
    PhaseFin(AwaitFinal);
  }

  /** A refused 502 leaves nothing but a FIN to send, and that only after END_STREAM. */
  lemma RefusedFlush(s: Stream, rs: seq<Reply>)
    requires s.life.fate == Refused && !s.life.finSent && s.buf.body == [] && !s.hdr.pending
    ensures Flush(s, rs) ==
            if !s.life.eof then Flow(Settle(s), rs, Stop)
            else match Answer(Refused, rs)
              case Again => Flow(SetBlocked(s, true), Tail(rs), Stop)
              case Error => Flow(s, Tail(rs), Fail)
              case Accept(_, _) =>
                Flow(Settle(s.(life := s.life.(finSent := true), log := Log1(s.log, [Fin]))), Tail(rs), Stop)
  {
    assert s.(buf := s.buf.(body := [], off := 0)) == s;
    assert FlushBody(s, rs) == Flow(s, rs, Go);
    assert FlushTrailers(s, rs) == Flow(s, rs, Go);
    assert Flush(s, rs) == FlushEnd(s, rs);
  }

  lemma TurnRefused(s: Stream, rs: seq<Reply>, limit: nat)
    requires StreamInv(s, limit) && s.life.fate == Refused
    ensures StreamInv(Turn(s, rs), limit)
  {
    hide PhaseOf, BodyOf;
    if s.life.finSent {
      assert Flush(s, rs) == Flow(s, rs, Stop);
    } else {
      hide Flush;
      RefusedFlush(s, rs);
      BareFin(s.log.sent);
      BodyOfFin(s.log.sent);
    }
  }

  lemma TurnClosing(s: Stream, rs: seq<Reply>, limit: nat)
    requires StreamInv(s, limit) && s.life.fate == Closing
    ensures StreamInv(Turn(s, rs), limit)
  {
    FlushClosing(s, rs);
    var t := Turn(s, rs);
    assert t == Flush(s, rs).s;
    if s.backend.Some? {
      SameAborted(s, t);
    }
  }

  /** Every turn of the rotation keeps the invariant, whatever HTTP/3 answers. */
  lemma TurnKeeps(s: Stream, rs: seq<Reply>, limit: nat)
    requires StreamInv(s, limit)
    ensures StreamInv(Turn(s, rs), limit)
  {
    match s.life.fate {
      case Relaying => TurnRelaying(s, rs, limit);
      case Closing => TurnClosing(s, rs, limit);
      case Gateway =>
      case Refused => TurnRefused(s, rs, limit);
    }
  }
}

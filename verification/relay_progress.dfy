/**
 Progress of one response: a willing HTTP/3 drains everything in one turn, and
 the one way a backend can leave a response that no turn completes.
 */
module RelayProgress {
  import opened Common
  import opened ResponseOrder
  import opened Relay
  import opened RelayProofs
  import opened RelayInvariant
  import opened RelayCallbacks

  /** HTTP/3 takes whole slices and nghttp2 takes the credit back. */
  predicate Willing(rs: seq<Reply>) {
    forall i :: 0 <= i < |rs| ==> rs[i].Accept? && rs[i].n >= SEND_CHUNK && rs[i].credit
  }

  /** What any flush needs at most: one answer per buffered byte and three more. */
  predicate Enough(s: Stream, rs: seq<Reply>) { Willing(rs) && |rs| >= |Avail(s.buf)| + 3 }

  lemma {:induction false} BodyDrains(s: Stream, rs: seq<Reply>, limit: nat)
    requires Sound(s, limit) && Lead(s.hdr) == [] && s.life.fate == Relaying
    requires s.life.finSent ==> Avail(s.buf) == []
    requires Willing(rs) && |rs| >= |Avail(s.buf)|
    ensures var f := FlushBody(s, rs); f.out == Go && Willing(f.rest) && |f.rest| >= |rs| - |Avail(s.buf)|
    decreases |s.buf.body| - s.buf.off
  {
    if Avail(s.buf) != [] {
      OfferBodyFrame(s, rs);
      OfferBodyKeeps(s, rs, limit);
      var f := OfferBody(s, rs);
      assert rs[0].Accept?;
      assert f.out == Go && |Avail(f.s.buf)| < |Avail(s.buf)|;
      NothingAfterFin(f.s);
      BodyDrains(f.s, f.rest, limit);
    }
  }

  lemma EndDrains(s: Stream, rs: seq<Reply>, limit: nat)
    requires Sound(s, limit) && Lead(s.hdr) == [] && s.buf.body == [] && s.life.fate == Relaying
    requires Willing(rs) && |rs| >= 2
    ensures FlushEnd(s, rs).out == Stop && FlushEnd(s, rs).s.wake == Wake(false, false)
  {
    assert rs[0].Accept? && rs[1].Accept?;
    var f3 := FlushTrailers(s, rs);
    assert f3.out == Go && f3.rest != [] && f3.rest[0].Accept?;
    assert f3.s.life.fate == Relaying;
  }

  lemma FlushDrains(s: Stream, rs: seq<Reply>, limit: nat)
    requires Sound(s, limit) && s.life.fate == Relaying && Enough(s, rs) && !s.life.finSent
    ensures Flush(s, rs).out == Stop && Flush(s, rs).s.wake == Wake(false, false)
  {
    hide Sound, FlushBody, FlushEnd;
    assert rs[0].Accept?;
    var f1 := FlushHead(s, rs);
    FlushHeadKeeps(s, rs, limit);
    assert f1.out == Go && f1.s.buf == s.buf && Willing(f1.rest) && |f1.rest| >= |rs| - 1;
    SoundFin(f1.s, limit);
    BodyDrains(f1.s, f1.rest, limit);
    FlushBodyKeeps(f1.s, f1.rest, limit);
    var f2 := FlushBody(f1.s, f1.rest);
    EndDrains(f2.s, f2.rest, limit);
  }

  lemma SoundFin(s: Stream, limit: nat)
    requires Sound(s, limit)
    ensures s.life.finSent ==> Avail(s.buf) == []
  {
    NothingAfterFin(s);
  }

  /** There is no per-turn quota: a willing transport takes the whole response in one turn. */
  lemma DrainsInOneTurn(s: Stream, rs: seq<Reply>, limit: nat)
    requires Sound(s, limit) && s.life.fate == Relaying && Enough(s, rs)
    ensures var t := Turn(s, rs);
            && !HasWork(t) && t.life.fate == Relaying && t.log.received == s.log.received
            && t.log.sent == t.log.received
  {
    hide Flush;
    FlushKeeps(s, rs, limit);
    if !s.life.finSent {
      FlushDrains(s, rs, limit);
    }
    if s.life.finSent {
      FinishedOnly(s, rs);
    }
    var t := Turn(s, rs);
    NothingAfterFin(t);
    assert Pending(t) == [];
  }

  lemma FinishedOnly(s: Stream, rs: seq<Reply>)
    requires s.life.finSent
    ensures Flush(s, rs) == Flow(s, rs, Stop)
  {
  }

  // ---- every run of turns ----

  /** What a round does to one response: a turn, or the valve stops the round at it. */
  datatype Action = Drain(replies: seq<Reply>) | Hold

  function Act(s: Stream, a: Action): Stream {
    match a
    case Drain(rs) => Turn(s, rs)
    case Hold => SetBlocked(s, true)
  }

  function Acts(s: Stream, acts: seq<Action>): Stream
    decreases acts
  {
    if acts == [] then s else Acts(Act(s, acts[0]), acts[1..])
  }

  /** The backend is done with the response and END_STREAM never came. */
  ghost predicate Unended(s: Stream, limit: nat) {
    && !s.life.eof && !s.life.finSent && s.life.backendClosed
    && (s.life.fate == Closing || (s.life.fate == Relaying && Sound(s, limit)))
  }

  lemma UnendedStays(s: Stream, a: Action, limit: nat)
    requires Unended(s, limit)
    ensures Unended(Act(s, a), limit)
  {
    hide Flush;
    match a {
      case Drain(rs) =>
        if s.life.fate == Closing {
          FlushClosing(s, rs);
        } else {
          EofNeeded(s, rs, limit);
          FlushKeeps(s, rs, limit);
        }
      case Hold =>
        if s.life.fate == Relaying { WakeKeeps(s, limit); }
    }
  }

  lemma {:induction false} NeverEnds(s: Stream, acts: seq<Action>, limit: nat)
    requires Unended(s, limit)
    ensures !Acts(s, acts).life.finSent
    decreases acts
  {
    hide Unended, Act;
    if acts == [] {
      assert !s.life.finSent by { NotYet(s, limit); }
    } else {
      UnendedStays(s, acts[0], limit);
      NeverEnds(Act(s, acts[0]), acts[1..], limit);
    }
  }

  lemma NotYet(s: Stream, limit: nat)
    requires Unended(s, limit)
    ensures !s.life.finSent
  {
  }

  ghost predicate BackendDone(s: Stream, limit: nat) {
    s.life.backendClosed && (s.life.fate == Closing || (s.life.fate == Relaying && Sound(s, limit)))
  }

  lemma {:induction false} StaysClosed(s: Stream, acts: seq<Action>, limit: nat)
    requires BackendDone(s, limit)
    ensures Acts(s, acts).life.backendClosed
    decreases acts
  {
    if acts != [] {
      StaysDone(s, acts[0], limit);
      StaysClosed(Act(s, acts[0]), acts[1..], limit);
    }
  }

  lemma StaysDone(s: Stream, a: Action, limit: nat)
    requires BackendDone(s, limit)
    ensures BackendDone(Act(s, a), limit)
  {
    hide Flush;
    match a {
      case Drain(rs) => if s.life.fate == Closing { FlushClosing(s, rs); } else { FlushKeeps(s, rs, limit); }
      case Hold => if s.life.fate == Relaying { WakeKeeps(s, limit); }
    }
  }

  /** A stream the backend closed without error is ever ended, by whatever turns and answers of
      HTTP/3, exactly if END_STREAM had arrived: RST_STREAM(NO_ERROR) before it leaves a response that
      nothing ends, for no frame is admitted on it any more. */
  lemma CleanCloseCompletes(s: Stream, limit: nat)
    requires Sound(s, limit) && s.life.fate == Relaying && s.backend.Some? && !s.life.finSent
    ensures (exists acts :: Acts(OnStreamClose(s, false), acts).life.finSent) <==> s.life.eof
    ensures forall acts, end :: NothingAdmitted(Acts(OnStreamClose(s, false), acts), end)
  {
    hide Acts, Sound, BackendDone, Unended, NothingAdmitted;
    var t := OnStreamClose(s, false);
    CloseIsDone(s, limit);
    if s.life.eof {
      SomeTurnEnds(t, limit);
    } else {
      forall acts ensures !Acts(t, acts).life.finSent { NeverEnds(t, acts, limit); }
    }
    forall acts, end ensures NothingAdmitted(Acts(t, acts), end) {
      StaysClosed(t, acts, limit);
      ClosedAdmits(Acts(t, acts), end);
    }
  }

  predicate NothingAdmitted(s: Stream, end: bool) { !AdmitsHeaders(s, end) && !AdmitsData(s) }

  lemma ClosedAdmits(s: Stream, end: bool)
    requires s.life.backendClosed
    ensures NothingAdmitted(s, end)
  {
  }

  lemma CloseIsDone(s: Stream, limit: nat)
    requires Sound(s, limit) && s.life.fate == Relaying && s.backend.Some? && !s.life.finSent
    ensures var t := OnStreamClose(s, false);
            && Sound(t, limit) && t.life == s.life.(backendClosed := true) && BackendDone(t, limit)
            && (!s.life.eof ==> Unended(t, limit))
  {
    assert Pending(OnStreamClose(s, false)) == Pending(s);
  }

  lemma SomeTurnEnds(s: Stream, limit: nat)
    requires Sound(s, limit) && s.life.fate == Relaying && s.life.eof
    ensures exists acts :: Acts(s, acts).life.finSent
  {
    hide Flush;
    var rs := seq(|Avail(s.buf)| + 3, _ => Accept(SEND_CHUNK, true));
    DrainsInOneTurn(s, rs, limit);
    FlushKeeps(s, rs, limit);
    OneTurn(s, rs);
  }

  lemma OneTurn(s: Stream, rs: seq<Reply>)
    ensures Acts(s, [Drain(rs)]) == Turn(s, rs)
  {
    hide Turn;
    assert [Drain(rs)][1..] == [];
    assert Acts(Turn(s, rs), []) == Turn(s, rs);
  }

  lemma EofNeeded(s: Stream, rs: seq<Reply>, limit: nat)
    requires Sound(s, limit) && !s.life.eof
    ensures !Turn(s, rs).life.finSent
  {
    FlushKeeps(s, rs, limit);
    var f := Flush(s, rs);
    if f.out == Stop {
      NothingAfterFin(f.s);
    } else if Faithful(f.s) {
      NothingAfterFin(f.s);
    }
  }

  /** A 502 refused before END_STREAM had arrived: nothing is left to send. */
  predicate Silenced(s: Stream) {
    && s.life.fate == Refused && !s.life.eof && !s.life.finSent && s.buf.body == [] && !s.hdr.pending
  }

  lemma {:induction false} StaysSilenced(s: Stream, acts: seq<Action>)
    requires Silenced(s)
    ensures var t := Acts(s, acts); Silenced(t) && t.log.sent == s.log.sent && !HasWork(t)
    decreases acts
  {
    hide Flush;
    if acts != [] {
      if acts[0].Drain? { RefusedFlush(s, acts[0].replies); }
      StaysSilenced(Act(s, acts[0]), acts[1..]);
    }
  }

  /** A response whose 502 was refused is ever ended, by whatever turns and answers of HTTP/3, exactly
      if END_STREAM had arrived before the backend was lost; otherwise nothing more is sent on it. */
  lemma RefusedCompletes(s: Stream, limit: nat)
    requires StreamInv(s, limit) && s.life.fate == Refused && !s.life.finSent
    ensures (exists acts :: Acts(s, acts).life.finSent) <==> s.life.eof
    ensures !s.life.eof ==> forall acts :: Acts(s, acts).log.sent == s.log.sent && !HasWork(Acts(s, acts))
  {
    hide Flush;
    if s.life.eof {
      var rs := [Accept(0, true)];
      RefusedFlush(s, rs);
      OneTurn(s, rs);
      assert Acts(s, [Drain(rs)]).life.finSent;
    } else {
      forall acts ensures Silenced(Acts(s, acts)) && Acts(s, acts).log.sent == s.log.sent && !HasWork(Acts(s, acts)) {
        StaysSilenced(s, acts);
      }
    }
  }

  /** The write notification is armed exactly while an unfinished response has work left. */
  lemma ArmedExactlyWhileWorking(s: Stream, rs: seq<Reply>, limit: nat)
    requires Sound(s, limit) && s.life.fate == Relaying && !s.life.finSent
    ensures Flush(s, rs).out == Stop ==> Turn(s, rs).wake.armed == HasWork(Turn(s, rs))
  {
    FlushKeeps(s, rs, limit);
  }

  /** A finished response that the valve armed stays armed: later turns return before releasing it. */
  lemma FinishedStaysArmed(s: Stream, rs: seq<Reply>)
    requires s.life.finSent
    ensures Turn(SetBlocked(s, true), rs).wake.armed && !HasWork(Turn(SetBlocked(s, true), rs))
  {
  }

  /** A peer that respects the stream window it was granted (section 6.9.2 of RFC 9113). */
  predicate WithinWindow(s: Stream, n: nat) { |BodyOf(s.log.received)| + n <= 65535 + s.log.credited }

  /** The buffer refuses DATA exactly when the peer overruns what it was granted beyond the limit,
      so never from a peer within its window when the limit is at least that window. */
  lemma AppendRefusesExactly(s: Stream, data: seq<Byte>, limit: nat)
    requires Sound(s, limit) && AdmitsData(s) && data != []
    ensures Fits(s.buf, data, limit) <==> |BodyOf(s.log.received)| + |data| <= limit + s.log.credited
    ensures limit >= 65535 && WithinWindow(s, |data|) ==> Fits(s.buf, data, limit)
  {
  }
}

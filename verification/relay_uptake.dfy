/**
 How much of a response HTTP/3 has: exactly the bytes it said it took. The
 account is kept on HTTP/3's answers alone.
 */
module RelayUptake {
  import opened Common
  import opened ResponseOrder
  import opened Relay
  import opened RelayProofs

  /** How many of n bytes, offered 16384 at a time, a transport with these answers takes. It is asked
      again while it takes all it is offered and nghttp2 takes the credit back. */
  function Uptake(n: nat, rs: seq<Reply>, closed: bool): (u: nat)
    ensures u <= n
    decreases n
  {
    if n == 0 || rs == [] || !rs[0].Accept? || rs[0].n == 0 then 0
    else
      var offered := if n < 16384 then n else 16384;
      var k := if rs[0].n < offered then rs[0].n else offered;
      if k == offered && (closed || rs[0].credit) then k + Uptake(n - k, rs[1..], closed) else k
  }

  /** t holds what is left of s after the first u buffered bytes went out. */
  ghost predicate Moved(s: Stream, t: Stream, u: nat) {
    u <= |Avail(s.buf)| && Avail(t.buf) == Avail(s.buf)[u..] && BodyOf(t.log.sent) == BodyOf(s.log.sent) + Avail(s.buf)[..u]
  }

  lemma MovedTrans(s: Stream, t: Stream, r: Stream, u: nat, v: nat)
    requires Moved(s, t, u) && Moved(t, r, v)
    ensures Moved(s, r, u + v)
  {
    hide BodyOf, Avail;
    SplitTwice(Avail(s.buf), BodyOf(s.log.sent), u, v);
  }

  lemma SplitTwice(a: seq<Byte>, x: seq<Byte>, u: nat, v: nat)
    requires u + v <= |a|
    ensures a[u..][v..] == a[u + v..] && (x + a[..u]) + a[u..][..v] == x + a[..u + v]
  {
    assert a[..u] + a[u..][..v] == a[..u + v];
  }

  lemma MovedNone(s: Stream, t: Stream)
    requires Avail(t.buf) == Avail(s.buf) && BodyOf(t.log.sent) == BodyOf(s.log.sent)
    ensures Moved(s, t, 0)
  {
    assert BodyOf(s.log.sent) + Avail(s.buf)[..0] == BodyOf(s.log.sent);
  }

  lemma TakeMoves(s: Stream, k: nat, last: bool)
    requires k <= |Avail(s.buf)|
    ensures Moved(s, Take(s, k, last), k)
  {
    var taken := Avail(s.buf)[..k];
    BodyOfConcat(s.log.sent, Octets(taken) + FinIf(last));
    BodyOfConcat(Octets(taken), FinIf(last));
    BodyOfOctets(taken);
    assert BodyOf(FinIf(last)) == [] by { assert [Fin][1..] == []; }
    assert taken + [] == taken;
  }

  /** One slice: HTTP/3 gets exactly what it took of it. */
  lemma SliceMoves(s: Stream, m: nat, credit: bool)
    requires Avail(s.buf) != []
    ensures var offered := Min(|Avail(s.buf)|, 16384); var (t, out) := TakeSlice(s, m, credit); var k := Min(m, offered);
            && Moved(s, t, k)
            && (out == Go ==> k == offered && (s.life.backendClosed || credit))
            && (s.backend.Some? && |Avail(s.buf)| <= s.buf.unconsumed && k == offered && (s.life.backendClosed || credit) ==> out == Go)
  {
    hide BodyOf;
    var n := |Avail(s.buf)|;
    var k := Min(m, Min(n, SEND_CHUNK));
    var last := s.life.eof && !s.hdr.pending && k == n;
    TakeMoves(s, k, last);
    MovedNone(s, SetBlocked(s, true));
  }

  /** One offer of the loop: what goes out, and whether HTTP/3 is asked again. */
  lemma OfferMoves(s: Stream, rs: seq<Reply>, limit: nat)
    requires Sound(s, limit) && Lead(s.hdr) == [] && s.life.fate == Relaying && !s.life.finSent && Avail(s.buf) != []
    ensures var f, n := OfferBody(s, rs), |Avail(s.buf)|;
            && f.s.life.fate == Relaying && f.s.life.backendClosed == s.life.backendClosed && Lead(f.s.hdr) == []
            && (f.out == Go ==> Sound(f.s, limit) && |Avail(f.s.buf)| < n && Moved(s, f.s, n - |Avail(f.s.buf)|)
                                && Uptake(n, rs, s.life.backendClosed) == n - |Avail(f.s.buf)| + Uptake(|Avail(f.s.buf)|, f.rest, s.life.backendClosed))
            && (f.out != Go ==> Moved(s, f.s, Uptake(n, rs, s.life.backendClosed)))
  {
    hide Moved, TakeSlice, BodyOf, PhaseOf;
    var f := OfferBody(s, rs);
    OfferBodyKeeps(s, rs, limit);
    OfferBodyFrame(s, rs);
    if rs != [] && rs[0].Accept? {
      SliceMoves(s, rs[0].n, rs[0].credit);
      Withheld(s, limit);
      LeftOver(s, f.s, Min(rs[0].n, Min(|Avail(s.buf)|, 16384)));
    } else {
      StillThere(s, f.s);
    }
  }

  lemma {:induction false} BodyMoves(s: Stream, rs: seq<Reply>, limit: nat)
    requires Sound(s, limit) && Lead(s.hdr) == [] && s.life.fate == Relaying && (s.life.finSent ==> Avail(s.buf) == [])
    ensures Moved(s, FlushBody(s, rs).s, Uptake(|Avail(s.buf)|, rs, s.life.backendClosed))
    decreases |Avail(s.buf)|
  {
    hide Moved, OfferBody, BodyOf, Sound, Uptake;
    if Avail(s.buf) == [] {
      NoBody(s);
      NoUptake(rs, s.life.backendClosed);
    } else {
      var f := OfferBody(s, rs);
      OfferMoves(s, rs, limit);
      if f.out == Go {
        FinNoBody(f.s, limit);
        BodyMoves(f.s, f.rest, limit);
        MovedTrans(s, f.s, FlushBody(f.s, f.rest).s, |Avail(s.buf)| - |Avail(f.s.buf)|, Uptake(|Avail(f.s.buf)|, f.rest, s.life.backendClosed));
      }
    }
  }

  lemma NoUptake(rs: seq<Reply>, closed: bool)
    ensures Uptake(0, rs, closed) == 0
  {
  }

  lemma NoBody(s: Stream)
    requires Avail(s.buf) == []
    ensures Moved(s, s.(buf := s.buf.(body := [], off := 0)), 0)
  {
    MovedNone(s, s.(buf := s.buf.(body := [], off := 0)));
  }

  lemma StillThere(s: Stream, t: Stream)
    requires t == s || t == SetBlocked(s, true)
    ensures Moved(s, t, 0)
  {
    MovedNone(s, t);
  }

  lemma Withheld(s: Stream, limit: nat)
    requires Sound(s, limit) && Avail(s.buf) != [] && s.life.fate == Relaying && !s.life.finSent
    ensures s.backend.Some? && |Avail(s.buf)| <= s.buf.unconsumed
  {
  }

  lemma LeftOver(s: Stream, t: Stream, k: nat)
    requires Moved(s, t, k)
    ensures |Avail(t.buf)| == |Avail(s.buf)| - k
  {
  }

  /** A header block that has to go out before the body. */
  predicate HeadFirst(s: Stream) { s.hdr.pending && !s.hdr.trailers }

  /** A flush hands HTTP/3 exactly the bytes it takes: none while it refuses the header block that goes
      first, and then what its following answers say; the rest stays buffered, in order. */
  lemma FlushTakesExactly(s: Stream, rs: seq<Reply>, limit: nat)
    requires Sound(s, limit) && s.life.fate == Relaying && !s.life.finSent
    ensures var n := |Avail(s.buf)|;
            var u := if !HeadFirst(s) then Uptake(n, rs, s.life.backendClosed)
                     else if rs != [] && rs[0].Accept? then Uptake(n, rs[1..], s.life.backendClosed) else 0;
            Moved(s, Flush(s, rs).s, u)
  {
    hide Moved, FlushBody, FlushEnd, BodyOf, Sound;
    var f1 := FlushHead(s, rs);
    FlushHeadKeeps(s, rs, limit);
    HeadMoves(s, rs);
    if f1.out == Go {
      FinNoBody(f1.s, limit);
      BodyMoves(f1.s, f1.rest, limit);
      var u := Uptake(|Avail(s.buf)|, f1.rest, s.life.backendClosed);
      MovedTrans(s, f1.s, FlushBody(f1.s, f1.rest).s, 0, u);
      var f2 := FlushBody(f1.s, f1.rest);
      if f2.out == Go {
        EndMoves(f2.s, f2.rest);
        MovedTrans(s, f2.s, FlushEnd(f2.s, f2.rest).s, u, 0);
      }
    }
  }

  lemma FinNoBody(s: Stream, limit: nat)
    requires Sound(s, limit)
    ensures s.life.finSent ==> Avail(s.buf) == []
  {
    NothingAfterFin(s);
  }

  lemma NoBytes(ts: seq<Token>, b: Block, fin: bool)
    ensures BodyOf(ts + ([Head(b)] + FinIf(fin))) == BodyOf(ts) && BodyOf(ts + [Fin]) == BodyOf(ts)
  {
    BodyOfConcat(ts, [Head(b)] + FinIf(fin));
    BodyOfConcat([Head(b)], FinIf(fin));
    BodyOfConcat(ts, [Fin]);
    assert [Head(b)][1..] == [] && [Fin][1..] == [];
    assert BodyOf([Head(b)]) == [] && BodyOf([Fin]) == [];
    assert BodyOf(ts) + [] == BodyOf(ts);
  }

  lemma HeadMoves(s: Stream, rs: seq<Reply>)
    requires s.life.fate == Relaying
    ensures var f := FlushHead(s, rs);
            && Moved(s, f.s, 0) && f.s.life.fate == Relaying && f.s.life.backendClosed == s.life.backendClosed
            && (f.out == Go <==> !HeadFirst(s) || (rs != [] && rs[0].Accept?))
            && f.rest == (if HeadFirst(s) then Tail(rs) else rs) && f.s.buf == s.buf
            && (f.out == Go ==> Lead(f.s.hdr) == [])
  {
    hide BodyOf;
    NoBytes(s.log.sent, s.hdr.block, s.life.eof && Avail(s.buf) == []);
    MovedNone(s, FlushHead(s, rs).s);
  }

  lemma EndMoves(s: Stream, rs: seq<Reply>)
    ensures Moved(s, FlushEnd(s, rs).s, 0)
  {
    hide BodyOf;
    var f3 := FlushTrailers(s, rs);
    NoBytes(s.log.sent, s.hdr.block, s.life.eof);
    NoBytes(f3.s.log.sent, s.hdr.block, s.life.eof);
    assert BodyOf(f3.s.log.sent) == BodyOf(s.log.sent) && f3.s.buf == s.buf;
    MovedNone(s, FlushEnd(s, rs).s);
  }
}

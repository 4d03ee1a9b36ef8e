/**
 What holds of the proxy after every run, for every configuration, every
 interleaving of frames, ticks and closes, and every answer of the transports.
 */
module ProxyTheorems {
  import opened ResponseOrder
  import opened Relay
  import opened RelayProofs
  import opened RelayInvariant
  import opened ProxyState
  import opened ProxyPopulation
  import opened ProxyRotation

  lemma AnyStream(cfg: Config, es: seq<Event>, i: nat)
    requires i < |Run(Init(cfg), es).streams|
    ensures var p := Run(Init(cfg), es); StreamInv(p.streams[i], p.cfg.maxBuffer)
  {
    hide StreamInv, Run;
    RunKeeps(cfg, es);
  }

  lemma PrefixBody(a: seq<Token>, b: seq<Token>)
    requires a <= b
    ensures BodyOf(a) <= BodyOf(b)
  {
    assert b == a + b[|a|..];
    BodyOfConcat(a, b[|a|..]);
  }

  lemma PendingBody(s: Stream)
    ensures BodyOf(Pending(s)) == Avail(s.buf)
  {
    var lead, trail := Lead(s.hdr), Trail(s.hdr, s.life);
    BodyOfConcat(lead, Octets(Avail(s.buf)) + trail);
    BodyOfConcat(Octets(Avail(s.buf)), trail);
    BodyOfOctets(Avail(s.buf));
    NoOctets(lead);
    NoOctets(trail);
  }

  lemma {:induction false} NoOctets(ts: seq<Token>)
    requires forall i :: 0 <= i < |ts| ==> !ts[i].Octet?
    ensures BodyOf(ts) == []
  {
    if ts != [] {
      NoOctets(ts[1..]);
    }
  }

  /** The relay loses, duplicates and reorders nothing: what HTTP/3 accepted followed by what is
      buffered is what the backend delivered; after a failure it is still a prefix. */
  lemma ResponseRelayed(cfg: Config, es: seq<Event>, i: nat)
    requires i < |Run(Init(cfg), es).streams|
    ensures var s := Run(Init(cfg), es).streams[i];
            && BodyOf(s.log.sent) <= BodyOf(s.log.received)
            && (s.life.fate == Relaying ==>
                  && s.log.sent + Pending(s) == s.log.received
                  && BodyOf(s.log.sent) + Avail(s.buf) == BodyOf(s.log.received)
                  && (!HasWork(s) ==> s.log.sent == s.log.received))
            && (s.life.fate == Closing ==> s.log.sent <= s.log.received)
  {
    hide Run;
    var p := Run(Init(cfg), es);
    var s := p.streams[i];
    AnyStream(cfg, es, i);
    match s.life.fate {
      case Relaying =>
        BodyOfConcat(s.log.sent, Pending(s));
        PendingBody(s);
        NothingAfterFin(s);
        if !HasWork(s) {
          assert Pending(s) == [];
        }
      case Closing => PrefixBody(s.log.sent, s.log.received);
      case Gateway =>
      case Refused =>
    }
  }

  /** HTTP/3 sees the order of a well-formed response, except exactly where a refused 502 was
      followed by a bare FIN; FIN comes only after everything delivered was accepted. */
  lemma ResponseOrdered(cfg: Config, es: seq<Event>, i: nat)
    requires i < |Run(Init(cfg), es).streams|
    ensures var s := Run(Init(cfg), es).streams[i];
            && (PhaseOf(s.log.sent) == Broken <==> s.life.fate == Refused && s.life.finSent)
            && (s.life.fate == Relaying ==> (s.life.finSent <==> PhaseOf(s.log.sent) == Ended))
            && (s.life.fate == Relaying && s.life.finSent ==> s.log.sent == s.log.received)
  {
    hide Run;
    var p := Run(Init(cfg), es);
    var s := p.streams[i];
    AnyStream(cfg, es, i);
    match s.life.fate {
      case Relaying =>
        PrefixIsOrdered(s.log.sent, s.log.received);
        NothingAfterFin(s);
      case Closing => PrefixIsOrdered(s.log.sent, s.log.received);
      case Gateway =>
      case Refused =>
    }
  }

  /** No lost wakeup: a response with work left has its write notification armed, unless its request
      was closed or HTTP/3 refused the 502 that should have answered it. */
  lemma NoLostWakeup(cfg: Config, es: seq<Event>, i: nat)
    requires i < |Run(Init(cfg), es).streams|
    ensures var s := Run(Init(cfg), es).streams[i];
            && s.wake.blocked == s.wake.armed
            && (HasWork(s) && !s.wake.armed ==> s.life.fate == Closing || s.life.fate == Refused)
  {
    hide Run;
    var p := Run(Init(cfg), es);
    var s := p.streams[i];
    AnyStream(cfg, es, i);
  }

  /** Stream credit: what the backend sent is credited or withheld, and exactly the buffered bytes
      are withheld, within the configured limit. */
  lemma CreditConserved(cfg: Config, es: seq<Event>, i: nat)
    requires i < |Run(Init(cfg), es).streams|
    ensures var p := Run(Init(cfg), es); var s := p.streams[i];
            && (s.life.fate == Relaying && s.backend.Some? ==> s.buf.unconsumed == |Avail(s.buf)| <= p.cfg.maxBuffer)
            && (s.life.fate == Relaying && s.backend.Some? && !s.life.backendClosed ==>
                  |BodyOf(s.log.received)| == s.log.credited + s.buf.unconsumed)
  {
    hide Run;
    var p := Run(Init(cfg), es);
    var s := p.streams[i];
    AnyStream(cfg, es, i);
  }

  /** Counts and limits over every run. */
  lemma PopulationBounded(cfg: Config, es: seq<Event>)
    ensures var p := Run(Init(cfg), es);
            && p.connCount == |p.conns| <= p.cfg.maxConns
            && (forall c :: 0 <= c < |p.conns| ==> p.conns[c].count == Attached(p.streams, p.conns[c].id) <= p.cfg.maxStreams)
            && (forall g :: 0 <= g < |p.groups| ==> p.groups[g].count == |Members(p.streams, p.groups[g].key)| > 0)
            && (forall g, h :: 0 <= g < h < |p.groups| ==> p.groups[g].key != p.groups[h].key)
  {
    RunKeeps(cfg, es);
  }

  /** From any reachable state, while no stream comes or goes, any n consecutive turns of a group of n
      are one lap over its members, each exactly once. */
  lemma FairTurns(p: State, es: seq<Event>, key: nat, t: nat)
    requires Inv(p) && FindGroup(p.groups, key) < |p.groups|
    requires forall e <- es :: Steady(e)
    requires t + |Members(p.streams, key)| <= |RunTurns(p, es, key)|
    ensures var ms := Members(p.streams, key);
            var turns := RunTurns(p, es, key);
            && multiset(turns[t..t + |ms|]) == multiset(ms)
            && (forall i, j :: 0 <= i < j < |ms| ==> ms[i] != ms[j])
            && (t + |ms| < |turns| ==> turns[t + |ms|] == turns[t])
  {
    hide Inv, Moves, Run, RunTurns, Cycle, CursorPos, Members, FindGroup, Step;
    RotationOverRuns(p, es, key);
    var ms, turns := Members(p.streams, key), RunTurns(p, es, key);
    MovesCycle(p, Run(p, es), key, turns);
    LapIsFair(ms, CursorPos(p, key), turns, t);
    DistinctMembers(p, key);
  }

  lemma LapIsFair(ms: seq<nat>, c: nat, turns: seq<nat>, t: nat)
    requires c < |ms| && turns == Cycle(ms, c, |turns|) && t + |ms| <= |turns|
    ensures multiset(turns[t..t + |ms|]) == multiset(ms)
    ensures t + |ms| < |turns| ==> turns[t + |ms|] == turns[t]
  {
    StrictRotation(ms, c, |turns|, t);
    var r :| 0 <= r < |ms| && turns[t..t + |ms|] == ms[r..] + ms[..r];
    assert ms == ms[..r] + ms[r..];
  }
}

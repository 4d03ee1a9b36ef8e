/**
 What a turn does: it drains the very stream whose turn it is, with the answers
 HTTP/3 gives in that turn, and no other; over a round, a write notification and
 a tick.
 */
module ProxyDrain {
  import opened Relay
  import opened RelayProofs
  import opened RelayInvariant
  import opened RelayCallbacks
  import opened RelayProgress
  import opened ProxyState
  import opened ProxyPopulation
  import opened ProxyRotation
  import opened ProxyService

  ghost predicate NoRepeat(q: seq<nat>) { forall i, j {:trigger q[i], q[j]} :: 0 <= i < j < |q| ==> q[i] != q[j] }

  /** Stream s became t in a round of which `line` is the order and the first n had their turn: the k-th
      in line was drained with the k-th answers, the one the valve stopped was armed, others are as
      they were. */
  ghost predicate Drained(s: Stream, t: Stream, line: seq<nat>, n: nat, offers: seq<Offer>) {
    && (forall k {:trigger line[k]} :: 0 <= k < n && k < |line| && line[k] == s.id ==> t == Turn(s, OfferAt(offers, k).replies))
    && (n < |line| && line[n] == s.id ==> t == SetBlocked(s, true))
    && ((forall k {:trigger line[k]} :: 0 <= k <= n && k < |line| ==> line[k] != s.id) ==> t == s)
  }

  ghost predicate AllDrained(p: State, q: State, line: seq<nat>, n: nat, offers: seq<Offer>) {
    && |q.streams| == |p.streams|
    && forall j {:trigger q.streams[j]} :: 0 <= j < |p.streams| ==> Drained(p.streams[j], q.streams[j], line, n, offers)
  }

  lemma DistinctIds(p: State, i: nat, j: nat)
    requires Inv(p) && i < |p.streams| && j < |p.streams| && i != j
    ensures p.streams[i].id != p.streams[j].id
  {
  }

  /** Less than a lap of the cycle repeats nobody. */
  lemma CycleNoRepeat(ms: seq<nat>, c: nat, k: nat)
    requires c < |ms| && k <= |ms| && NoRepeat(ms)
    ensures NoRepeat(Cycle(ms, c, k))
  {
    hide Cycle, After;
    CycleConcat(ms, c, k, |ms| - k);
    CycleLap(ms, c);
    var lap, r := ms[c..] + ms[..c], Cycle(ms, c, k);
    assert r == lap[..k];
    forall i, j | 0 <= i < j < |r| ensures r[i] != r[j] {
      assert r[i] == ms[if i < |ms| - c then c + i else i - (|ms| - c)];
      assert r[j] == ms[if j < |ms| - c then c + j else j - (|ms| - c)];
    }
  }

  lemma CycleStep(ms: seq<nat>, c: nat, k: nat)
    requires c < |ms| && k > 0
    ensures Cycle(ms, c, k) == [ms[c]] + Cycle(ms, Wrap(c, |ms|), k - 1)
  {
  }

  lemma ValveDrains(p: State, key: nat, i: nat, line: seq<nat>, offers: seq<Offer>)
    requires Inv(p) && i < |p.streams| && line != [] && line[0] == p.streams[i].id
    ensures AllDrained(p, HoldAt(p, key, i), line, 0, offers)
  {
    var q := HoldAt(p, key, i);
    forall j | 0 <= j < |p.streams| ensures Drained(p.streams[j], q.streams[j], line, 0, offers) {
      if j != i { DistinctIds(p, i, j); }
    }
  }

  lemma NobodyDrains(p: State, offers: seq<Offer>)
    ensures AllDrained(p, p, [], 0, offers)
  {
  }

  /** A turn of stream i, then the rest of the round. */
  lemma TurnDrains(p: State, p1: State, q: State, key: nat, i: nat, line: seq<nat>, n: nat, offers: seq<Offer>)
    requires Inv(p) && i < |p.streams| && p1 == TakeTurn(p, key, i, NextOffer(offers).replies)
    requires NoRepeat([p.streams[i].id] + line)
    requires AllDrained(p1, q, line, n, Later(offers))
    ensures AllDrained(p, q, [p.streams[i].id] + line, n + 1, offers)
  {
    hide Inv, Turn;
    TurnSame(p.streams[i], NextOffer(offers).replies);
    assert p1.streams == p.streams[i := Turn(p.streams[i], NextOffer(offers).replies)];
    forall j | 0 <= j < |p.streams| ensures Drained(p.streams[j], q.streams[j], [p.streams[i].id] + line, n + 1, offers) {
      assert Drained(p1.streams[j], q.streams[j], line, n, Later(offers));
      if j == i { HadTurn(p.streams[i], p1.streams[i], q.streams[i], line, n, offers); }
      else {
        DistinctIds(p, i, j);
        WaitedTurn(p.streams[j], q.streams[j], p.streams[i].id, line, n, offers);
      }
    }
  }

  lemma TurnSame(s: Stream, rs: seq<Reply>)
    ensures Turn(s, rs).id == s.id && Turn(s, rs).key == s.key
  {
    FlushSame(s, rs);
  }

  lemma HadTurn(s: Stream, s1: Stream, t: Stream, line: seq<nat>, n: nat, offers: seq<Offer>)
    requires s1 == Turn(s, NextOffer(offers).replies) && s1.id == s.id && NoRepeat([s.id] + line)
    requires Drained(s1, t, line, n, Later(offers))
    ensures Drained(s, t, [s.id] + line, n + 1, offers)
  {
    hide Turn;
    var more := [s.id] + line;
    forall k | 0 <= k < |line| ensures line[k] != s.id { assert more[0] != more[k + 1]; }
    assert t == s1;
    forall k | 0 < k < |more| ensures more[k] != s.id { assert more[k] == line[k - 1]; }
    LaterOffers(offers, 0);
    assert more[0] == s.id;
    forall k | 0 <= k < n + 1 && k < |more| && more[k] == s.id ensures t == Turn(s, OfferAt(offers, k).replies) { assert k == 0; }
  }

  lemma WaitedTurn(s: Stream, t: Stream, id: nat, line: seq<nat>, n: nat, offers: seq<Offer>)
    requires id != s.id && Drained(s, t, line, n, Later(offers))
    ensures Drained(s, t, [id] + line, n + 1, offers)
  {
    hide Turn;
    var more := [id] + line;
    forall k | 0 <= k < n + 1 && k < |more| && more[k] == s.id ensures t == Turn(s, OfferAt(offers, k).replies) {
      assert line[k - 1] == s.id;
      LaterOffers(offers, k - 1);
    }
    if forall k {:trigger more[k]} :: 0 <= k <= n + 1 && k < |more| ==> more[k] != s.id {
      forall k | 0 <= k <= n && k < |line| ensures line[k] != s.id { assert more[k + 1] == line[k]; }
    }
  }

  lemma {:induction false} RoundDrainsFrom(p: State, key: nat, i: nat, remaining: nat, offers: seq<Offer>)
    requires Inv(p) && FindGroup(p.groups, key) < |p.groups| && i < |p.streams| && p.streams[i].key == key
    requires remaining <= |Members(p.streams, key)|
    ensures Pos(p.streams, key, i) < |Members(p.streams, key)|
    ensures var (q, took) := RoundFrom(p, key, i, remaining, offers);
            AllDrained(p, q, Cycle(Members(p.streams, key), Pos(p.streams, key, i), remaining), |took|, offers)
    decreases remaining
  {
    hide Inv, TakeTurn, HoldAt, Members, Pos, Cycle, AllDrained, NextMember, FindGroup;
    MemberAt(p.streams, key, i);
    var ms, c := Members(p.streams, key), Pos(p.streams, key, i);
    if remaining == 0 {
      EmptyLine(ms, c);
      NobodyDrains(p, offers);
    } else {
      CycleStep(ms, c, remaining);
      if NextOffer(offers).unsent >= UNSENT_MAX {
        ValveDrains(p, key, i, Cycle(ms, c, remaining), offers);
      } else {
        var p1, next := TakeTurn(p, key, i, NextOffer(offers).replies), NextMember(p.streams, key, i);
        NextTurn(p, key, i, offers);
        RoundDrainsFrom(p1, key, next, remaining - 1, Later(offers));
        DistinctMembers(p, key);
        CycleNoRepeat(ms, c, remaining);
        var (q, took) := RoundFrom(p1, key, next, remaining - 1, Later(offers));
        TurnDrains(p, p1, q, key, i, Cycle(ms, Wrap(c, |ms|), remaining - 1), |took|, offers);
      }
    }
  }

  lemma EmptyLine(ms: seq<nat>, c: nat)
    requires c < |ms|
    ensures Cycle(ms, c, 0) == []
  {
  }

  /** Where the round goes on after a turn. */
  lemma NextTurn(p: State, key: nat, i: nat, offers: seq<Offer>)
    requires Inv(p) && FindGroup(p.groups, key) < |p.groups| && i < |p.streams| && p.streams[i].key == key
    ensures var p1 := TakeTurn(p, key, i, NextOffer(offers).replies); var next := NextMember(p.streams, key, i);
            && Inv(p1) && FindGroup(p1.groups, key) < |p1.groups| && next < |p1.streams| && p1.streams[next].key == key
            && Members(p1.streams, key) == Members(p.streams, key)
            && Pos(p1.streams, key, next) == Wrap(Pos(p.streams, key, i), |Members(p.streams, key)|)
  {
    hide Inv, TakeTurn;
    var p1, next := TakeTurn(p, key, i, NextOffer(offers).replies), NextMember(p.streams, key, i);
    TurnPos(p, key, i, NextOffer(offers).replies);
    NextPos(p.streams, key, i);
    RosterPos(p.streams, p1.streams, key, next);
    RosterMembers(p.streams, p1.streams, key);
    assert p1.streams[next].key == p.streams[next].key;
  }

  // ---- what a reader wants to know of one stream ----

  /** The stream had the turns listed, answered by these offers: drained exactly by its own turn, and
      without one nothing but its write notification can have changed. */
  ghost predicate ServedBy(s: Stream, t: Stream, took: seq<nat>, offers: seq<Offer>) {
    && (forall k {:trigger took[k]} :: 0 <= k < |took| && took[k] == s.id ==> t == Turn(s, OfferAt(offers, k).replies))
    && (s.id !in took ==> t == s || t == SetBlocked(s, true))
  }

  lemma DrainedServes(s: Stream, t: Stream, line: seq<nat>, took: seq<nat>, offers: seq<Offer>)
    requires Drained(s, t, line, |took|, offers) && |took| <= |line| && took == line[..|took|]
    ensures ServedBy(s, t, took, offers)
  {
    hide Turn;
    forall k | 0 <= k < |took| && took[k] == s.id ensures t == Turn(s, OfferAt(offers, k).replies) { assert line[k] == s.id; }
    if s.id !in took {
      forall k | 0 <= k < |took| ensures line[k] != s.id { assert took[k] == line[k]; }
    }
  }

  /** A round drains every member that has a turn, with the answers of that turn, and nobody else. */
  lemma RoundDrains(p: State, key: nat, offers: seq<Offer>, j: nat)
    requires Inv(p) && j < |p.streams|
    ensures var (q, took) := RunRound(p, key, offers);
            && j < |q.streams| && ServedBy(p.streams[j], q.streams[j], took, offers)
            && (p.streams[j].key != key ==> p.streams[j].id !in took && q.streams[j] == p.streams[j])
  {
    hide Inv, RoundFrom, Drained, ServedBy, Members, Cycle, StartAt, Pos;
    var g := FindGroup(p.groups, key);
    var (q, took) := RunRound(p, key, offers);
    if g == |p.groups| {
      NobodyServed(p.streams[j], offers);
    } else {
      StartIsMemberOf(p, key);
      GroupSize(p, key);
      var ms, c := Members(p.streams, key), Pos(p.streams, key, StartAt(p, key));
      RoundDrainsFrom(p, key, StartAt(p, key), |ms|, offers);
      RoundTurnsOf(p, key, offers);
      CycleConcat(ms, c, |took|, |ms| - |took|);
      var line := Cycle(ms, c, |ms|);
      assert took == line[..|took|];
      assert Drained(p.streams[j], q.streams[j], line, |took|, offers);
      DrainedServes(p.streams[j], q.streams[j], line, took, offers);
      if p.streams[j].key != key { Outsider(p, key, j, line, c, q.streams[j], |took|, offers); }
    }
  }

  lemma NobodyServed(s: Stream, offers: seq<Offer>)
    ensures ServedBy(s, s, [], offers)
  {
  }

  lemma StartIsMemberOf(p: State, key: nat)
    requires Inv(p) && FindGroup(p.groups, key) < |p.groups|
    ensures StartAt(p, key) < |p.streams| && p.streams[StartAt(p, key)].key == key
  {
    StartIsMember(p, key);
  }

  lemma RoundTurnsOf(p: State, key: nat, offers: seq<Offer>)
    requires Inv(p) && FindGroup(p.groups, key) < |p.groups|
    ensures var ms, c := Members(p.streams, key), Pos(p.streams, key, StartAt(p, key));
            var took := RunRound(p, key, offers).1;
            c < |ms| && |took| <= |ms| && took == Cycle(ms, c, |took|)
  {
    hide RunRound;
    RunRoundMoves(p, key, offers, key);
    assert RoundTook(p, key, offers, key) == RunRound(p, key, offers).1;
    RoundIsLap(p, key, offers);
  }

  /** A stream of another group is not in line. */
  lemma Outsider(p: State, key: nat, j: nat, line: seq<nat>, c: nat, t: Stream, n: nat, offers: seq<Offer>)
    requires Inv(p) && j < |p.streams| && p.streams[j].key != key
    requires var ms := Members(p.streams, key); c < |ms| && line == Cycle(ms, c, |ms|)
    requires Drained(p.streams[j], t, line, n, offers)
    ensures t == p.streams[j] && p.streams[j].id !in line
  {
    hide Cycle, Turn;
    var ms := Members(p.streams, key);
    CycleLap(ms, c);
    OtherId(p.streams, key, j);
    forall k | 0 <= k < |line| ensures line[k] != p.streams[j].id {
      assert line[k] == ms[if k < |ms| - c then c + k else k - (|ms| - c)];
    }
  }

  lemma {:induction false} OtherId(ss: seq<Stream>, key: nat, j: nat)
    requires j < |ss| && ss[j].key != key && forall i, k :: 0 <= i < k < |ss| ==> ss[i].id != ss[k].id
    ensures ss[j].id !in Members(ss, key)
    decreases ss
  {
    if j == 0 {
      NotMember(ss[1..], key, ss[0].id);
    } else {
      OtherId(ss[1..], key, j - 1);
    }
  }

  /** The same of a write notification: it serves the group of its stream. */
  lemma WritableDrains(p: State, sid: nat, offers: seq<Offer>, j: nat)
    requires Inv(p) && j < |p.streams|
    ensures var e := Writable(sid, offers); var s := p.streams[j];
            && j < |Step(p, e).streams| && ServedBy(s, Step(p, e).streams[j], TurnsOf(p, e, s.key), offers)
  {
    hide ServedBy, RunRound;
    var i := FindStream(p.streams, sid);
    if i == |p.streams| {
      NobodyServed(p.streams[j], offers);
    } else {
      RoundDrains(p, p.streams[i].key, offers, j);
      if p.streams[j].key != p.streams[i].key { NobodyServed(p.streams[j], offers); }
    }
  }

  // ---- a tick ----

  function RoundAt(rounds: seq<seq<Offer>>, g: nat): seq<Offer> { if g < |rounds| then rounds[g] else [] }

  lemma {:induction false} OtherRounds(p: State, keys: seq<nat>, rounds: seq<seq<Offer>>, j: nat)
    requires Inv(p) && j < |p.streams| && p.streams[j].key !in keys
    ensures var q := RunRounds(p, keys, rounds); j < |q.streams| && q.streams[j] == p.streams[j]
    ensures RoundsTook(p, keys, rounds, p.streams[j].key) == []
    decreases keys
  {
    hide Inv, RunRound, ServedBy;
    if keys != [] {
      var os := if rounds == [] then [] else rounds[0];
      RoundDrains(p, keys[0], os, j);
      RunRoundKeeps(p, keys[0], os);
      OtherRounds(RunRound(p, keys[0], os).0, keys[1..], Later(rounds), j);
    }
  }

  lemma {:induction false} RoundsDrain(p: State, keys: seq<nat>, rounds: seq<seq<Offer>>, g: nat, j: nat)
    requires Inv(p) && j < |p.streams| && g < |keys| && keys[g] == p.streams[j].key
    requires forall a, b :: 0 <= a < b < |keys| ==> keys[a] != keys[b]
    ensures var q := RunRounds(p, keys, rounds); var s := p.streams[j];
            j < |q.streams| && ServedBy(s, q.streams[j], RoundsTook(p, keys, rounds, s.key), RoundAt(rounds, g))
    decreases keys
  {
    hide Inv, RunRound, ServedBy;
    var os := if rounds == [] then [] else rounds[0];
    var p1 := RunRound(p, keys[0], os).0;
    var key := p.streams[j].key;
    RoundDrains(p, keys[0], os, j);
    RunRoundKeeps(p, keys[0], os);
    SameStreamKey(p, p1, j);
    if g == 0 {
      forall b | 0 <= b < |keys[1..]| ensures keys[1..][b] != key { assert keys[b + 1] != keys[0]; }
      OtherRounds(p1, keys[1..], Later(rounds), j);
      assert RunRound(p, key, os).1 + [] == RunRound(p, key, os).1;
    } else {
      RoundsDrain(p1, keys[1..], Later(rounds), g - 1, j);
      assert RoundAt(Later(rounds), g - 1) == RoundAt(rounds, g);
      assert keys[0] != keys[g];
      assert RoundTook(p, keys[0], os, key) == [];
      assert [] + RoundsTook(p1, keys[1..], Later(rounds), key) == RoundsTook(p1, keys[1..], Later(rounds), key);
    }
  }

  lemma SameStreamKey(p: State, q: State, j: nat)
    requires SameShape(p, q) && j < |p.streams|
    ensures j < |q.streams| && q.streams[j].key == p.streams[j].key && q.streams[j].id == p.streams[j].id
  {
  }

  /** The same of a tick: every stream is served by the round of its own group. */
  lemma TickDrains(p: State, now: nat, rounds: seq<seq<Offer>>, j: nat)
    requires Inv(p) && j < |p.streams|
    ensures var e, s := TickAt(now, rounds), p.streams[j]; var g := FindGroup(p.groups, s.key);
            && j < |Step(p, e).streams| && g < |p.groups|
            && ServedBy(s, Step(p, e).streams[j], TurnsOf(p, e, s.key), RoundAt(rounds, g))
  {
    hide RunRounds, RoundsTook, Evict, ServedBy;
    var s := p.streams[j];
    assert HasGroup(p.groups, s.key);
    var g := FindGroup(p.groups, s.key);
    RoundsDrain(p, Keys(p.groups), rounds, g, j);
    var q := RunRounds(p, Keys(p.groups), rounds);
    RoundsKeep(p, Keys(p.groups), rounds);
    EvictKeeps(q, ConnIds(q.conns), if now > p.cfg.timeoutSec then now - p.cfg.timeoutSec else 0);
  }

  // ---- a willing transport ----

  /** In every round the valve stays open and HTTP/3 takes all it is offered. */
  ghost predicate Generous(p: State, rounds: seq<seq<Offer>>) {
    && |rounds| >= |p.groups|
    && (forall g {:trigger rounds[g]} :: 0 <= g < |p.groups| ==> |rounds[g]| >= p.groups[g].count)
    && (forall os <- rounds, o <- os :: o.unsent < UNSENT_MAX && Willing(o.replies) && |o.replies| >= p.cfg.maxBuffer + 3)
  }

  /** After one tick with a willing transport everything any backend delivered for a relayed response
      has been handed to HTTP/3. */
  lemma GenerousTickRelaysAll(p: State, now: nat, rounds: seq<seq<Offer>>, j: nat)
    requires Inv(p) && Generous(p, rounds) && j < |p.streams| && p.streams[j].life.fate == Relaying
    ensures var q := Step(p, TickAt(now, rounds));
            && j < |q.streams| && q.streams[j].log.received == p.streams[j].log.received
            && q.streams[j].log.sent == q.streams[j].log.received && !HasWork(q.streams[j])
  {
    hide Inv, Step, Turn, TurnsOf;
    var s, e := p.streams[j], TickAt(now, rounds);
    var g := FindGroup(p.groups, s.key);
    TickDrains(p, now, rounds, j);
    assert forall os <- rounds, k: nat :: OpenAt(os, k) by { AlwaysOpen(p, rounds); }
    TickServesAll(p, now, rounds, j);
    var took := TurnsOf(p, e, s.key);
    assert s.id in multiset(took);
    var k :| 0 <= k < |took| && took[k] == s.id;
    TurnCount(p, now, rounds, j);
    var o := OfferAt(RoundAt(rounds, g), k);
    assert rounds[g] in rounds;
    assert o in rounds[g];
    SoundOf(p, j);
    DrainsInOneTurn(s, o.replies, p.cfg.maxBuffer);
  }

  lemma AlwaysOpen(p: State, rounds: seq<seq<Offer>>)
    requires Generous(p, rounds)
    ensures forall os <- rounds, k: nat :: OpenAt(os, k)
  {
    forall os <- rounds, k: nat ensures OpenAt(os, k) { assert k < |os| ==> os[k] in os; }
  }

  lemma SoundOf(p: State, j: nat)
    requires Inv(p) && j < |p.streams| && p.streams[j].life.fate == Relaying
    ensures Sound(p.streams[j], p.cfg.maxBuffer) && |Avail(p.streams[j].buf)| <= p.cfg.maxBuffer
  {
    assert StreamInv(p.streams[j], p.cfg.maxBuffer);
  }

  /** An open tick gives a group as many turns as it has members. */
  lemma TurnCount(p: State, now: nat, rounds: seq<seq<Offer>>, j: nat)
    requires Inv(p) && j < |p.streams| && forall os <- rounds, k: nat :: OpenAt(os, k)
    ensures var g := FindGroup(p.groups, p.streams[j].key);
            g < |p.groups| && |TurnsOf(p, TickAt(now, rounds), p.streams[j].key)| == p.groups[g].count
  {
    hide RoundsTook, RunRounds;
    var key := p.streams[j].key;
    assert HasGroup(p.groups, key);
    var g := FindGroup(p.groups, key);
    assert Keys(p.groups)[g] == key;
    GroupSize(p, key);
    RoundsServe(p, Keys(p.groups), rounds, key);
    var took := RoundsTook(p, Keys(p.groups), rounds, key);
    assert |multiset(took)| == |took| && |multiset(Members(p.streams, key))| == |Members(p.streams, key)|;
  }
}

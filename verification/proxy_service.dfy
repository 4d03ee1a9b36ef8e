/**
 Who a round serves: exactly how many turns the unsent-byte valve lets it give,
 one full lap when the valve stays open, and after a round cut short, the stream
 that was stopped first.
 */
module ProxyService {
  import opened ProxyState
  import opened ProxyPopulation
  import opened ProxyRotation

  /** The k-th reading of the transport in a round. */
  function OfferAt(offers: seq<Offer>, k: nat): Offer { if k < |offers| then offers[k] else Offer(0, []) }

  predicate OpenAt(offers: seq<Offer>, k: nat) { OfferAt(offers, k).unsent < UNSENT_MAX }

  lemma LaterOffers(offers: seq<Offer>, k: nat)
    ensures OfferAt(offers, 0) == NextOffer(offers) && OfferAt(Later(offers), k) == OfferAt(offers, k + 1)
  {
  }

  /** The turns are given until the valve closes, and not one longer or shorter. */
  ghost predicate Served(offers: seq<Offer>, n: nat, turns: nat) {
    && turns <= n && (forall k: nat :: k < turns ==> OpenAt(offers, k)) && (turns < n ==> !OpenAt(offers, turns))
  }

  lemma OneMore(offers: seq<Offer>, n: nat, turns: nat)
    requires OpenAt(offers, 0) && n > 0 && Served(Later(offers), n - 1, turns)
    ensures Served(offers, n, turns + 1)
  {
    LaterOffers(offers, turns);
    forall k: nat | k < turns + 1 ensures OpenAt(offers, k) {
      if k > 0 {
        LaterOffers(offers, k - 1);
        assert OpenAt(Later(offers), k - 1);
      }
    }
  }

  lemma {:induction false} RoundServes(p: State, key: nat, i: nat, remaining: nat, offers: seq<Offer>)
    requires Inv(p) && FindGroup(p.groups, key) < |p.groups| && i < |p.streams| && p.streams[i].key == key
    ensures Served(offers, remaining, |RoundFrom(p, key, i, remaining, offers).1|)
    decreases remaining
  {
    hide Inv, TakeTurn, Served;
    LaterOffers(offers, 0);
    if remaining > 0 && OpenAt(offers, 0) {
      var replies := NextOffer(offers).replies;
      var p1, next := TakeTurn(p, key, i, replies), NextMember(p.streams, key, i);
      TurnPos(p, key, i, replies);
      NextPos(p.streams, key, i);
      assert p1.streams[next].key == key;
      RoundServes(p1, key, next, remaining - 1, Later(offers));
      OneMore(offers, remaining, |RoundFrom(p1, key, next, remaining - 1, Later(offers)).1|);
    } else {
      NoTurn(offers, remaining);
    }
  }

  lemma NoTurn(offers: seq<Offer>, n: nat)
    requires n == 0 || !OpenAt(offers, 0)
    ensures Served(offers, n, 0)
  {
  }

  /** A round of a group gives its members turns in order until the valve closes; with the valve open
      throughout, that is each member exactly once. */
  lemma RoundIsLap(p: State, key: nat, offers: seq<Offer>)
    requires Inv(p) && FindGroup(p.groups, key) < |p.groups|
    ensures var ms := Members(p.streams, key);
            var took := RunRound(p, key, offers).1;
            && Served(offers, |ms|, |took|)
            && (|took| == |ms| ==> multiset(took) == multiset(ms))
  {
    hide Members, Served, RoundFrom, Cycle, After;
    StartIsMember(p, key);
    GroupSize(p, key);
    RoundServes(p, key, StartAt(p, key), |Members(p.streams, key)|, offers);
    RunRoundMoves(p, key, offers, key);
    var ms, took := Members(p.streams, key), RunRound(p, key, offers).1;
    if |took| == |ms| {
      var c := CursorPos(p, key);
      CycleLap(ms, c);
      assert ms == ms[..c] + ms[c..];
    }
  }

  lemma GroupSize(p: State, key: nat)
    requires Inv(p) && FindGroup(p.groups, key) < |p.groups|
    ensures p.groups[FindGroup(p.groups, key)].count == |Members(p.streams, key)|
  {
  }

  // ---- a tick ----

  lemma {:induction false} RoundsServe(p: State, keys: seq<nat>, rounds: seq<seq<Offer>>, key: nat)
    requires Inv(p) && FindGroup(p.groups, key) < |p.groups|
    requires forall i, j :: 0 <= i < j < |keys| ==> keys[i] != keys[j]
    requires forall os <- rounds, k: nat :: OpenAt(os, k)
    ensures multiset(RoundsTook(p, keys, rounds, key)) ==
            if key in keys then multiset(Members(p.streams, key)) else multiset{}
    decreases keys
  {
    hide Inv, SameShape, RunRound, Served, Members;
    if keys != [] {
      var os := if rounds == [] then [] else rounds[0];
      var p1 := RunRound(p, keys[0], os).0;
      RunRoundKeeps(p, keys[0], os);
      ShapeHasGroup(p, p1, key);
      ShapeMembers(p, p1, key);
      forall r <- Later(rounds), k: nat ensures OpenAt(r, k) { assert r in rounds; }
      RoundsServe(p1, keys[1..], Later(rounds), key);
      if keys[0] == key {
        RoundIsLap(p, key, os);
        AllOpen(os, |Members(p.streams, key)|, |RunRound(p, key, os).1|);
      }
    }
  }

  lemma AllOpen(offers: seq<Offer>, n: nat, turns: nat)
    requires Served(offers, n, turns) && forall k: nat :: OpenAt(offers, k)
    ensures turns == n
  {
  }

  lemma ShapeMembers(p: State, q: State, key: nat)
    requires SameShape(p, q)
    ensures Members(q.streams, key) == Members(p.streams, key)
  {
    RosterMembers(p.streams, q.streams, key);
  }

  /** Nobody starves: a tick whose valve stays open gives every stream of the proxy exactly one turn. */
  lemma TickServesAll(p: State, now: nat, rounds: seq<seq<Offer>>, i: nat)
    requires Inv(p) && i < |p.streams|
    requires forall os <- rounds, k: nat :: OpenAt(os, k)
    ensures multiset(TurnsOf(p, TickAt(now, rounds), p.streams[i].key))[p.streams[i].id] == 1
  {
    hide RoundsTook;
    var key := p.streams[i].key;
    assert HasGroup(p.groups, key);
    var g := FindGroup(p.groups, key);
    assert Keys(p.groups)[g] == key;
    RoundsServe(p, Keys(p.groups), rounds, key);
    MembersDistinct(p.streams, key);
    MemberAt(p.streams, key, i);
    OnceIn(Members(p.streams, key), Pos(p.streams, key, i));
  }

  lemma OnceIn(ms: seq<nat>, i: nat)
    requires i < |ms| && forall j, k :: 0 <= j < k < |ms| ==> ms[j] != ms[k]
    ensures multiset(ms)[ms[i]] == 1
  {
    var a, b := ms[..i], ms[i + 1..];
    assert ms == a + [ms[i]] + b;
    assert ms[i] !in a && ms[i] !in b;
  }

  // ---- after the valve ----

  /** A round cut short by the valve left out the stream that was next in order. Whatever happens in
      between, as long as no stream comes or goes and the group has no turn, the next round of the
      group begins with that stream. */
  lemma ValveGoesFirst(p: State, key: nat, offers: seq<Offer>, es: seq<Event>, later: seq<Offer>)
    requires Inv(p) && FindGroup(p.groups, key) < |p.groups|
    requires |RunRound(p, key, offers).1| < |Members(p.streams, key)|
    requires (forall e <- es :: Steady(e)) && RunTurns(RunRound(p, key, offers).0, es, key) == []
    requires OpenAt(later, 0)
    ensures var (q, took) := RunRound(p, key, offers);
            var next := RunRound(Run(q, es), key, later).1;
            var ms := Members(p.streams, key);
            && next != [] && next[0] in ms && next[0] !in took
            && CursorPos(p, key) < |ms| && took + [next[0]] == Cycle(ms, CursorPos(p, key), |took| + 1)
  {
    hide Inv, Moves, RunRound, RunTurns, Members, CursorPos, Run, Cycle, FindGroup;
    var (q, took) := RunRound(p, key, offers);
    var r := Run(q, es);
    var next := RunRound(r, key, later).1;
    RoundThenRun(p, key, offers, es);
    RunRoundMoves(r, key, later, key);
    MovesTrans(p, r, RunRound(r, key, later).0, key, took, next);
    OpenRound(r, key, later);
    DistinctMembers(p, key);
    MovesCycle(p, RunRound(r, key, later).0, key, took + next);
    NextInCycle(Members(p.streams, key), CursorPos(p, key), took, next);
  }

  lemma RoundThenRun(p: State, key: nat, offers: seq<Offer>, es: seq<Event>)
    requires Inv(p) && FindGroup(p.groups, key) < |p.groups|
    requires (forall e <- es :: Steady(e)) && RunTurns(RunRound(p, key, offers).0, es, key) == []
    ensures var (q, took) := RunRound(p, key, offers); var r := Run(q, es);
            Inv(r) && FindGroup(r.groups, key) < |r.groups| && Moves(p, r, key, took)
  {
    hide Inv, Moves, RunRound, RunTurns, Run, FindGroup;
    var (q, took) := RunRound(p, key, offers);
    RunRoundMoves(p, key, offers, key);
    RunRoundKeeps(p, key, offers);
    MovesHasGroup(p, q, key, took);
    RotationOverRuns(q, es, key);
    RunFromKeeps(q, es);
    MovesHasGroup(q, Run(q, es), key, []);
    MovesTrans(p, q, Run(q, es), key, took, []);
    assert took + [] == took;
  }

  lemma OpenRound(p: State, key: nat, offers: seq<Offer>)
    requires Inv(p) && FindGroup(p.groups, key) < |p.groups| && OpenAt(offers, 0)
    ensures RunRound(p, key, offers).1 != []
  {
    hide RunRound, Members, CursorPos;
    RoundIsLap(p, key, offers);
    StartIsMember(p, key);
  }

  /** Less than a lap into the cycle, the next turn is somebody who has not had one. */
  lemma NextInCycle(ms: seq<nat>, c: nat, took: seq<nat>, next: seq<nat>)
    requires c < |ms| && |took| < |ms| && next != [] && took + next == Cycle(ms, c, |took + next|)
    requires forall i, j :: 0 <= i < j < |ms| ==> ms[i] != ms[j]
    ensures took + [next[0]] == Cycle(ms, c, |took| + 1) && next[0] in ms && next[0] !in took
  {
    hide Cycle, After;
    var t := |took|;
    CycleConcat(ms, c, t + 1, |next| - 1);
    CycleConcat(ms, c, t + 1, |ms| - t - 1);
    CycleLap(ms, c);
    var first := Cycle(ms, c, t + 1);
    assert (took + next)[..t + 1] == took + [next[0]];
    assert first == took + [next[0]];
    var lap := ms[c..] + ms[..c];
    assert lap[..t + 1] == first;
    assert lap[t] == next[0];
    forall k | 0 <= k < t ensures took[k] != next[0] {
      assert lap[k] == took[k];
      assert lap[k] == ms[if k < |ms| - c then c + k else k - (|ms| - c)];
      assert lap[t] == ms[if t < |ms| - c then c + t else t - (|ms| - c)];
    }
  }
}

/**
 Strict rotation among the responses of one downstream QUIC connection: over any
 run that neither adds nor removes streams, the turns of a group are a stretch of
 one fixed cyclic order, including across rounds cut short by the valve.
 */
module ProxyRotation {
  import opened Common
  import opened Relay
  import opened RelayInvariant
  import opened RelayCallbacks
  import opened ProxyState
  import opened ProxyPopulation

  /** The position after c in a cycle of n. */
  function Wrap(c: nat, n: nat): nat { if c + 1 >= n then 0 else c + 1 }

  /** k turns of the cyclic order of ms, starting with position c. */
  function Cycle(ms: seq<nat>, c: nat, k: nat): (r: seq<nat>)
    requires c < |ms|
    ensures |r| == k
    decreases k
  {
    if k == 0 then [] else [ms[c]] + Cycle(ms, Wrap(c, |ms|), k - 1)
  }

  /** The position k turns after c. */
  function After(c: nat, n: nat, k: nat): (r: nat)
    requires c < n
    ensures r < n
    decreases k
  {
    if k == 0 then c else After(Wrap(c, n), n, k - 1)
  }

  /** Position within its group of the stream at list position i. */
  function Pos(ss: seq<Stream>, key: nat, i: nat): nat
    requires i <= |ss|
  {
    |Members(ss[..i], key)|
  }

  lemma {:induction false} SkipOthers(ss: seq<Stream>, key: nat, i: nat, j: nat)
    requires i <= j <= |ss|
    requires forall k :: i <= k < j ==> ss[k].key != key
    ensures Pos(ss, key, j) == Pos(ss, key, i)
  {
    assert ss[..j] == ss[..i] + ss[i..j];
    MembersConcat(ss[..i], ss[i..j], key);
    NoneWithKey(ss[i..j], key);
  }

  lemma MemberAt(ss: seq<Stream>, key: nat, i: nat)
    requires i < |ss| && ss[i].key == key
    ensures Pos(ss, key, i) < |Members(ss, key)|
    ensures Members(ss, key)[Pos(ss, key, i)] == ss[i].id
    ensures Pos(ss, key, i + 1) == Pos(ss, key, i) + 1
  {
    MembersAt(ss, i, key);
    assert ss[..i + 1] == ss[..i] + [ss[i]];
    MembersConcat(ss[..i], [ss[i]], key);
    assert [ss[i]][1..] == [];
  }

  lemma LastMember(ss: seq<Stream>, key: nat, i: nat)
    requires i < |ss| && ss[i].key == key && FirstFrom(ss, key, i + 1) == |ss|
    ensures Pos(ss, key, i) + 1 == |Members(ss, key)|
    ensures FirstFrom(ss, key, 0) <= i && Pos(ss, key, FirstFrom(ss, key, 0)) == 0
  {
    MemberAt(ss, key, i);
    SkipOthers(ss, key, i + 1, |ss|);
    assert ss[..|ss|] == ss;
    SkipOthers(ss, key, 0, FirstFrom(ss, key, 0));
  }

  /** The scan for the next member steps through the group in cyclic order. */
  lemma NextPos(ss: seq<Stream>, key: nat, i: nat)
    requires i < |ss| && ss[i].key == key
    ensures var j := NextMember(ss, key, i);
            && j < |ss| && ss[j].key == key
            && Pos(ss, key, j) == Wrap(Pos(ss, key, i), |Members(ss, key)|)
  {
    var j := FirstFrom(ss, key, i + 1);
    if j < |ss| {
      MemberAt(ss, key, i);
      SkipOthers(ss, key, i + 1, j);
      MemberAt(ss, key, j);
    } else {
      LastMember(ss, key, i);
    }
  }

  lemma RosterPos(a: seq<Stream>, b: seq<Stream>, key: nat, i: nat)
    requires SameRoster(a, b) && i <= |a|
    ensures Pos(a, key, i) == Pos(b, key, i)
  {
    RosterMembers(a[..i], b[..i], key);
  }

  /** Where the next round of the group starts. */
  function CursorPos(p: State, key: nat): nat { Pos(p.streams, key, StartAt(p, key)) }

  lemma StartIsMember(p: State, key: nat)
    requires GroupsOk(p) && FindGroup(p.groups, key) < |p.groups|
    ensures StartAt(p, key) < |p.streams| && p.streams[StartAt(p, key)].key == key
    ensures |Members(p.streams, key)| > 0
    ensures CursorPos(p, key) < |Members(p.streams, key)|
  {
    var g := FindGroup(p.groups, key);
    assert p.groups[g].count == |Members(p.streams, key)| > 0;
    if FirstFrom(p.streams, key, 0) == |p.streams| {
      NoneWithKey(p.streams, key);
    }
    MemberAt(p.streams, key, StartAt(p, key));
  }

  lemma FoundStream(ss: seq<Stream>, i: nat)
    requires i < |ss|
    requires forall j, k :: 0 <= j < k < |ss| ==> ss[j].id != ss[k].id
    ensures FindStream(ss, ss[i].id) == i
  {
  }

  /** A cursor set on a member is where the next round starts. */
  lemma CursorHeld(p: State, key: nat, i: nat)
    requires ListOk(p) && FindGroup(p.groups, key) < |p.groups|
    requires i < |p.streams| && p.streams[i].key == key
    requires p.groups[FindGroup(p.groups, key)].cursor == Some(p.streams[i].id)
    ensures StartAt(p, key) == i
  {
    FoundStream(p.streams, i);
  }

  // ---- one round ----

  /** The turns taken continue the cycle, and the cursor ends just after them. */
  ghost predicate Continues(p: State, q: State, key: nat, c: nat, took: seq<nat>) {
    var ms := Members(p.streams, key);
    && c < |ms| && SameShape(p, q)
    && took == Cycle(ms, c, |took|) && CursorPos(q, key) == After(c, |ms|, |took|)
  }

  lemma SetCursorFound(p: State, key: nat, cursor: Option<nat>)
    requires FindGroup(p.groups, key) < |p.groups|
    ensures var q := SetCursor(p, key, cursor);
            && FindGroup(q.groups, key) == FindGroup(p.groups, key)
            && q.groups[FindGroup(p.groups, key)].cursor == cursor
  {
  }

  lemma HoldPos(p: State, key: nat, i: nat)
    requires Inv(p) && FindGroup(p.groups, key) < |p.groups| && i < |p.streams| && p.streams[i].key == key
    ensures Continues(p, HoldAt(p, key, i), key, Pos(p.streams, key, i), [])
  {
    var q := HoldAt(p, key, i);
    HoldInv(p, key, i);
    SetCursorFound(Put(p, i, SetBlocked(p.streams[i], true)), key, Some(p.streams[i].id));
    CursorHeld(q, key, i);
    RosterPos(p.streams, q.streams, key, i);
    MemberAt(p.streams, key, i);
  }

  lemma TurnPos(p: State, key: nat, i: nat, replies: seq<Reply>)
    requires Inv(p) && FindGroup(p.groups, key) < |p.groups| && i < |p.streams| && p.streams[i].key == key
    ensures var q := TakeTurn(p, key, i, replies);
            && Inv(q) && SameShape(p, q) && FindGroup(q.groups, key) < |q.groups|
            && StartAt(q, key) == NextMember(p.streams, key, i)
  {
    var q := TakeTurn(p, key, i, replies);
    var next := NextMember(p.streams, key, i);
    TurnInv(p, key, i, replies);
    NextPos(p.streams, key, i);
    SetCursorFound(Put(p, i, Turn(p.streams[i], replies)), key, IdAt(p.streams, next));
    assert p.streams[next].id == q.streams[next].id && p.streams[next].key == q.streams[next].key;
    CursorHeld(q, key, next);
  }

  lemma {:induction false} RoundTurns(p: State, key: nat, i: nat, remaining: nat, offers: seq<Offer>)
    requires Inv(p) && FindGroup(p.groups, key) < |p.groups| && i < |p.streams| && p.streams[i].key == key
    requires remaining == 0 ==> StartAt(p, key) == i
    ensures var (q, took) := RoundFrom(p, key, i, remaining, offers);
            Continues(p, q, key, Pos(p.streams, key, i), took) && |took| <= remaining
    decreases remaining
  {
    MemberAt(p.streams, key, i);
    if remaining > 0 {
      if NextOffer(offers).unsent >= UNSENT_MAX {
        HoldPos(p, key, i);
      } else {
        TurnThen(p, key, i, remaining, offers);
      }
    }
  }

  lemma TurnThen(p: State, key: nat, i: nat, remaining: nat, offers: seq<Offer>)
    requires Inv(p) && FindGroup(p.groups, key) < |p.groups| && i < |p.streams| && p.streams[i].key == key
    requires remaining > 0 && NextOffer(offers).unsent < UNSENT_MAX
    ensures var (q, took) := RoundFrom(p, key, i, remaining, offers);
            Continues(p, q, key, Pos(p.streams, key, i), took) && |took| <= remaining
    decreases remaining, 0
  {
    hide Inv, TakeTurn;
    var replies := NextOffer(offers).replies;
    var p1 := TakeTurn(p, key, i, replies);
    var next := NextMember(p.streams, key, i);
    TurnPos(p, key, i, replies);
    NextPos(p.streams, key, i);
    RosterPos(p.streams, p1.streams, key, next);
    RosterMembers(p.streams, p1.streams, key);
    assert p1.streams[next].key == p.streams[next].key;
    RoundTurns(p1, key, next, remaining - 1, Later(offers));
    var (q, took) := RoundFrom(p1, key, next, remaining - 1, Later(offers));
    ShapeTrans(p, p1, q);
    MemberAt(p.streams, key, i);
    assert [p.streams[i].id] + took == Cycle(Members(p.streams, key), Pos(p.streams, key, i), |took| + 1);
  }

  // ---- everything else leaves the rotation where it is ----

  lemma RosterFind(a: seq<Stream>, b: seq<Stream>, id: nat, key: nat)
    requires SameRoster(a, b)
    ensures FindStream(a, id) == FindStream(b, id)
    ensures FirstFrom(a, key, 0) == FirstFrom(b, key, 0)
  {
    var i, j := FindStream(a, id), FindStream(b, id);
    assert i < |a| ==> a[i].id == b[i].id;
    assert j < |b| ==> a[j].id == b[j].id;
    var k, l := FirstFrom(a, key, 0), FirstFrom(b, key, 0);
    assert k < |a| ==> a[k].key == b[k].key;
    assert l < |b| ==> a[l].key == b[l].key;
  }

  /** Same streams in the same order, and the group's cursor untouched. */
  ghost predicate Unmoved(p: State, q: State, key: nat) {
    && SameRoster(p.streams, q.streams)
    && FindGroup(q.groups, key) < |q.groups| && FindGroup(p.groups, key) < |p.groups|
    && q.groups[FindGroup(q.groups, key)].cursor == p.groups[FindGroup(p.groups, key)].cursor
  }

  lemma UnmovedPos(p: State, q: State, key: nat)
    requires Unmoved(p, q, key)
    ensures CursorPos(q, key) == CursorPos(p, key) && Members(q.streams, key) == Members(p.streams, key)
    ensures StartAt(q, key) == StartAt(p, key)
  {
    var cursor := p.groups[FindGroup(p.groups, key)].cursor;
    var id := if cursor.Some? then cursor.value else 0;
    RosterFind(p.streams, q.streams, id, key);
    var i := FindStream(p.streams, id);
    assert i < |p.streams| ==> p.streams[i].key == q.streams[i].key;
    RosterPos(p.streams, q.streams, key, StartAt(p, key));
    RosterMembers(p.streams, q.streams, key);
  }

  lemma UnmovedTrans(p: State, q: State, r: State, key: nat)
    requires Unmoved(p, q, key) && Unmoved(q, r, key)
    ensures Unmoved(p, r, key)
  {
    forall i | 0 <= i < |p.streams|
      ensures p.streams[i].id == r.streams[i].id && p.streams[i].key == r.streams[i].key
    {
      assert p.streams[i].id == q.streams[i].id;
    }
  }

  lemma SetOtherCursor(p: State, other: nat, cursor: Option<nat>, key: nat)
    requires FindGroup(p.groups, key) < |p.groups| && other != key
    ensures Unmoved(p, SetCursor(p, other, cursor), key)
  {
    var q := SetCursor(p, other, cursor);
    var g := FindGroup(p.groups, key);
    assert q.groups[g] == p.groups[g];
    assert forall j :: 0 <= j < g ==> q.groups[j].key == p.groups[j].key;
  }

  lemma OtherStep(p: State, other: nat, i: nat, s: Stream, cursor: Option<nat>, key: nat)
    requires FindGroup(p.groups, key) < |p.groups| && other != key
    requires i < |p.streams| && s.id == p.streams[i].id && s.key == p.streams[i].key
    ensures Unmoved(p, SetCursor(Put(p, i, s), other, cursor), key)
  {
    var p1 := Put(p, i, s);
    SetOtherCursor(p1, other, cursor, key);
    assert Unmoved(p, p1, key);
    UnmovedTrans(p, p1, SetCursor(p1, other, cursor), key);
  }

  lemma {:induction false} OtherRound(p: State, other: nat, i: nat, remaining: nat, offers: seq<Offer>, key: nat)
    requires FindGroup(p.groups, key) < |p.groups| && other != key
    ensures Unmoved(p, RoundFrom(p, other, i, remaining, offers).0, key)
    decreases remaining
  {
    if i < |p.streams| && remaining > 0 {
      if NextOffer(offers).unsent >= UNSENT_MAX {
        OtherStep(p, other, i, SetBlocked(p.streams[i], true), Some(p.streams[i].id), key);
      } else {
        OtherTurn(p, other, i, remaining, offers, key);
      }
    }
  }

  lemma OtherTurn(p: State, other: nat, i: nat, remaining: nat, offers: seq<Offer>, key: nat)
    requires FindGroup(p.groups, key) < |p.groups| && other != key
    requires i < |p.streams| && remaining > 0 && NextOffer(offers).unsent < UNSENT_MAX
    ensures Unmoved(p, RoundFrom(p, other, i, remaining, offers).0, key)
    decreases remaining, 0
  {
    var replies := NextOffer(offers).replies;
    var next := NextMember(p.streams, other, i);
    FlushSame(p.streams[i], replies);
    OtherStep(p, other, i, Turn(p.streams[i], replies), IdAt(p.streams, next), key);
    hide TakeTurn;
    var p1 := TakeTurn(p, other, i, replies);
    OtherRound(p1, other, next, remaining - 1, Later(offers), key);
    UnmovedTrans(p, p1, RoundFrom(p1, other, next, remaining - 1, Later(offers)).0, key);
  }

  // ---- turns of one event and of a run ----

  function RoundTook(p: State, k: nat, offers: seq<Offer>, key: nat): seq<nat> {
    if k == key then RunRound(p, k, offers).1 else []
  }

  function RoundsTook(p: State, keys: seq<nat>, offers: seq<seq<Offer>>, key: nat): seq<nat>
    decreases keys
  {
    if keys == [] then []
    else
      var os := if offers == [] then [] else offers[0];
      RoundTook(p, keys[0], os, key) + RoundsTook(RunRound(p, keys[0], os).0, keys[1..], Later(offers), key)
  }

  /** The turns of group `key` within one event. */
  function TurnsOf(p: State, e: Event, key: nat): seq<nat> {
    match e
    case Writable(sid, offers) =>
      var i := FindStream(p.streams, sid);
      if i == |p.streams| then [] else RoundTook(p, p.streams[i].key, offers, key)
    case TickAt(_, rounds) => RoundsTook(p, Keys(p.groups), rounds, key)
    case _ => []
  }

  function RunTurns(p: State, es: seq<Event>, key: nat): seq<nat>
    decreases es
  {
    if es == [] then [] else TurnsOf(p, es[0], key) + RunTurns(Step(p, es[0]), es[1..], key)
  }

  lemma {:induction false} CycleConcat(ms: seq<nat>, c: nat, a: nat, b: nat)
    requires c < |ms|
    ensures Cycle(ms, c, a + b) == Cycle(ms, c, a) + Cycle(ms, After(c, |ms|, a), b)
    ensures After(c, |ms|, a + b) == After(After(c, |ms|, a), |ms|, b)
    decreases a
  {
    if a == 0 {
      assert Cycle(ms, c, b) == [] + Cycle(ms, c, b);
    } else {
      CycleConcat(ms, Wrap(c, |ms|), a - 1, b);
      Regroup([ms[c]], Cycle(ms, Wrap(c, |ms|), a - 1), Cycle(ms, After(c, |ms|, a), b));
    }
  }

  ghost predicate Moves(p: State, q: State, key: nat, took: seq<nat>) {
    Continues(p, q, key, CursorPos(p, key), took)
  }

  lemma MovesTrans(p: State, q: State, r: State, key: nat, a: seq<nat>, b: seq<nat>)
    requires Moves(p, q, key, a) && Moves(q, r, key, b)
    ensures Moves(p, r, key, a + b)
  {
    ShapeTrans(p, q, r);
    RosterMembers(p.streams, q.streams, key);
    CycleConcat(Members(p.streams, key), CursorPos(p, key), |a|, |b|);
  }

  lemma UnmovedMoves(p: State, q: State, key: nat)
    requires Inv(p) && Unmoved(p, q, key) && SameShape(p, q)
    ensures Moves(p, q, key, [])
  {
    StartIsMember(p, key);
    UnmovedPos(p, q, key);
  }

  lemma ShapeHasGroup(p: State, q: State, key: nat)
    requires SameShape(p, q) && FindGroup(p.groups, key) < |p.groups|
    ensures FindGroup(q.groups, key) < |q.groups|
  {
    var g := FindGroup(p.groups, key);
    assert q.groups[g].key == p.groups[g].key;
  }

  lemma RunRoundMoves(p: State, k: nat, offers: seq<Offer>, key: nat)
    requires Inv(p) && FindGroup(p.groups, key) < |p.groups|
    ensures Moves(p, RunRound(p, k, offers).0, key, RoundTook(p, k, offers, key))
  {
    RunRoundKeeps(p, k, offers);
    var g := FindGroup(p.groups, k);
    if k == key {
      StartIsMember(p, key);
      assert p.groups[g].count > 0;
      RoundTurns(p, key, StartAt(p, key), p.groups[g].count, offers);
    } else {
      if g < |p.groups| {
        OtherRound(p, k, StartAt(p, k), p.groups[g].count, offers, key);
      }
      UnmovedMoves(p, RunRound(p, k, offers).0, key);
    }
  }

  lemma {:induction false} RoundsMove(p: State, keys: seq<nat>, offers: seq<seq<Offer>>, key: nat)
    requires Inv(p) && FindGroup(p.groups, key) < |p.groups|
    ensures Moves(p, RunRounds(p, keys, offers), key, RoundsTook(p, keys, offers, key))
    decreases keys
  {
    hide Inv, SameShape;
    if keys == [] {
      ShapeRefl(p);
      UnmovedMoves(p, p, key);
    } else {
      var os := if offers == [] then [] else offers[0];
      var p1 := RunRound(p, keys[0], os).0;
      RunRoundMoves(p, keys[0], os, key);
      RunRoundKeeps(p, keys[0], os);
      ShapeHasGroup(p, p1, key);
      RoundsMove(p1, keys[1..], Later(offers), key);
      MovesTrans(p, p1, RunRounds(p1, keys[1..], Later(offers)), key,
                 RoundTook(p, keys[0], os, key), RoundsTook(p1, keys[1..], Later(offers), key));
    }
  }

  /** The event neither adds nor removes a stream. */
  predicate Steady(e: Event) { !e.Request? && !e.RequestClose? }

  lemma EvictMoves(p: State, ids: seq<nat>, cutoff: nat, key: nat)
    requires Inv(p) && FindGroup(p.groups, key) < |p.groups|
    ensures Moves(p, Evict(p, ids, cutoff), key, [])
  {
    hide Inv, Evict;
    EvictKeeps(p, ids, cutoff);
    EvictCfg(p, ids, cutoff);
    UnmovedMoves(p, Evict(p, ids, cutoff), key);
  }

  lemma TickMoves(p: State, now: nat, rounds: seq<seq<Offer>>, key: nat)
    requires Inv(p) && FindGroup(p.groups, key) < |p.groups|
    ensures Moves(p, Tick(p, now, rounds), key, RoundsTook(p, Keys(p.groups), rounds, key))
  {
    hide Inv, Moves, RunRounds, Evict, SameShape, RoundsTook;
    var p1 := RunRounds(p, Keys(p.groups), rounds);
    var cutoff := if now > p.cfg.timeoutSec then now - p.cfg.timeoutSec else 0;
    RoundsMove(p, Keys(p.groups), rounds, key);
    RoundsKeep(p, Keys(p.groups), rounds);
    ShapeHasGroup(p, p1, key);
    EvictMoves(p1, ConnIds(p1.conns), cutoff, key);
    var took := RoundsTook(p, Keys(p.groups), rounds, key);
    MovesTrans(p, p1, Evict(p1, ConnIds(p1.conns), cutoff), key, took, []);
    assert took + [] == took;
  }

  lemma {:induction false} EvictCfg(p: State, ids: seq<nat>, cutoff: nat)
    ensures Evict(p, ids, cutoff).cfg == p.cfg
    decreases ids
  {
    if ids != [] {
      var c := FindConn(p.conns, ids[0]);
      var p' := if c < |p.conns| && Idle(p.conns[c], cutoff) then DestroyBackend(p, ids[0], []) else p;
      EvictCfg(p', ids[1..], cutoff);
    }
  }

  lemma FinishUnmoved(p: State, i: nat, f: Flow, cid: nat, gateway: seq<Reply>, key: nat)
    requires i < |p.streams| && f.s.id == p.streams[i].id && f.s.key == p.streams[i].key
    requires FindGroup(p.groups, key) < |p.groups|
    ensures var q := Finish(p, i, f, cid, gateway); Unmoved(p, q, key) && SameShape(p, q)
  {
    var p1 := Put(p, i, f.s);
    assert SameRoster(p.streams, p1.streams);
    if f.out == Fail {
      LoseShape(p1.streams, cid, gateway);
      forall k | 0 <= k < |p.streams|
        ensures DestroyBackend(p1, cid, gateway).streams[k].id == p.streams[k].id
        ensures DestroyBackend(p1, cid, gateway).streams[k].key == p.streams[k].key
      {
        assert p1.streams[k].id == p.streams[k].id;
      }
    }
  }

  lemma CallbackUnmoved(p: State, e: Event, key: nat)
    requires FindGroup(p.groups, key) < |p.groups|
    requires e.Headers? || e.Data? || e.DataEnd? || e.StreamClose? || e.BackendLost? || e.BackendActive?
    ensures Unmoved(p, Step(p, e), key) && SameShape(p, Step(p, e))
  {
    hide OnHeaders, OnChunk, OnDataEnd, Finish, Unmoved, SameShape, DestroyBackend, Credit;
    StaysPut(p, key);
    match e {
      case Headers(cid, sid, fields, end, replies, gateway) =>
        var i := FindStream(p.streams, sid);
        if i < |p.streams| {
          CallbacksSame(p.streams[i], fields, [], end, 0, replies);
          FinishUnmoved(p, i, OnHeaders(p.streams[i], fields, end, replies), cid, gateway, key);
        }
      case Data(cid, sid, data, credit, replies, gateway) =>
        var i := FindStream(p.streams, sid);
        if i < |p.streams| {
          DataUnmoved(p, i, e, key);
        }
      case DataEnd(cid, sid, replies, gateway) =>
        var i := FindStream(p.streams, sid);
        if i < |p.streams| {
          CallbacksSame(p.streams[i], [], [], false, 0, replies);
          FinishUnmoved(p, i, OnDataEnd(p.streams[i], replies), cid, gateway, key);
        }
      case StreamClose(cid, sid, error) => CloseUnmoved(p, e, key);
      case BackendLost(cid, gateway) => LostUnmoved(p, cid, gateway, key);
      case BackendActive(_, _) => ActiveUnmoved(p, e, key);
    }
  }

  lemma CloseUnmoved(p: State, e: Event, key: nat)
    requires FindGroup(p.groups, key) < |p.groups| && e.StreamClose?
    ensures Unmoved(p, Step(p, e), key) && SameShape(p, Step(p, e))
  {
  }

  lemma ActiveUnmoved(p: State, e: Event, key: nat)
    requires FindGroup(p.groups, key) < |p.groups| && e.BackendActive?
    ensures Unmoved(p, Step(p, e), key) && SameShape(p, Step(p, e))
  {
  }

  lemma LostUnmoved(p: State, cid: nat, gateway: seq<Reply>, key: nat)
    requires FindGroup(p.groups, key) < |p.groups|
    ensures Unmoved(p, DestroyBackend(p, cid, gateway), key) && SameShape(p, DestroyBackend(p, cid, gateway))
  {
    LoseShape(p.streams, cid, gateway);
  }

  lemma CreditUnmoved(p: State, cid: nat, n: nat, q: State, key: nat)
    requires FindGroup(p.groups, key) < |p.groups|
    ensures var p1 := Credit(p, cid, n);
            && p1.streams == p.streams && p1.groups == p.groups && p1.cfg == p.cfg
            && (Unmoved(p1, q, key) ==> Unmoved(p, q, key)) && (SameShape(p1, q) ==> SameShape(p, q))
            && Unmoved(p, p1, key) && SameShape(p, p1)
  {
  }

  lemma DataUnmoved(p: State, i: nat, e: Event, key: nat)
    requires FindGroup(p.groups, key) < |p.groups| && e.Data? && i == FindStream(p.streams, e.sid) < |p.streams|
    ensures Unmoved(p, Step(p, e), key) && SameShape(p, Step(p, e))
  {
    hide OnChunk, Finish, Unmoved, SameShape, Credit;
    var s := p.streams[i];
    var p1 := Credit(p, e.cid, |e.data|);
    var f := OnChunk(s, e.data, p.cfg.maxBuffer, e.credit, e.replies);
    CallbacksSame(s, [], e.data, e.credit, p.cfg.maxBuffer, e.replies);
    CreditUnmoved(p, e.cid, |e.data|, p, key);
    CreditUnmoved(p, e.cid, |e.data|, Finish(p1, i, f, e.cid, e.gateway), key);
    FinishUnmoved(p, i, f, e.cid, e.gateway, key);
    FinishUnmoved(p1, i, f, e.cid, e.gateway, key);
    StaysPut(p, key);
  }

  lemma StaysPut(p: State, key: nat)
    requires FindGroup(p.groups, key) < |p.groups|
    ensures Unmoved(p, p, key) && SameShape(p, p)
  {
  }

  lemma StepMoves(p: State, e: Event, key: nat)
    requires Inv(p) && FindGroup(p.groups, key) < |p.groups| && Steady(e)
    ensures Moves(p, Step(p, e), key, TurnsOf(p, e, key))
  {
    hide Inv, SameShape;
    match e {
      case Writable(sid, offers) =>
        var i := FindStream(p.streams, sid);
        if i < |p.streams| {
          RunRoundMoves(p, p.streams[i].key, offers, key);
        } else {
          ShapeRefl(p);
          UnmovedMoves(p, p, key);
        }
      case TickAt(now, rounds) => TickMoves(p, now, rounds, key);
      case _ =>
        CallbackUnmoved(p, e, key);
        UnmovedMoves(p, Step(p, e), key);
    }
  }

  /** Over every run that keeps the set of streams fixed, the turns of a rotation group are a stretch
      of one cyclic order of its members that starts at the cursor, and the cursor ends just after it. */
  lemma {:induction false} RotationOverRuns(p: State, es: seq<Event>, key: nat)
    requires Inv(p) && FindGroup(p.groups, key) < |p.groups|
    requires forall e <- es :: Steady(e)
    ensures Moves(p, Run(p, es), key, RunTurns(p, es, key))
    decreases es
  {
    hide Inv, SameShape, Step;
    if es == [] {
      ShapeRefl(p);
      UnmovedMoves(p, p, key);
    } else {
      var q := Step(p, es[0]);
      StepMoves(p, es[0], key);
      StepKeeps(p, es[0]);
      MovesHasGroup(p, q, key, TurnsOf(p, es[0], key));
      RotationOverRuns(q, es[1..], key);
      MovesTrans(p, q, Run(q, es[1..]), key, TurnsOf(p, es[0], key), RunTurns(q, es[1..], key));
    }
  }

  lemma MovesHasGroup(p: State, q: State, key: nat, took: seq<nat>)
    requires Moves(p, q, key, took) && FindGroup(p.groups, key) < |p.groups|
    ensures FindGroup(q.groups, key) < |q.groups|
  {
    ShapeHasGroup(p, q, key);
  }

  // ---- what a stretch of one cyclic order means ----

  lemma {:induction false} CycleRun(ms: seq<nat>, c: nat, k: nat)
    requires c < |ms| && k <= |ms| - c
    ensures Cycle(ms, c, k) == ms[c..c + k]
    ensures After(c, |ms|, k) == if c + k == |ms| && k > 0 then 0 else c + k
    decreases k
  {
    if k > 0 && c + 1 < |ms| {
      CycleRun(ms, c + 1, k - 1);
      assert ms[c..c + k] == [ms[c]] + ms[c + 1..c + k];
    }
  }

  lemma LapPositions(n: nat, c: nat, ms: seq<nat>)
    requires c < n == |ms|
    ensures After(c, n, n - c) == 0 && After(0, n, c) == c && After(c, n, n) == c
  {
    hide Cycle, After;
    CycleRun(ms, c, n - c);
    CycleRun(ms, 0, c);
    CycleConcat(ms, c, n - c, c);
  }

  /** One lap: every member exactly once, and back to the start. */
  lemma CycleLap(ms: seq<nat>, c: nat)
    requires c < |ms|
    ensures Cycle(ms, c, |ms|) == ms[c..] + ms[..c]
    ensures After(c, |ms|, |ms|) == c
  {
    hide Cycle, After;
    LapPositions(|ms|, c, ms);
    CycleConcat(ms, c, |ms| - c, c);
    CycleToEnd(ms, c);
    CycleFromStart(ms, c);
  }

  lemma CycleToEnd(ms: seq<nat>, c: nat)
    requires c < |ms|
    ensures Cycle(ms, c, |ms| - c) == ms[c..]
  {
    hide Cycle, After;
    CycleRun(ms, c, |ms| - c);
  }

  lemma CycleFromStart(ms: seq<nat>, c: nat)
    requires c < |ms|
    ensures Cycle(ms, 0, c) == ms[..c]
  {
    hide Cycle, After;
    CycleRun(ms, 0, c);
  }

  /** Within any stretch of turns, as many consecutive turns as there are members are one lap: from any
      turn of a stream to its next, every other stream has exactly one turn. */
  lemma StrictRotation(ms: seq<nat>, c: nat, k: nat, t: nat)
    requires c < |ms| && t + |ms| <= k
    ensures exists r :: 0 <= r < |ms| && Cycle(ms, c, k)[t..t + |ms|] == ms[r..] + ms[..r]
    ensures t + |ms| < k ==> Cycle(ms, c, k)[t + |ms|] == Cycle(ms, c, k)[t]
  {
    hide Cycle, After;
    var r := After(c, |ms|, t);
    CycleConcat(ms, c, t, k - t);
    CycleConcat(ms, r, |ms|, k - t - |ms|);
    CycleLap(ms, r);
    var before, lap, rest := Cycle(ms, c, t), Cycle(ms, r, |ms|), Cycle(ms, r, k - t - |ms|);
    assert Cycle(ms, c, k) == before + (lap + rest);
    Middle(before, lap, rest);
    CycleFirst(ms, r, |ms|);
    if t + |ms| < k { CycleFirst(ms, r, k - t - |ms|); }
  }

  lemma Middle(a: seq<nat>, b: seq<nat>, c: seq<nat>)
    ensures (a + (b + c))[|a|..|a| + |b|] == b
    ensures b != [] ==> (a + (b + c))[|a|] == b[0]
    ensures c != [] ==> (a + (b + c))[|a| + |b|] == c[0]
  {
  }

  lemma CycleFirst(ms: seq<nat>, c: nat, k: nat)
    requires c < |ms| && k > 0
    ensures Cycle(ms, c, k)[0] == ms[c]
  {
  }

  /** The members of a group are distinct, so a lap repeats nobody. */
  lemma {:induction false} MembersDistinct(ss: seq<Stream>, key: nat)
    requires forall i, j :: 0 <= i < j < |ss| ==> ss[i].id != ss[j].id
    ensures forall i, j :: 0 <= i < j < |Members(ss, key)| ==> Members(ss, key)[i] != Members(ss, key)[j]
  {
    if ss != [] {
      MembersDistinct(ss[1..], key);
      NotMember(ss[1..], key, ss[0].id);
      var rest := Members(ss[1..], key);
      var d := if ss[0].key == key then 1 else 0;
      forall i, j | 0 <= i < j < |Members(ss, key)|
        ensures Members(ss, key)[i] != Members(ss, key)[j]
      {
        assert Members(ss, key)[j] == rest[j - d];
        assert i >= d ==> Members(ss, key)[i] == rest[i - d];
      }
    }
  }

  lemma {:induction false} NotMember(ss: seq<Stream>, key: nat, id: nat)
    requires forall j :: 0 <= j < |ss| ==> ss[j].id != id
    ensures id !in Members(ss, key)
  {
    if ss != [] {
      NotMember(ss[1..], key, id);
    }
  }

  lemma DistinctMembers(p: State, key: nat)
    requires Inv(p)
    ensures var ms := Members(p.streams, key); forall i, j :: 0 <= i < j < |ms| ==> ms[i] != ms[j]
  {
    MembersDistinct(p.streams, key);
  }

  lemma MovesCycle(p: State, q: State, key: nat, took: seq<nat>)
    requires Moves(p, q, key, took)
    ensures CursorPos(p, key) < |Members(p.streams, key)|
    ensures took == Cycle(Members(p.streams, key), CursorPos(p, key), |took|)
  {
  }
}

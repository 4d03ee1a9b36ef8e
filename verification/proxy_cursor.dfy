/**
 The rotation cursors: which events can leave a group's cursor on a stream that
 no longer exists, one event at a time and over every run.
 */
module ProxyCursor {
  import opened Common
  import opened Relay
  import opened RelayInvariant
  import opened RelayCallbacks
  import opened ProxyState
  import opened ProxyPopulation
  import opened ProxyRotation

  predicate OnList(ss: seq<Stream>, c: Option<nat>) { c.Some? ==> FindStream(ss, c.value) < |ss| }

  /** Every cursor names a stream of the list, or none. */
  predicate CursorsListed(p: State) {
    forall g :: 0 <= g < |p.groups| ==> OnList(p.streams, p.groups[g].cursor)
  }

  /** Destroying a stream keeps that exactly if no other group's cursor is on it. */
  lemma CursorsListedExactly(p: State, i: nat)
    requires Pop(p) && CursorsListed(p) && i < |p.streams|
    ensures var s := p.streams[i];
            CursorsListed(DestroyStream(p, i)) <==>
              forall g :: 0 <= g < |p.groups| && p.groups[g].key != s.key ==> p.groups[g].cursor != Some(s.id)
  {
    var s, q := p.streams[i], DestroyStream(p, i);
    assert HasGroup(p.groups, s.key);
    if exists g :: 0 <= g < |p.groups| && p.groups[g].key != s.key && p.groups[g].cursor == Some(s.id) {
      var g :| 0 <= g < |p.groups| && p.groups[g].key != s.key && p.groups[g].cursor == Some(s.id);
      GoneFromList(p, i);
      var g0 := FindGroup(p.groups, s.key);
      var g' := if p.groups[g0].count <= 1 && g > g0 then g - 1 else g;
      assert q.groups[g'] == p.groups[g];
      assert !OnList(q.streams, q.groups[g'].cursor);
    } else {
      forall g | 0 <= g < |q.groups|
        ensures OnList(q.streams, q.groups[g].cursor)
      {
        LeftCounts(p, i);
        var h := Shifted(p, i, g);
        assert OnList(p.streams, p.groups[h].cursor);
        StillListed(p, i, g);
      }
    }
  }

  lemma GoneFromList(p: State, i: nat)
    requires ListOk(p) && i < |p.streams|
    ensures FindStream(Remove(p.streams, i), p.streams[i].id) == |p.streams| - 1
  {
    var ss := Remove(p.streams, i);
    forall k | 0 <= k < |ss|
      ensures ss[k].id != p.streams[i].id
    {
      assert ss[k] == p.streams[if k < i then k else k + 1];
    }
  }

  lemma OthersListed(p: State, i: nat, id: nat)
    requires i < |p.streams| && FindStream(p.streams, id) < |p.streams| && id != p.streams[i].id
    ensures FindStream(Remove(p.streams, i), id) < |p.streams| - 1
  {
    var k := FindStream(p.streams, id);
    assert Remove(p.streams, i)[if k < i then k else k - 1] == p.streams[k];
  }

  lemma StillListed(p: State, i: nat, g: nat)
    requires Pop(p) && i < |p.streams| && g < |DestroyStream(p, i).groups| && Shifted(p, i, g) < |p.groups|
    requires CursorsListed(p)
    requires forall h :: 0 <= h < |p.groups| && p.groups[h].key != p.streams[i].key ==> p.groups[h].cursor != Some(p.streams[i].id)
    ensures OnList(DestroyStream(p, i).streams, DestroyStream(p, i).groups[g].cursor)
  {
    var s, q, h := p.streams[i], DestroyStream(p, i), Shifted(p, i, g);
    assert HasGroup(p.groups, s.key);
    assert OnList(p.streams, p.groups[h].cursor);
    var c := q.groups[g].cursor;
    if p.groups[h].cursor.Some? && p.groups[h].cursor != Some(s.id) {
      OthersListed(p, i, p.groups[h].cursor.value);
    }
    if i + 1 < |p.streams| {
      assert Remove(p.streams, i)[i] == p.streams[i + 1];
    }
  }

  // ---- every other step keeps the cursors on the list ----

  lemma RosterListed(p: State, q: State)
    requires CursorsListed(p) && SameRoster(p.streams, q.streams) && q.groups == p.groups
    ensures CursorsListed(q)
  {
    forall g | 0 <= g < |q.groups| ensures OnList(q.streams, q.groups[g].cursor) {
      assert OnList(p.streams, p.groups[g].cursor);
      if q.groups[g].cursor.Some? { RosterFind(p.streams, q.streams, q.groups[g].cursor.value, 0); }
    }
  }

  lemma SetCursorListed(p: State, key: nat, c: Option<nat>)
    requires CursorsListed(p) && OnList(p.streams, c)
    ensures CursorsListed(SetCursor(p, key, c))
  {
  }

  lemma IdOnList(ss: seq<Stream>, i: nat)
    ensures OnList(ss, IdAt(ss, i))
  {
  }

  lemma PutThenCursor(p: State, i: nat, s: Stream, key: nat, j: nat)
    requires CursorsListed(p) && i < |p.streams| && s.id == p.streams[i].id && s.key == p.streams[i].key
    ensures CursorsListed(SetCursor(Put(p, i, s), key, IdAt(p.streams, j)))
  {
    var q := Put(p, i, s);
    RosterListed(p, q);
    IdOnList(p.streams, j);
    if j < |p.streams| {
      RosterFind(p.streams, q.streams, p.streams[j].id, 0);
    }
    SetCursorListed(q, key, IdAt(p.streams, j));
  }

  lemma {:induction false} RoundListed(p: State, key: nat, i: nat, remaining: nat, offers: seq<Offer>)
    requires CursorsListed(p)
    ensures CursorsListed(RoundFrom(p, key, i, remaining, offers).0)
    decreases remaining
  {
    hide CursorsListed;
    if i < |p.streams| && remaining > 0 {
      if NextOffer(offers).unsent >= UNSENT_MAX {
        PutThenCursor(p, i, SetBlocked(p.streams[i], true), key, i);
      } else {
        var replies, next := NextOffer(offers).replies, NextMember(p.streams, key, i);
        FlushSame(p.streams[i], replies);
        PutThenCursor(p, i, Turn(p.streams[i], replies), key, next);
        RoundListed(TakeTurn(p, key, i, replies), key, next, remaining - 1, Later(offers));
      }
    }
  }

  lemma {:induction false} RoundsListed(p: State, keys: seq<nat>, rounds: seq<seq<Offer>>)
    requires CursorsListed(p)
    ensures CursorsListed(RunRounds(p, keys, rounds))
    decreases keys
  {
    hide CursorsListed;
    if keys != [] {
      var os := if rounds == [] then [] else rounds[0];
      RunRoundListed(p, keys[0], os);
      RoundsListed(RunRound(p, keys[0], os).0, keys[1..], Later(rounds));
    }
  }

  lemma RunRoundListed(p: State, key: nat, offers: seq<Offer>)
    requires CursorsListed(p)
    ensures CursorsListed(RunRound(p, key, offers).0)
  {
    hide CursorsListed, RoundFrom;
    var g := FindGroup(p.groups, key);
    if g < |p.groups| { RoundListed(p, key, StartAt(p, key), p.groups[g].count, offers); }
  }

  lemma LostListed(p: State, cid: nat, gateway: seq<Reply>)
    requires CursorsListed(p)
    ensures CursorsListed(DestroyBackend(p, cid, gateway))
  {
    hide CursorsListed;
    LoseShape(p.streams, cid, gateway);
    if FindConn(p.conns, cid) < |p.conns| { RosterListed(p, DestroyBackend(p, cid, gateway)); }
  }

  lemma {:induction false} EvictListed(p: State, ids: seq<nat>, cutoff: nat)
    requires CursorsListed(p)
    ensures CursorsListed(Evict(p, ids, cutoff))
    decreases ids
  {
    hide CursorsListed, DestroyBackend;
    if ids != [] {
      var c := FindConn(p.conns, ids[0]);
      LostListed(p, ids[0], []);
      EvictListed(if c < |p.conns| && Idle(p.conns[c], cutoff) then DestroyBackend(p, ids[0], []) else p, ids[1..], cutoff);
    }
  }

  lemma TickListed(p: State, now: nat, rounds: seq<seq<Offer>>)
    requires CursorsListed(p)
    ensures CursorsListed(Tick(p, now, rounds))
  {
    hide CursorsListed, RunRounds, Evict;
    var q := RunRounds(p, Keys(p.groups), rounds);
    RoundsListed(p, Keys(p.groups), rounds);
    EvictListed(q, ConnIds(q.conns), if now > p.cfg.timeoutSec then now - p.cfg.timeoutSec else 0);
  }

  /** The frame callbacks move no cursor. */
  lemma CallbackListed(p: State, e: Event)
    requires Inv(p) && CursorsListed(p)
    requires e.Headers? || e.Data? || e.DataEnd? || e.StreamClose? || e.BackendLost? || e.BackendActive?
    ensures CursorsListed(Step(p, e))
  {
    hide Step, Unmoved, SameShape;
    var q := Step(p, e);
    if p.groups == [] {
      NoGroups(p, e);
    } else {
      CallbackUnmoved(p, e, p.groups[0].key);
      forall g | 0 <= g < |q.groups| ensures OnList(q.streams, q.groups[g].cursor) {
        ShapeKey(p, q, g);
        FoundGroup(p.groups, g);
        CallbackUnmoved(p, e, p.groups[g].key);
        FoundGroup(q.groups, g);
        CursorStays(p, q, g);
      }
    }
  }

  lemma NoGroups(p: State, e: Event)
    requires p.groups == []
    requires e.Headers? || e.Data? || e.DataEnd? || e.StreamClose? || e.BackendLost? || e.BackendActive?
    ensures Step(p, e).groups == []
  {
  }

  lemma ShapeKey(p: State, q: State, g: nat)
    requires Inv(p) && SameShape(p, q) && g < |q.groups|
    ensures g < |p.groups| && q.groups[g].key == p.groups[g].key
    ensures forall i, j :: 0 <= i < j < |q.groups| ==> q.groups[i].key != q.groups[j].key
  {
    assert forall i :: 0 <= i < |q.groups| ==> q.groups[i].key == p.groups[i].key;
  }

  lemma FoundGroup(gs: seq<Group>, g: nat)
    requires g < |gs| && forall i, j :: 0 <= i < j < |gs| ==> gs[i].key != gs[j].key
    ensures FindGroup(gs, gs[g].key) == g
  {
  }

  lemma CursorStays(p: State, q: State, g: nat)
    requires CursorsListed(p) && g < |p.groups| && g < |q.groups| && q.groups[g].key == p.groups[g].key
    requires FindGroup(p.groups, p.groups[g].key) == g && FindGroup(q.groups, p.groups[g].key) == g
    requires Unmoved(p, q, p.groups[g].key)
    ensures OnList(q.streams, q.groups[g].cursor)
  {
    assert OnList(p.streams, p.groups[g].cursor);
    if q.groups[g].cursor.Some? { RosterFind(p.streams, q.streams, q.groups[g].cursor.value, 0); }
  }

  // ---- requests ----

  lemma CreateListed(p: State, key: nat)
    requires Pop(p) && CursorsListed(p)
    ensures var q := CreateStream(p, key); CursorsListed(q) && NotElsewhere(q, 0)
  {
    var q := CreateStream(p, key);
    assert q.streams[1..] == p.streams;
    forall g | 0 <= g < |q.groups| ensures OnList(q.streams, q.groups[g].cursor) {
      var d := if FindGroup(p.groups, key) == |p.groups| then 1 else 0;
      if g >= d {
        assert OnList(p.streams, p.groups[g - d].cursor);
        Behind(p, q, p.groups[g - d].cursor);
      }
    }
    forall g | 0 <= g < |q.groups| && q.groups[g].key != key ensures q.groups[g].cursor != Some(p.nextStream) {
      var d := if FindGroup(p.groups, key) == |p.groups| then 1 else 0;
      assert OnList(p.streams, p.groups[g - d].cursor);
      Older(p, p.groups[g - d].cursor);
    }
  }

  lemma Behind(p: State, q: State, c: Option<nat>)
    requires q.streams != [] && q.streams[1..] == p.streams && OnList(p.streams, c)
    ensures OnList(q.streams, c)
  {
    if c.Some? {
      var k := FindStream(p.streams, c.value);
      assert q.streams[k + 1] == p.streams[k];
    }
  }

  lemma Older(p: State, c: Option<nat>)
    requires ListOk(p) && OnList(p.streams, c)
    ensures c != Some(p.nextStream)
  {
  }

  /** No other group's cursor is on the stream at i. */
  ghost predicate NotElsewhere(p: State, i: nat)
    requires i < |p.streams|
  {
    forall g :: 0 <= g < |p.groups| && p.groups[g].key != p.streams[i].key ==> p.groups[g].cursor != Some(p.streams[i].id)
  }

  lemma AttachListed(p: State, c: nat, submitted: bool)
    requires Pop(p) && CursorsListed(p) && |p.streams| > 0 && NotElsewhere(p, 0) && c < |p.conns|
    requires p.streams[0].backend.None? && p.conns[c].count < p.cfg.maxStreams
    ensures CursorsListed(Attach(p, c, submitted))
  {
    var q := Attach(p, c, true);
    AttachKeeps(p, c);
    RosterListed(p, q);
    if !submitted { CursorsListedExactly(q, 0); }
  }

  lemma RequestListed(p: State, key: nat, dialed: bool, submitted: bool, now: nat)
    requires Inv(p) && CursorsListed(p)
    ensures CursorsListed(HandleRequest(p, key, dialed, submitted, now))
  {
    hide CursorsListed, DestroyStream;
    CreateKeeps(p, key);
    CreateListed(p, key);
    var p1 := CreateStream(p, key);
    var c := FreeConn(p1.conns, p1.cfg.maxStreams);
    if c < |p1.conns| {
      AttachListed(p1, c, submitted);
    } else if p1.connCount < p1.cfg.maxConns && dialed {
      OpenKeeps(p1, now);
      RosterListed(p1, OpenBackend(p1, now));
      AttachListed(OpenBackend(p1, now), 0, submitted);
    } else {
      CursorsListedExactly(p1, 0);
    }
  }

  // ---- runs ----

  /** e closes a request whose stream some other group's cursor is on. */
  ghost predicate Orphans(p: State, e: Event) {
    e.RequestClose? && var i := FindStream(p.streams, e.sid); i < |p.streams| && !NotElsewhere(p, i)
  }

  lemma StepListed(p: State, e: Event)
    requires Inv(p) && CursorsListed(p)
    ensures CursorsListed(Step(p, e)) <==> !Orphans(p, e)
  {
    hide CursorsListed, NotElsewhere, DestroyStream, Tick, HandleRequest;
    match e {
      case Request(key, dialed, submitted, now) => RequestListed(p, key, dialed, submitted, now);
      case RequestClose(sid) =>
        var i := FindStream(p.streams, sid);
        if i < |p.streams| { CloseListed(p, i); }
      case TickAt(now, rounds) => TickListed(p, now, rounds);
      case Writable(sid, offers) =>
        var i := FindStream(p.streams, sid);
        if i < |p.streams| { RunRoundListed(p, p.streams[i].key, offers); }
      case _ => CallbackListed(p, e);
    }
  }

  lemma CloseListed(p: State, i: nat)
    requires Inv(p) && CursorsListed(p) && i < |p.streams|
    ensures CursorsListed(DestroyStream(p, i)) <==> NotElsewhere(p, i)
  {
    CursorsListedExactly(p, i);
  }

  /** From any run with its cursors on the list: they stay there if and only if no request is closed
      whose stream another group's cursor is on. */
  lemma {:induction false} ListedOverRuns(p: State, es: seq<Event>)
    requires Inv(p) && CursorsListed(p)
    ensures (forall k :: 0 <= k <= |es| ==> CursorsListed(Run(p, es[..k])))
       <==> (forall k :: 0 <= k < |es| ==> !Orphans(Run(p, es[..k]), es[k]))
    decreases es
  {
    hide Inv, Step, CursorsListed, Orphans;
    assert es[..|es|] == es;
    if es == [] {
      assert forall k :: 0 <= k <= |es| ==> es[..k] == [];
    } else {
      var n := |es| - 1;
      var before := es[..n];
      ListedOverRuns(p, before);
      RunFromKeeps(p, before);
      assert es == before + [es[n]];
      RunSplit(p, before, [es[n]]);
      assert Run(Run(p, before), [es[n]]) == Step(Run(p, before), es[n]) by {
        assert Run(Step(Run(p, before), es[n]), []) == Step(Run(p, before), es[n]);
      }
      assert before[..n] == before;
      assert forall k :: 0 <= k <= n ==> before[..k] == es[..k];
      if CursorsListed(Run(p, before)) { StepListed(Run(p, before), es[n]); }
    }
  }

  lemma {:induction false} RunSplit(p: State, a: seq<Event>, b: seq<Event>)
    ensures Run(p, a + b) == Run(Run(p, a), b)
    decreases a
  {
    hide Step;
    if a == [] {
      assert a + b == b;
    } else {
      assert (a + b)[1..] == a[1..] + b;
      RunSplit(Step(p, a[0]), a[1..], b);
    }
  }
}

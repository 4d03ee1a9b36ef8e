/** The path table's guarantees, for every run from an empty table. */
module PathTheorems {
  import opened PathFsm
  import opened PathTable
  import opened PathSafety

  /** Exactly once: a handle that was issued is either still owed its release, by exactly one slot, or
      was finalised, one single time. After destroy every issued handle was finalised. */
  lemma FinalizedOnce(multipath: bool, ops: seq<Op>, h: nat)
    ensures var c := Run(Init(multipath), ops); var done := c.ledger.finalized;
            && multiset(done)[h] <= 1
            && (1 <= h < c.nextHandle ==> (multiset(done)[h] == 1) == !Owed(c.slots, h))
            && (h < 1 || h >= c.nextHandle ==> h !in done && !Owed(c.slots, h))
            && (c.phase.Gone? && 1 <= h < c.nextHandle ==> multiset(done)[h] == 1)
  {
    InitInv(multipath);
    RunKeeps(Init(multipath), ops);
    var c := Run(Init(multipath), ops);
    CountAtMostOne(c.ledger.finalized, h);
    if Owed(c.slots, h) {
      var j :| 0 <= j < |c.slots| && c.slots[j].handle == h && !c.slots[j].io.released;
    }
  }

  lemma {:induction false} CountAtMostOne(q: seq<nat>, h: nat)
    requires NoRepeat(q)
    ensures multiset(q)[h] == if h in q then 1 else 0
    decreases q
  {
    if q != [] {
      assert q == [q[0]] + q[1..];
      CountAtMostOne(q[1..], h);
    }
  }

  /** A finalisation is never taken back: the history only grows. */
  lemma {:induction false} HistoryGrows(c: Table, ops: seq<Op>)
    ensures c.ledger.finalized <= Run(c, ops).ledger.finalized
    decreases ops
  {
    if ops != [] {
      StepGrows(c, ops[0]);
      HistoryGrows(Step(c, ops[0]), ops[1..]);
    }
  }

  lemma StepGrows(c: Table, op: Op)
    ensures c.ledger.finalized <= Step(c, op).ledger.finalized
  {
    if op.Destroy? { DestroyGrows(c.slots, |c.slots|, c.ledger, op.read); }
  }

  lemma {:induction false} DestroyGrows(slots: seq<Slot>, k: nat, l: Ledger, read: set<nat>)
    requires k <= |slots|
    ensures l.finalized <= FinalizeUpTo(slots, k, l, read).finalized
    decreases k
  {
    if k > 0 { DestroyGrows(slots, k - 1, l, read); }
  }

  /** Short of destroy, a transport is finalised only on its own release notification, and only after
      the platform dropped or removed that path. */
  lemma FinalizedOnlyAfterDrop(c: Table, op: Op)
    requires !op.Destroy? && Step(c, op).ledger.finalized != c.ledger.finalized
    ensures op.Release? && ByHandle(c.slots, op.h) < |c.slots|
    ensures var s := c.slots[ByHandle(c.slots, op.h)];
            s.state == ClosedDropped && !s.io.released
    ensures op.h >= 0 && Step(c, op).ledger.finalized == c.ledger.finalized + [op.h]
  {
  }

  /** A slot is handed to a new path only when the old one's transport was finalised and xquic has
      none of its paths; every other slot is untouched and the new handle was never used. */
  lemma RecycledOnlyWhenSettled(multipath: bool, ops: seq<Op>, i: nat)
    requires i < |Run(Init(multipath), ops).slots|
    ensures var c := Run(Init(multipath), ops); var c' := Step(c, AddPath); var s := c.slots[i];
            && i < |c'.slots|
            && (c'.slots[i] != s ==>
                  s.state == ClosedFree && s.handle in c.ledger.finalized && !s.path.live
                  && c'.slots[i].handle == c.nextHandle && c.nextHandle !in c.ledger.finalized)
  {
    InitInv(multipath);
    RunKeeps(Init(multipath), ops);
    var c := Run(Init(multipath), ops);
    assert Legal(c.slots[i]);
    if c.slots[i].state == ClosedFree { SettledHandle(c, i); }
  }

  lemma SettledHandle(c: Table, i: nat)
    requires Inv(c) && i < |c.slots| && c.slots[i].io.released
    ensures c.slots[i].handle in c.ledger.finalized
  {
    assert !Owed(c.slots, c.slots[i].handle);
  }

  /** A late or repeated platform call on a handle that was finalised, or never issued, changes nothing. */
  lemma SettledHandleHarmless(multipath: bool, ops: seq<Op>, op: Op)
    requires op.DropPath? || op.RemovePath? || op.Release? || op.Reactivate?
    requires var c := Run(Init(multipath), ops); op.h < 1 || op.h >= c.nextHandle || op.h in c.ledger.finalized
    ensures Step(Run(Init(multipath), ops), op) == Run(Init(multipath), ops)
  {
    InitInv(multipath);
    RunKeeps(Init(multipath), ops);
    var c := Run(Init(multipath), ops);
    var i := ByHandle(c.slots, op.h);
    if i < |c.slots| {
      var s := c.slots[i];
      assert s.io.released || Owed(c.slots, s.handle);
      assert Legal(s);
      assert OnEvent(s, Drop) == s;
      assert c.slots[i := s] == c.slots;
    }
  }

  /** While connected: xquic's paths are exactly the live slots' ids (and an unowned path 0 only when
      the connection was started with an empty table), each owned by one slot. */
  lemma AliveExactly(multipath: bool, ops: seq<Op>, id: nat)
    requires Run(Init(multipath), ops).phase.Up?
    ensures var c := Run(Init(multipath), ops); var link := c.phase.link;
            && (id in link.alive <==> Owned(c.slots, id) || (link.strayRoot && id == 0))
            && !(Owned(c.slots, id) && link.strayRoot && id == 0)
            && (forall i, j :: 0 <= i < |c.slots| && 0 <= j < |c.slots| && Owns(c.slots[i], id) && Owns(c.slots[j], id) ==> i == j)
  {
    InitInv(multipath);
    RunKeeps(Init(multipath), ops);
    var c := Run(Init(multipath), ops);
    if Owned(c.slots, id) {
      var j :| 0 <= j < |c.slots| && Owns(c.slots[j], id);
      assert c.slots[j].path.live;
    }
    forall i, j | 0 <= i < |c.slots| && 0 <= j < |c.slots| && Owns(c.slots[i], id) && Owns(c.slots[j], id) ensures i == j {
      assert c.slots[i].path.live && c.slots[j].path.live;
    }
  }

  /** A path-removed notification reaches the one slot that owns the path, takes the path from it,
      and leaves every other slot alone. */
  lemma RemovalReachesOwner(multipath: bool, ops: seq<Op>, i: nat, id: nat, now: nat)
    requires var c := Run(Init(multipath), ops); c.phase.Up? && i < |c.slots| && Owns(c.slots[i], id)
    ensures var c := Run(Init(multipath), ops); var c' := Step(c, PathRemoved(id, now));
            && |c'.slots| == |c.slots|
            && !c'.slots[i].path.live && c'.slots[i].handle == c.slots[i].handle
            && (forall j :: 0 <= j < |c.slots| && j != i ==> c'.slots[j] == c.slots[j])
            && c'.phase.Up? && c'.phase.link.alive == c.phase.link.alive - {id}
  {
    InitInv(multipath);
    RunKeeps(Init(multipath), ops);
    var c := Run(Init(multipath), ops);
    AliveExactly(multipath, ops, id);
    assert ByPathId(c.slots, id) == i;
    assert Legal(c.slots[i]);
  }

  /** Telemetry is conserved: what the transports counted is what was harvested, what an unreadable
      counter left behind, and what the unfinalised transports still hold. */
  lemma TelemetryConserved(multipath: bool, ops: seq<Op>)
    ensures var c := Run(Init(multipath), ops); c.ledger.sent == c.ledger.retired + c.ledger.unread + Owing(c.slots)
    ensures var c := Run(Init(multipath), ops); c.phase.Gone? ==> c.ledger.sent == c.ledger.retired + c.ledger.unread
  {
    InitInv(multipath);
    RunKeeps(Init(multipath), ops);
  }

  /** A connection attempt starts from a table without remains of the last one: every attached slot is
      PENDING, and no slot has a path. */
  lemma StartsClean(multipath: bool, ops: seq<Op>, i: nat)
    requires var c := Run(Init(multipath), ops); (c.phase.Ready? || c.phase.Idle?) && i < |c.slots|
    ensures var s := Run(Init(multipath), ops).slots[i];
            !s.path.live && (s.io.attached <==> s.state == Pending) && s.timers.retryAt == 0 && s.timers.stableSince == 0
  {
    InitInv(multipath);
    RunKeeps(Init(multipath), ops);
    var c := Run(Init(multipath), ops);
    assert Legal(c.slots[i]) && Quiet(c.slots[i]);
  }

  // ---- retries ----

  predicate AllHopeful(slots: seq<Slot>) { forall i {:trigger slots[i]} :: 0 <= i < |slots| ==> Hopeful(slots[i]) }

  lemma PutHopeful(slots: seq<Slot>, i: nat, e: Event)
    requires AllHopeful(slots) && i < |slots| && (e.ConnReset? ==> Legal(slots[i]))
    ensures AllHopeful(slots[i := OnEvent(slots[i], e)])
  {
    hide OnEvent;
    EventKeepsHopeful(slots[i], e);
  }

  lemma HandleHopeful(c: Table, op: Op)
    requires AllHopeful(c.slots) && (op.DropPath? || op.RemovePath? || op.Release? || op.Reactivate?)
    ensures AllHopeful(OnHandle(c, op).slots)
  {
    hide OnEvent, AllHopeful;
    var i := ByHandle(c.slots, op.h);
    if i < |c.slots| {
      PutHopeful(c.slots, i, Drop);
      if op.Reactivate? { PutHopeful(c.slots, i, ManualReactivate(op.r)); }
      if op.Release? { ReleaseHopeful(c.slots, i); }
    }
  }

  lemma ReleaseHopeful(slots: seq<Slot>, i: nat)
    requires AllHopeful(slots) && i < |slots|
    ensures AllHopeful(slots[i := OnEvent(Finalized(slots[i]), TransportReleased)])
  {
    hide OnEvent;
    EventKeepsHopeful(Finalized(slots[i]), TransportReleased);
  }

  lemma SlotHopeful(c: Table, op: Op)
    requires AllHopeful(c.slots) && (op.Activate? || op.Retry? || op.Validated?)
    ensures AllHopeful(OnSlot(c, op).slots)
  {
    hide OnEvent, AllHopeful;
    if op.i < |c.slots| {
      match op {
        case Activate(i, r, now) => PutHopeful(c.slots, i, ActivateRequested(r, now));
        case Retry(i, r, now) => PutHopeful(c.slots, i, RetryTimer(r, now));
        case Validated(i, standby, now) => PutHopeful(c.slots, i, ValidationOk(standby, now));
      }
    }
  }

  lemma StepHopeful(c: Table, op: Op)
    requires AllHopeful(c.slots) && AllLegal(c.slots)
    ensures AllHopeful(Step(c, op).slots)
  {
    hide OnEvent, OnHandle, Rotated, FinalizeUpTo, NewSlot;
    match op {
      case AddPath => NewHopeful(c.nextHandle);
      case DropPath(_) => HandleHopeful(c, op);
      case RemovePath(_) => HandleHopeful(c, op);
      case Release(_, _) => HandleHopeful(c, op);
      case Reactivate(_, _) => HandleHopeful(c, op);
      case Activate(_, _, _) => SlotHopeful(c, op);
      case Retry(_, _, _) => SlotHopeful(c, op);
      case Validated(_, _, _) => SlotHopeful(c, op);
      case PathRemoved(id, now) =>
        var i := ByPathId(c.slots, id);
        if i < |c.slots| { PutHopeful(c.slots, i, XquicRemoved(now)); }
      case ResetNext =>
        if c.phase.Resetting? && c.phase.at < |c.slots| {
          assert Legal(c.slots[c.phase.at]);
          PutHopeful(c.slots, c.phase.at, ConnReset);
        }
      case _ =>
    }
  }

  lemma NewHopeful(h: nat)
    ensures Hopeful(NewSlot(h))
  {
  }

  /** In every run, a slot that waits to try again has a timer armed, has failed at least once since it
      was last reset or stable, and fewer than MAX_RETRIES times: the last failure closes it. */
  lemma WaitingHasRetriesLeft(multipath: bool, ops: seq<Op>, i: nat)
    requires var c := Run(Init(multipath), ops); i < |c.slots| && (c.slots[i].state == CreateWait || c.slots[i].state == Degraded)
    ensures var s := Run(Init(multipath), ops).slots[i]; s.timers.retryAt != 0 && 1 <= s.timers.retries < MAX_RETRIES
  {
    InitInv(multipath);
    RunKeeps(Init(multipath), ops);
    RunHopeful(Init(multipath), ops);
    assert Legal(Run(Init(multipath), ops).slots[i]);
  }

  lemma {:induction false} RunHopeful(c: Table, ops: seq<Op>)
    requires AllHopeful(c.slots) && Inv(c)
    ensures AllHopeful(Run(c, ops).slots)
    decreases ops
  {
    hide Step, AllHopeful;
    if ops != [] {
      StepHopeful(c, ops[0]);
      StepKeeps(c, ops[0]);
      RunHopeful(Step(c, ops[0]), ops[1..]);
    }
  }

  // ---- primary rotation ----

  /** The next primary is the first candidate after the current one in cyclic order, the current one
      last; it is unchanged exactly when no other slot is a candidate. */
  lemma {:induction false} NextPrimaryFirst(slots: seq<Slot>, from: nat, k: nat)
    requires from < |slots| && 1 <= k <= |slots| + 1
    ensures var p := NextPrimary(slots, from, k);
            (exists m :: k <= m <= |slots| && FirstAt(slots, from, k, m) && p == Ahead(|slots|, from, m))
            || (p == from && NoneBetween(slots, from, k, |slots| + 1))
    decreases |slots| + 1 - k
  {
    if k <= |slots| {
      if Candidate(slots[Ahead(|slots|, from, k)]) {
        assert FirstAt(slots, from, k, k);
      } else {
        NextPrimaryFirst(slots, from, k + 1);
        var p := NextPrimary(slots, from, k + 1);
        if m :| k + 1 <= m <= |slots| && FirstAt(slots, from, k + 1, m) && p == Ahead(|slots|, from, m) {
          assert FirstAt(slots, from, k, m);
        }
      }
    }
  }

  predicate NoneBetween(slots: seq<Slot>, from: nat, k: nat, m: nat)
    requires from < |slots|
  {
    forall d {:trigger Ahead(|slots|, from, d)} :: k <= d < m ==> !Candidate(slots[Ahead(|slots|, from, d)])
  }

  predicate FirstAt(slots: seq<Slot>, from: nat, k: nat, m: nat)
    requires from < |slots|
  {
    Candidate(slots[Ahead(|slots|, from, m)]) && NoneBetween(slots, from, k, m)
  }

  /** A reset leaves the primary exactly when no other slot could take over. */
  lemma RotationMoves(slots: seq<Slot>, from: nat)
    requires from < |slots|
    ensures Rotated(slots, from) == from <==> forall i :: 0 <= i < |slots| && i != from ==> !Candidate(slots[i])
  {
    var n := |slots|;
    NextPrimaryFirst(slots, from, 1);
    var p := Rotated(slots, from);
    forall k: nat {:trigger Ahead(n, from, k)} | k <= n ensures Ahead(n, from, k) == if from + k < n then from + k else from + k - n { AheadIs(n, from, k); }
    if p == from {
      forall i | 0 <= i < n && i != from ensures !Candidate(slots[i]) {
        var k: nat := if i > from then i - from else i - from + n;
        assert Ahead(n, from, k) == i;
      }
    } else {
      assert Candidate(slots[p]);
    }
  }
}

/**
 What every run of the path table keeps: each transport is finalised exactly
 once, live path ids name one slot each, telemetry is conserved, and handles
 that are no longer owed anything are harmless.
 */
module PathSafety {
  import opened PathFsm
  import opened PathTable

  // ---- invariants ----

  predicate Handles(slots: seq<Slot>, nextHandle: nat) {
    && (forall i {:trigger slots[i].handle} :: 0 <= i < |slots| ==> 1 <= slots[i].handle < nextHandle)
    && (forall i, j {:trigger slots[i].handle, slots[j].handle} :: 0 <= i < j < |slots| ==> slots[i].handle != slots[j].handle)
  }

  predicate AllLegal(slots: seq<Slot>) { forall i {:trigger Legal(slots[i])} :: 0 <= i < |slots| ==> Legal(slots[i]) }

  predicate Owed(slots: seq<Slot>, h: nat) {
    exists i {:trigger slots[i].handle} :: 0 <= i < |slots| && slots[i].handle == h && !slots[i].io.released
  }

  predicate NoRepeat(q: seq<nat>) { forall i, j {:trigger q[i], q[j]} :: 0 <= i < j < |q| ==> q[i] != q[j] }

  /** The finalised handles are issued, never repeated, and exactly those no slot owes a release. */
  predicate Accounts(slots: seq<Slot>, nextHandle: nat, done: seq<nat>) {
    && NoRepeat(done)
    && (forall h {:trigger h in done} :: h in done ==> 1 <= h < nextHandle && !Owed(slots, h))
    && (forall h {:trigger Owed(slots, h)} :: 1 <= h < nextHandle && !Owed(slots, h) ==> h in done)
  }

  /** Telemetry still held by transports that were not finalised. */
  function Owing(slots: seq<Slot>): nat {
    if slots == [] then 0
    else Owing(slots[..|slots| - 1]) + (if slots[|slots| - 1].io.released then 0 else slots[|slots| - 1].io.tx)
  }

  predicate Conserved(slots: seq<Slot>, l: Ledger) { l.sent == l.retired + l.unread + Owing(slots) }

  predicate Owns(s: Slot, id: nat) { s.path == Binding(true, id) }

  predicate OneOwner(slots: seq<Slot>) {
    forall i, j {:trigger slots[i].path, slots[j].path} :: 0 <= i < j < |slots| && slots[i].path.live && slots[j].path.live ==> slots[i].path.id != slots[j].path.id
  }

  predicate Owned(slots: seq<Slot>, id: nat) { exists i {:trigger slots[i].path} :: 0 <= i < |slots| && Owns(slots[i], id) }

  /** Nothing of any connection is left in the slot. */
  predicate Quiet(s: Slot) { !s.path.live && (s.state == Pending || s.state == ClosedDropped || s.state == ClosedFree) }

  predicate QuietBelow(slots: seq<Slot>, n: nat) { forall i {:trigger Quiet(slots[i])} :: 0 <= i < |slots| && i < n ==> Quiet(slots[i]) }

  /** While a connection is up, xquic's paths are exactly the slots' live ids, plus a path 0 that no
      slot owns when the connection was started with an empty table. */
  predicate LinkOk(slots: seq<Slot>, link: Link) {
    && (forall id {:trigger id in link.alive} :: id in link.alive ==> Owned(slots, id) || (link.strayRoot && id == 0))
    && (forall i {:trigger slots[i].path} :: 0 <= i < |slots| && slots[i].path.live ==> slots[i].path.id in link.alive)
    && (link.strayRoot ==> 0 in link.alive && !Owned(slots, 0))
  }

  predicate PhaseOk(slots: seq<Slot>, phase: Phase) {
    match phase
    case Idle => QuietBelow(slots, |slots|)
    case Ready => QuietBelow(slots, |slots|)
    case Resetting(at) => QuietBelow(slots, at)
    case Up(link) => LinkOk(slots, link)
    case Down => true
    case Gone => slots == []
  }

  predicate Inv(c: Table) {
    && |c.slots| <= MAX_PATHS
    && c.nextHandle >= 1
    && (c.primary < |c.slots| || (c.slots == [] && (c.primary == 0 || c.phase.Gone?)))
    && AllLegal(c.slots)
    && Handles(c.slots, c.nextHandle)
    && Accounts(c.slots, c.nextHandle, c.ledger.finalized)
    && Conserved(c.slots, c.ledger)
    && OneOwner(c.slots)
    && PhaseOk(c.slots, c.phase)
  }

  // ---- sums ----

  lemma {:induction false} OwingPut(slots: seq<Slot>, i: nat, s: Slot)
    requires i < |slots|
    ensures Owing(slots[i := s]) + (if slots[i].io.released then 0 else slots[i].io.tx)
         == Owing(slots) + (if s.io.released then 0 else s.io.tx)
    decreases |slots|
  {
    var n := |slots| - 1;
    if i == n {
      assert slots[i := s][..n] == slots[..n];
    } else {
      assert slots[i := s][..n] == slots[..n][i := s];
      OwingPut(slots[..n], i, s);
    }
  }

  lemma OwingAppend(slots: seq<Slot>, s: Slot)
    ensures Owing(slots + [s]) == Owing(slots) + (if s.io.released then 0 else s.io.tx)
  {
    assert (slots + [s])[..|slots|] == slots;
  }

  // ---- one slot replaced by another with the same handle and the same debt ----

  predicate SameDebt(s: Slot, t: Slot) { t.handle == s.handle && t.io.released == s.io.released && t.io.tx == s.io.tx }

  lemma PutKeepsAccounts(slots: seq<Slot>, i: nat, t: Slot, nextHandle: nat, done: seq<nat>)
    requires i < |slots| && Handles(slots, nextHandle) && Accounts(slots, nextHandle, done)
    requires t.handle == slots[i].handle && t.io.released == slots[i].io.released
    ensures Handles(slots[i := t], nextHandle) && Accounts(slots[i := t], nextHandle, done)
  {
    var after := slots[i := t];
    forall h: nat
      ensures Owed(after, h) == Owed(slots, h)
    {
      if Owed(after, h) {
        var j :| 0 <= j < |after| && after[j].handle == h && !after[j].io.released;
        assert slots[j].handle == h;
      }
      if Owed(slots, h) {
        var j :| 0 <= j < |slots| && slots[j].handle == h && !slots[j].io.released;
        assert after[j].handle == h;
      }
    }
  }

  lemma PutKeepsLegal(slots: seq<Slot>, i: nat, t: Slot)
    requires i < |slots| && AllLegal(slots) && Legal(t)
    ensures AllLegal(slots[i := t])
  {
    var after := slots[i := t];
    forall j | 0 <= j < |after| ensures Legal(after[j]) { assert j == i || Legal(slots[j]); }
  }

  // ---- ids: a slot keeps its path, loses it, or gains a fresh one ----

  lemma PutSamePath(slots: seq<Slot>, i: nat, t: Slot, phase: Phase)
    requires i < |slots| && OneOwner(slots) && PhaseOk(slots, phase) && !phase.Gone?
    requires t.path == slots[i].path && (Quiet(slots[i]) ==> Quiet(t))
    ensures OneOwner(slots[i := t]) && PhaseOk(slots[i := t], phase)
  {
    var after := slots[i := t];
    forall id: nat ensures Owned(after, id) == Owned(slots, id) { SameOwners(slots, i, t, id); }
    forall j | 0 <= j < |slots| && Quiet(slots[j]) ensures Quiet(after[j]) {}
  }

  lemma SameOwners(slots: seq<Slot>, i: nat, t: Slot, id: nat)
    requires i < |slots| && t.path == slots[i].path
    ensures Owned(slots[i := t], id) == Owned(slots, id)
  {
    var after := slots[i := t];
    forall j | 0 <= j < |slots| ensures after[j].path == slots[j].path {}
    if Owned(after, id) {
      var j :| 0 <= j < |after| && Owns(after[j], id);
      assert slots[j].path == after[j].path;
    }
    if Owned(slots, id) {
      var j :| 0 <= j < |slots| && Owns(slots[j], id);
      assert slots[j].path == after[j].path;
    }
  }

  /** Slot i loses its path, and xquic loses it too. */
  lemma PutUnbound(slots: seq<Slot>, i: nat, t: Slot, link: Link)
    requires i < |slots| && OneOwner(slots) && LinkOk(slots, link)
    requires slots[i].path.live && !t.path.live
    ensures var id := slots[i].path.id; var after := slots[i := t];
            OneOwner(after) && LinkOk(after, link.(alive := link.alive - {id}, strayRoot := link.strayRoot && id != 0))
  {
    var id := slots[i].path.id;
    var after := slots[i := t];
    var link' := link.(alive := link.alive - {id}, strayRoot := link.strayRoot && id != 0);
    assert Owned(slots, id) by { assert Owns(slots[i], id); }
    forall k | k in link'.alive ensures Owned(after, k) || (link'.strayRoot && k == 0) {
      assert k in link.alive;
      if Owned(slots, k) {
        var j :| 0 <= j < |slots| && Owns(slots[j], k);
        assert j != i;
        assert Owns(after[j], k) && after[j].path == slots[j].path;
      }
    }
    forall j | 0 <= j < |after| && after[j].path.live ensures after[j].path.id in link'.alive {
      assert j != i && after[j].path == slots[j].path;
    }
  }

  /** Slot i gains a path xquic did not have. */
  lemma PutBound(slots: seq<Slot>, i: nat, t: Slot, link: Link, id: nat)
    requires i < |slots| && OneOwner(slots) && LinkOk(slots, link)
    requires !slots[i].path.live && t.path == Binding(true, id) && id !in link.alive
    ensures OneOwner(slots[i := t]) && LinkOk(slots[i := t], link.(alive := link.alive + {id}))
  {
    var after := slots[i := t];
    var link' := link.(alive := link.alive + {id});
    forall k | k in link'.alive ensures Owned(after, k) || (link'.strayRoot && k == 0) {
      if k == id {
        assert Owns(after[i], id);
      } else if Owned(slots, k) {
        var j :| 0 <= j < |slots| && Owns(slots[j], k);
        assert Owns(after[j], k) && after[j].path == slots[j].path;
      }
    }
    forall j | 0 <= j < |after| && after[j].path.live ensures after[j].path.id in link'.alive {
      if j != i { assert after[j].path == slots[j].path; }
    }
    forall p, q | 0 <= p < q < |after| && after[p].path.live && after[q].path.live ensures after[p].path.id != after[q].path.id {
      if p != i { assert after[p].path == slots[p].path; }
      if q != i { assert after[q].path == slots[q].path; }
    }
  }

  // ---- steps ----

  lemma SlotStepKeeps(c: Table, i: nat, t: Slot)
    requires Inv(c) && !c.phase.Gone? && i < |c.slots|
    requires Legal(t) && SameDebt(c.slots[i], t)
    requires t.path == c.slots[i].path && (Quiet(c.slots[i]) ==> Quiet(t))
    ensures Inv(Put(c, i, t))
  {
    PutKeepsLegal(c.slots, i, t);
    PutKeepsAccounts(c.slots, i, t, c.nextHandle, c.ledger.finalized);
    PutSamePath(c.slots, i, t, c.phase);
    OwingPut(c.slots, i, t);
  }

  /** A path request: on success the slot owns the new path, otherwise it has none. */
  lemma RequestKeeps(c: Table, i: nat, r: Result, e: Event)
    requires Inv(c) && c.phase.Up? && i < |c.slots| && Answers(r, c.phase.link)
    requires var s := c.slots[i]; var t := OnEvent(s, e);
             Bare(e) && !s.path.live && SameDebt(s, t) && (if r.Created? then Owns(t, r.id) else !t.path.live)
    ensures Inv(Request(c, i, r, e))
  {
    var s := c.slots[i];
    var t := OnEvent(s, e);
    assert Legal(t) by { assert Legal(s); EventKeepsLegal(s, e); }
    PutKeepsLegal(c.slots, i, t);
    PutKeepsAccounts(c.slots, i, t, c.nextHandle, c.ledger.finalized);
    OwingPut(c.slots, i, t);
    if r.Created? {
      PutBound(c.slots, i, t, c.phase.link, r.id);
    } else {
      PutStillUnbound(c.slots, i, t, c.phase.link);
    }
  }

  lemma PutStillUnbound(slots: seq<Slot>, i: nat, t: Slot, link: Link)
    requires i < |slots| && OneOwner(slots) && LinkOk(slots, link)
    requires !slots[i].path.live && !t.path.live
    ensures OneOwner(slots[i := t]) && LinkOk(slots[i := t], link)
  {
    var after := slots[i := t];
    forall k: nat {:trigger Owned(after, k)} ensures Owned(after, k) == Owned(slots, k) {
      if Owned(after, k) {
        var j :| 0 <= j < |after| && Owns(after[j], k);
        assert slots[j].path == after[j].path;
      }
      if Owned(slots, k) {
        var j :| 0 <= j < |slots| && Owns(slots[j], k);
        assert slots[j].path == after[j].path;
      }
    }
    forall j | 0 <= j < |after| && after[j].path.live ensures after[j].path.id in link.alive {
      assert after[j].path == slots[j].path;
    }
  }

  lemma OnSlotKeeps(c: Table, op: Op)
    requires Inv(c) && !c.phase.Gone?
    requires op.Activate? || op.Retry? || op.Validated? || op.ConfirmTick? || op.TransportSent?
    ensures Inv(OnSlot(c, op))
  {
    hide Inv;
    if op.i < |c.slots| {
      var s := c.slots[op.i];
      assert Legal(s) by { LegalAt(c, op.i); }
      match op
      case Activate(i, r, now) =>
        if MayActivate(c) && Answers(r, c.phase.link) && s.state == Pending && !s.path.live {
          RequestKeeps(c, i, r, ActivateRequested(r, now));
        }
      case Retry(i, r, now) =>
        if Established(c) && Answers(r, c.phase.link) && RetryDue(s, now) {
          RequestKeeps(c, i, r, RetryTimer(r, now));
        }
      case Validated(i, standby, now) =>
        EventKeepsLegal(s, ValidationOk(standby, now));
        SlotStepKeeps(c, i, OnEvent(s, ValidationOk(standby, now)));
      case ConfirmTick(i, now) =>
        StableKeepsLegal(s, now);
        SlotStepKeeps(c, i, ConfirmStable(s, now));
      case TransportSent(i, n) =>
        if s.io.installed { SentKeeps(c, i, n); }
    }
  }

  lemma LegalAt(c: Table, i: nat)
    requires Inv(c) && i < |c.slots|
    ensures Legal(c.slots[i])
  {
  }

  lemma SentKeeps(c: Table, i: nat, n: nat)
    requires Inv(c) && !c.phase.Gone? && i < |c.slots| && c.slots[i].io.installed
    ensures Inv(OnSlot(c, TransportSent(i, n)))
  {
    hide Handles, Accounts, OneOwner, PhaseOk;
    var s := c.slots[i];
    var t := s.(io := s.io.(tx := s.io.tx + n));
    assert Legal(s);
    PutKeepsLegal(c.slots, i, t);
    PutKeepsAccounts(c.slots, i, t, c.nextHandle, c.ledger.finalized);
    PutSamePath(c.slots, i, t, c.phase);
    OwingPut(c.slots, i, t);
  }

  lemma DroppedKeeps(c: Table, h: int)
    requires Inv(c) && !c.phase.Gone?
    ensures Inv(Dropped(c, h))
  {
    var i := ByHandle(c.slots, h);
    if i < |c.slots| {
      assert Legal(c.slots[i]);
      EventKeepsLegal(c.slots[i], Drop);
      SlotStepKeeps(c, i, OnEvent(c.slots[i], Drop));
    }
  }

  /** Slot i is finalised: its handle joins the finalised ones and it owes nothing any more. */
  lemma FinalizeAccounts(slots: seq<Slot>, i: nat, t: Slot, nextHandle: nat, done: seq<nat>)
    requires i < |slots| && Handles(slots, nextHandle) && Accounts(slots, nextHandle, done)
    requires !slots[i].io.released && t.io.released && t.handle == slots[i].handle
    ensures Handles(slots[i := t], nextHandle) && Accounts(slots[i := t], nextHandle, done + [t.handle])
  {
    var after, done' := slots[i := t], done + [t.handle];
    assert Owed(slots, t.handle) by { assert slots[i].handle == t.handle; }
    forall h: nat {:trigger Owed(after, h)} ensures Owed(after, h) == (Owed(slots, h) && h != t.handle) {
      if Owed(after, h) {
        var j :| 0 <= j < |after| && after[j].handle == h && !after[j].io.released;
        assert slots[j].handle == h;
      }
      if Owed(slots, h) && h != t.handle {
        var j :| 0 <= j < |slots| && slots[j].handle == h && !slots[j].io.released;
        assert after[j].handle == h;
      }
    }
    forall h | h in done' ensures 1 <= h < nextHandle && !Owed(after, h) {
      assert h in done || h == t.handle;
    }
    forall p, q | 0 <= p < q < |done'| ensures done'[p] != done'[q] {
      assert done[p] in done;
    }
    forall h | 1 <= h < nextHandle && !Owed(after, h) ensures h in done' {
      assert Owed(slots, h) || h in done;
    }
  }

  lemma ReleasedKeeps(c: Table, h: int, readable: bool)
    requires Inv(c) && !c.phase.Gone?
    ensures Inv(ReleasedBy(c, h, readable))
  {
    var i := ByHandle(c.slots, h);
    if i < |c.slots| {
      var s := c.slots[i];
      assert Legal(s);
      if s.state == ClosedDropped && !s.io.released {
        var t := OnEvent(Finalized(s), TransportReleased);
        ReleasedIsLegal(s);
        PutKeepsLegal(c.slots, i, t);
        FinalizeAccounts(c.slots, i, t, c.nextHandle, c.ledger.finalized);
        PutSamePath(c.slots, i, t, c.phase);
        OwingPut(c.slots, i, t);
      }
    }
  }

  lemma OnHandleKeeps(c: Table, op: Op)
    requires Inv(c) && !c.phase.Gone?
    requires op.DropPath? || op.RemovePath? || op.Release? || op.Reactivate?
    ensures Inv(OnHandle(c, op))
  {
    hide Inv;
    match op
    case DropPath(h) => DroppedKeeps(c, h);
    case RemovePath(h) => DroppedKeeps(c, h);
    case Release(h, readable) => ReleasedKeeps(c, h, readable);
    case Reactivate(h, r) =>
      var i := ByHandle(c.slots, h);
      if Established(c) && Answers(r, c.phase.link) && i < |c.slots| && Eligible(c.slots[i]) {
        RequestKeeps(c, i, r, ManualReactivate(r));
      }
  }

  // ---- a new slot ----

  lemma ReuseAccounts(slots: seq<Slot>, i: nat, t: Slot, nextHandle: nat, done: seq<nat>)
    requires i < |slots| && nextHandle >= 1 && Handles(slots, nextHandle) && Accounts(slots, nextHandle, done)
    requires slots[i].io.released && t.handle == nextHandle && !t.io.released
    ensures Handles(slots[i := t], nextHandle + 1) && Accounts(slots[i := t], nextHandle + 1, done)
  {
    var after := slots[i := t];
    assert Owed(after, nextHandle) by { assert after[i].handle == nextHandle; }
    forall h: nat {:trigger Owed(after, h)} | h < nextHandle ensures Owed(after, h) == Owed(slots, h) {
      if Owed(after, h) {
        var j :| 0 <= j < |after| && after[j].handle == h && !after[j].io.released;
        assert slots[j].handle == h;
      }
      if Owed(slots, h) {
        var j :| 0 <= j < |slots| && slots[j].handle == h && !slots[j].io.released;
        assert after[j].handle == h;
      }
    }
    forall h | 1 <= h < nextHandle + 1 && !Owed(after, h) ensures h in done {
      assert h < nextHandle && !Owed(slots, h);
    }
  }

  lemma AppendAccounts(slots: seq<Slot>, t: Slot, nextHandle: nat, done: seq<nat>)
    requires nextHandle >= 1 && Handles(slots, nextHandle) && Accounts(slots, nextHandle, done)
    requires t.handle == nextHandle && !t.io.released
    ensures Handles(slots + [t], nextHandle + 1) && Accounts(slots + [t], nextHandle + 1, done)
  {
    var after := slots + [t];
    assert Owed(after, nextHandle) by { assert after[|slots|].handle == nextHandle; }
    forall h: nat {:trigger Owed(after, h)} | h < nextHandle ensures Owed(after, h) == Owed(slots, h) {
      if Owed(after, h) {
        var j :| 0 <= j < |after| && after[j].handle == h && !after[j].io.released;
        assert slots[j].handle == h;
      }
      if Owed(slots, h) {
        var j :| 0 <= j < |slots| && slots[j].handle == h && !slots[j].io.released;
        assert after[j].handle == h;
      }
    }
    forall h | 1 <= h < nextHandle + 1 && !Owed(after, h) ensures h in done {
      assert h < nextHandle && !Owed(slots, h);
    }
  }

  lemma AppendPhase(slots: seq<Slot>, t: Slot, phase: Phase)
    requires OneOwner(slots) && PhaseOk(slots, phase) && !phase.Gone? && Quiet(t)
    ensures OneOwner(slots + [t]) && PhaseOk(slots + [t], phase)
  {
    var after := slots + [t];
    forall k: nat {:trigger Owned(after, k)} ensures Owned(after, k) == Owned(slots, k) {
      if Owned(after, k) {
        var j :| 0 <= j < |after| && Owns(after[j], k);
        assert slots[j].path == after[j].path;
      }
      if Owned(slots, k) {
        var j :| 0 <= j < |slots| && Owns(slots[j], k);
        assert after[j].path == slots[j].path;
      }
    }
    forall j | 0 <= j < |slots| && Quiet(slots[j]) ensures Quiet(after[j]) {}
  }

  lemma AddedKeeps(c: Table)
    requires Inv(c) && !c.phase.Gone?
    ensures Inv(Added(c))
  {
    hide Handles, Accounts, OneOwner, PhaseOk;
    var i := FirstFree(c.slots);
    var t := NewSlot(c.nextHandle);
    AddedIsLegal(c.nextHandle);
    if i < |c.slots| {
      assert Legal(c.slots[i]);
      PutKeepsLegal(c.slots, i, t);
      ReuseAccounts(c.slots, i, t, c.nextHandle, c.ledger.finalized);
      PutSamePath(c.slots, i, t, c.phase);
      OwingPut(c.slots, i, t);
    } else if |c.slots| < MAX_PATHS {
      AppendAccounts(c.slots, t, c.nextHandle, c.ledger.finalized);
      AppendPhase(c.slots, t, c.phase);
      OwingAppend(c.slots, t);
      var after := c.slots + [t];
      forall j | 0 <= j < |after| ensures Legal(after[j]) { assert j == |c.slots| || Legal(c.slots[j]); }
    }
  }

  // ---- the connection ----

  lemma UnboundKeeps(c: Table, id: nat, now: nat)
    requires Inv(c) && c.phase.Up? && id in c.phase.link.alive
    ensures Inv(Unbound(c, id, now))
  {
    hide Handles, Accounts, OneOwner;
    var i := ByPathId(c.slots, id);
    if i < |c.slots| {
      var s := c.slots[i];
      var t := OnEvent(s, XquicRemoved(now));
      assert Legal(s);
      EventKeepsLegal(s, XquicRemoved(now));
      PutKeepsLegal(c.slots, i, t);
      PutKeepsAccounts(c.slots, i, t, c.nextHandle, c.ledger.finalized);
      PutUnbound(c.slots, i, t, c.phase.link);
      OwingPut(c.slots, i, t);
    } else {
      assert !Owned(c.slots, id);
    }
  }

  lemma QuietLink(slots: seq<Slot>)
    requires QuietBelow(slots, |slots|)
    ensures OneOwner(slots) && LinkOk(slots, Link({}, false, false, false, false))
  {
    forall j | 0 <= j < |slots| ensures !slots[j].path.live { assert Quiet(slots[j]); }
  }

  lemma StartedKeeps(c: Table, granted: bool)
    requires Inv(c) && (c.phase.Idle? || c.phase.Ready?)
    ensures Inv(Started(c, granted))
  {
    hide Handles, Accounts, OneOwner;
    QuietLink(c.slots);
    if c.primary < |c.slots| {
      var s := c.slots[c.primary];
      assert Legal(s) && Quiet(s);
      if s.io.attached && granted {
        var t := s.(state := Validating, path := Binding(true, 0));
        PutKeepsLegal(c.slots, c.primary, t);
        PutKeepsAccounts(c.slots, c.primary, t, c.nextHandle, c.ledger.finalized);
        PutBound(c.slots, c.primary, t, Link({}, false, false, false, false), 0);
        OwingPut(c.slots, c.primary, t);
      }
    }
  }

  lemma ResetNextKeeps(c: Table)
    requires Inv(c) && c.phase.Resetting? && c.phase.at < |c.slots|
    ensures Inv(OnLink(c, ResetNext))
  {
    hide Handles, Accounts;
    var i := c.phase.at;
    var s := c.slots[i];
    var t := OnEvent(s, ConnReset);
    assert Legal(s);
    EventKeepsLegal(s, ConnReset);
    PutKeepsLegal(c.slots, i, t);
    PutKeepsAccounts(c.slots, i, t, c.nextHandle, c.ledger.finalized);
    OwingPut(c.slots, i, t);
    var after := c.slots[i := t];
    forall j | 0 <= j < |after| && j < i + 1 ensures Quiet(after[j]) { assert j == i || Quiet(c.slots[j]); }
  }

  lemma {:induction false} NextPrimaryInTable(slots: seq<Slot>, from: nat, k: nat)
    requires slots != [] && 1 <= k <= |slots| + 1 && from < |slots|
    ensures NextPrimary(slots, from, k) < |slots|
    decreases |slots| + 1 - k
  {
    if k <= |slots| && !Candidate(slots[Ahead(|slots|, from, k)]) { NextPrimaryInTable(slots, from, k + 1); }
  }

  lemma {:induction false} AheadIs(n: nat, from: nat, k: nat)
    requires from < n && k <= n
    ensures Ahead(n, from, k) == if from + k < n then from + k else from + k - n
    decreases k
  {
    if k > 0 { AheadIs(n, from, k - 1); }
  }

  // ---- destroy ----

  lemma {:induction false} FinalizeUpToAccounts(slots: seq<Slot>, k: nat, nextHandle: nat, l: Ledger, read: set<nat>)
    requires k <= |slots| && Handles(slots, nextHandle) && Accounts(slots, nextHandle, l.finalized) && Conserved(slots, l)
    ensures var l' := FinalizeUpTo(slots, k, l, read);
            NoRepeat(l'.finalized)
            && (forall h :: h in l'.finalized <==> h in l.finalized || Owed(slots[..k], h))
            && l'.sent == l.sent
            && l'.retired + l'.unread == l.retired + l.unread + Owing(slots[..k])
    decreases k
  {
    if k > 0 {
      var before := FinalizeUpTo(slots, k - 1, l, read);
      var s := slots[k - 1];
      FinalizeUpToAccounts(slots, k - 1, nextHandle, l, read);
      assert slots[..k] == slots[..k - 1] + [s];
      OwingAppend(slots[..k - 1], s);
      OwedPrefix(slots, k);
      if !s.io.released {
        assert Owed(slots, s.handle) by { assert slots[k - 1].handle == s.handle; }
        assert s.handle !in before.finalized;
      }
    }
  }

  lemma OwedPrefix(slots: seq<Slot>, k: nat)
    requires 0 < k <= |slots|
    ensures forall h: nat {:trigger Owed(slots[..k], h)} ::
              Owed(slots[..k], h) == (Owed(slots[..k - 1], h) || (h == slots[k - 1].handle && !slots[k - 1].io.released))
  {
    var p, q := slots[..k], slots[..k - 1];
    forall h: nat {:trigger Owed(p, h)} ensures Owed(p, h) == (Owed(q, h) || (h == slots[k - 1].handle && !slots[k - 1].io.released)) {
      if Owed(p, h) {
        var j :| 0 <= j < |p| && p[j].handle == h && !p[j].io.released;
        assert j == k - 1 || q[j].handle == h;
      }
      if Owed(q, h) {
        var j :| 0 <= j < |q| && q[j].handle == h && !q[j].io.released;
        assert p[j].handle == h;
      }
      if h == slots[k - 1].handle && !slots[k - 1].io.released { assert p[k - 1].handle == h; }
    }
  }

  lemma DestroyKeeps(c: Table, read: set<nat>)
    requires Inv(c) && !c.phase.Gone?
    ensures Inv(OnLink(c, Destroy(read)))
  {
    var n := |c.slots|;
    FinalizeUpToAccounts(c.slots, n, c.nextHandle, c.ledger, read);
    assert c.slots[..n] == c.slots;
    var l := FinalizeUpTo(c.slots, n, c.ledger, read);
    forall h: nat {:trigger h in l.finalized} ensures h in l.finalized <==> 1 <= h < c.nextHandle {
      if Owed(c.slots, h) {
        var j :| 0 <= j < |c.slots| && c.slots[j].handle == h && !c.slots[j].io.released;
      }
    }
    forall h: nat {:trigger Owed([], h)} ensures !Owed([], h) {}
  }

  lemma OnLinkKeeps(c: Table, op: Op)
    requires Inv(c) && !c.phase.Gone?
    requires !(op.AddPath? || op.DropPath? || op.RemovePath? || op.Release? || op.Reactivate? || op.Activate?
               || op.Retry? || op.Validated? || op.ConfirmTick? || op.TransportSent?)
    ensures Inv(OnLink(c, op))
  {
    hide Handles, Accounts, OneOwner, Unbound, Started;
    match op
    case PathRemoved(id, now) =>
      if c.phase.Up? && id in c.phase.link.alive { UnboundKeeps(c, id, now); }
    case Start(granted) =>
      if c.phase.Idle? || c.phase.Ready? { StartedKeeps(c, granted); }
    case ResetNext =>
      if c.phase.Resetting? && c.phase.at < |c.slots| { ResetNextKeeps(c); }
    case EndReset =>
      if c.slots != [] { NextPrimaryInTable(c.slots, c.primary, 1); }
    case Destroy(read) => DestroyKeeps(c, read);
    case _ =>
  }

  lemma StepKeeps(c: Table, op: Op)
    requires Inv(c)
    ensures Inv(Step(c, op))
  {
    hide Inv;
    if !c.phase.Gone? {
      match op
      case AddPath => AddedKeeps(c);
      case DropPath(_) => OnHandleKeeps(c, op);
      case RemovePath(_) => OnHandleKeeps(c, op);
      case Release(_, _) => OnHandleKeeps(c, op);
      case Reactivate(_, _) => OnHandleKeeps(c, op);
      case Activate(_, _, _) => OnSlotKeeps(c, op);
      case Retry(_, _, _) => OnSlotKeeps(c, op);
      case Validated(_, _, _) => OnSlotKeeps(c, op);
      case ConfirmTick(_, _) => OnSlotKeeps(c, op);
      case TransportSent(_, _) => OnSlotKeeps(c, op);
      case _ => OnLinkKeeps(c, op);
    }
  }

  lemma {:induction false} RunKeeps(c: Table, ops: seq<Op>)
    requires Inv(c)
    ensures Inv(Run(c, ops))
    decreases ops
  {
    hide Inv;
    if ops != [] {
      StepKeeps(c, ops[0]);
      RunKeeps(Step(c, ops[0]), ops[1..]);
    }
  }

  lemma InitInv(multipath: bool)
    ensures Inv(Init(multipath))
  {
  }
}

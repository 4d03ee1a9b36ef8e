/**
 What each operation on the path table does, in plain terms and on the whole
 table: the record it leaves in its slot, and that nothing else changes.
 */
module PathEffects {
  import opened Common
  import opened PathFsm
  import opened PathTable
  import opened PathSafety

  /** A handle that was issued and whose transport was not finalised belongs to a slot. */
  lemma OwedHandle(c: Table, h: int)
    requires Inv(c) && 1 <= h < c.nextHandle && h !in c.ledger.finalized
    ensures var i := ByHandle(c.slots, h); i < |c.slots| && c.slots[i].handle == h && !c.slots[i].io.released && Legal(c.slots[i])
  {
    assert Owed(c.slots, h);
    var j :| 0 <= j < |c.slots| && c.slots[j].handle == h && !c.slots[j].io.released;
    var i := ByHandle(c.slots, h);
    assert i <= j;
    assert c.slots[i].handle == c.slots[j].handle;
    assert Legal(c.slots[i]);
  }

  // ---- the platform's calls ----

  /** Adding a path fills the first free slot, or a new one: attached, owed a release, waiting to be
      activated, with nothing left of the slot's past. It is refused only when eight slots are taken. */
  lemma AddGives(c: Table)
    requires Inv(c) && !c.phase.Gone?
    ensures var d, i := Step(c, AddPath), FirstFree(c.slots);
            var s := Slot(c.nextHandle, Pending, Transport(true, false, true, 0), Binding(false, 0), Timers(0, 0, 0));
            if i < |c.slots| then d == c.(slots := c.slots[i := s], nextHandle := c.nextHandle + 1)
            else if |c.slots| < 8 then d == c.(slots := c.slots + [s], nextHandle := c.nextHandle + 1)
            else d == c
  {
  }

  /** Dropping or removing a path whose transport is still owed a release: its slot is CLOSED_DROPPED,
      detached, with no timer armed; it keeps its handle, its transport and its xquic path; no other
      slot, no account and no connection state changes. */
  lemma DropDetaches(c: Table, h: int, op: Op)
    requires Inv(c) && !c.phase.Gone? && (op == DropPath(h) || op == RemovePath(h))
    requires 1 <= h < c.nextHandle && h !in c.ledger.finalized
    ensures var i := ByHandle(c.slots, h);
            && i < |c.slots| && c.slots[i].handle == h
            && var s := c.slots[i];
               Step(c, op) == c.(slots := c.slots[i := Slot(h, ClosedDropped, s.io.(attached := false), s.path, Timers(0, s.timers.retries, 0))])
  {
    OwedHandle(c, h);
  }

  /** The release of a dropped path finalises it there and then: its transport is let go, its counter is
      harvested if it can be read, its handle is recorded; the slot is free if and only if xquic has no
      path of it. */
  lemma ReleaseFinalizes(c: Table, h: int, readable: bool)
    requires Inv(c) && !c.phase.Gone? && 1 <= h < c.nextHandle && h !in c.ledger.finalized
    ensures var i, d, l := ByHandle(c.slots, h), Step(c, Release(h, readable)), c.ledger;
            && i < |c.slots|
            && var s := c.slots[i];
               if s.state != ClosedDropped then d == c
               else d == c.(slots := c.slots[i := s.(state := if s.path == Binding(false, 0) then ClosedFree else ClosedDropped,
                                                     io := s.io.(released := true, installed := false))],
                            ledger := l.(finalized := l.finalized + [h],
                                         retired := l.retired + (if readable then s.io.tx else 0),
                                         unread := l.unread + (if readable then 0 else s.io.tx)))
  {
    OwedHandle(c, h);
  }

  // ---- attempts ----

  /** What an attempt to get a path leaves in a slot that would wait in state `waiting` for the next one. */
  function Tried(s: Slot, r: Result, waiting: State, now: nat): Slot {
    match r
    case Created(id) => s.(state := Validating, path := Binding(true, id), timers := s.timers.(retryAt := 0))
    case Transient =>
      if s.timers.retries + 1 >= 6
      then s.(state := ClosedRecoverable, path := Binding(false, 0), timers := Timers(0, s.timers.retries + 1, 0))
      else s.(state := waiting, path := Binding(false, 0), timers := Timers(now + Wait(s.timers.retries), s.timers.retries + 1, 0))
    case Permanent => s.(state := ClosedRecoverable, path := Binding(false, 0), timers := Timers(0, s.timers.retries, 0))
  }

  /** Five seconds, doubled per earlier failure, at most sixty. */
  function Wait(failures: nat): nat { Min(5_000_000 * Pow2(failures), 60_000_000) }

  lemma WaitIs(failures: nat)
    ensures Wait(failures) == Backoff(failures + 1)
  {
    if failures < 4 {
      assert Pow2(0) == 1 && Pow2(1) == 2 && Pow2(2) == 4 && Pow2(3) == 8;
    } else {
      Pow2AtLeast(failures);
    }
  }

  lemma {:induction false} Pow2AtLeast(n: nat)
    requires n >= 4
    ensures Pow2(n) >= 16
    decreases n
  {
    if n == 4 { assert Pow2(2) == 4; } else { Pow2AtLeast(n - 1); }
  }

  /** The paths xquic has after it answered. */
  function AliveAfter(r: Result, link: Link): set<nat> { if r.Created? then link.alive + {r.id} else link.alive }

  /** A due retry of an established multipath connection is made, and leaves the slot validating, waiting
      again or closed by the answer; one that is not due, or finds no such connection, does nothing. */
  lemma RetryTries(c: Table, i: nat, r: Result, now: nat)
    requires Inv(c) && !c.phase.Gone? && i < |c.slots| && (c.phase.Up? ==> Answers(r, c.phase.link))
    ensures var s, d := c.slots[i], Step(c, Retry(i, r, now));
            var due := (s.state == CreateWait || s.state == Degraded) && now >= s.timers.retryAt;
            if c.phase.Up? && c.phase.link.mpReady && c.phase.link.established && due
            then d == c.(slots := c.slots[i := Tried(s, r, s.state, now)], phase := Up(c.phase.link.(alive := AliveAfter(r, c.phase.link))))
            else d == c
  {
    hide Pow2;
    assert Legal(c.slots[i]);
    WaitIs(c.slots[i].timers.retries);
  }

  /** A pending slot is tried once multipath is ready and nothing holds extra paths back. */
  lemma ActivationTries(c: Table, i: nat, r: Result, now: nat)
    requires Inv(c) && !c.phase.Gone? && i < |c.slots| && (c.phase.Up? ==> Answers(r, c.phase.link))
    ensures var s, d := c.slots[i], Step(c, Activate(i, r, now));
            if c.phase.Up? && c.phase.link.mpReady && c.multipath && !c.phase.link.hold && s.state == Pending
            then d == c.(slots := c.slots[i := Tried(s, r, CreateWait, now)], phase := Up(c.phase.link.(alive := AliveAfter(r, c.phase.link))))
            else d == c
  {
    hide Pow2;
    assert Legal(c.slots[i]);
    WaitIs(c.slots[i].timers.retries);
  }

  /** The platform's own attempt: a waiting or closed slot gets the path if xquic gives one, and keeps its
      state, timer and failures if it does not. */
  lemma ReactivationTries(c: Table, h: int, r: Result)
    requires Inv(c) && !c.phase.Gone? && 1 <= h < c.nextHandle && h !in c.ledger.finalized
    requires c.phase.Up? ==> Answers(r, c.phase.link)
    ensures var i, d := ByHandle(c.slots, h), Step(c, Reactivate(h, r));
            && i < |c.slots|
            && var s := c.slots[i];
               if c.phase.Up? && c.phase.link.mpReady && c.phase.link.established && r.Created?
                  && (s.state == Degraded || s.state == CreateWait || s.state == ClosedRecoverable)
               then d == c.(slots := c.slots[i := s.(state := Validating, path := Binding(true, r.id), timers := s.timers.(retryAt := 0))],
                            phase := Up(c.phase.link.(alive := c.phase.link.alive + {r.id})))
               else d == c
  {
    OwedHandle(c, h);
    var i := ByHandle(c.slots, h);
    assert c.slots[i := c.slots[i]] == c.slots;
  }

  // ---- xquic's notifications ----

  /** A validated path is ACTIVE, or STANDBY, and its stability clock starts; nothing else is validated. */
  lemma ValidationPromotes(c: Table, i: nat, standby: bool, now: nat)
    requires Inv(c) && !c.phase.Gone? && i < |c.slots|
    ensures var s, d := c.slots[i], Step(c, Validated(i, standby, now));
            if s.state == Validating
            then d == c.(slots := c.slots[i := s.(state := if standby then Standby else Active, timers := s.timers.(stableSince := now))])
            else d == c
  {
    assert c.slots[i := c.slots[i]] == c.slots;
  }

  /** xquic removed a path: its slot fails over to waiting, or to closed after the sixth failure; a
      dropped slot has nothing left to wait for and is free if its transport was released. */
  lemma RemovalFails(c: Table, i: nat, now: nat)
    requires Inv(c) && c.phase.Up? && i < |c.slots| && c.slots[i].path.live
    ensures var s := c.slots[i]; var id := s.path.id;
            var t := if s.state == ClosedDropped
                     then s.(path := Binding(false, 0), state := if s.io.released then ClosedFree else ClosedDropped)
                     else Tried(s, Transient, if s.state == Validating then CreateWait else Degraded, now);
            && id in c.phase.link.alive
            && Step(c, PathRemoved(id, now)) ==
               c.(slots := c.slots[i := t],
                  phase := Up(c.phase.link.(alive := c.phase.link.alive - {id}, strayRoot := c.phase.link.strayRoot && id != 0)))
  {
    hide Pow2;
    var s := c.slots[i];
    assert Legal(s);
    WaitIs(s.timers.retries);
    OneSlot(c, i);
  }

  lemma OneSlot(c: Table, i: nat)
    requires Inv(c) && c.phase.Up? && i < |c.slots| && c.slots[i].path.live
    ensures ByPathId(c.slots, c.slots[i].path.id) == i && c.slots[i].path.id in c.phase.link.alive
  {
    var j := ByPathId(c.slots, c.slots[i].path.id);
    assert c.slots[i].path == Binding(true, c.slots[i].path.id);
    assert j <= i && c.slots[j].path == c.slots[i].path;
  }

  // ---- the connection ----

  /** What the connection's own events do to its phase: a lost one is down, a down one is reset and then
      ready for the next start with its primary rotated, flags are set while it is up; slots and accounts
      are left alone. */
  lemma PhaseMoves(c: Table, on: bool)
    requires !c.phase.Gone?
    ensures Step(c, ConnLost) == c.(phase := if c.phase.Up? then Down else c.phase)
    ensures Step(c, BeginReset) == c.(phase := if c.phase.Down? then Resetting(0) else c.phase)
    ensures c.phase.Resetting? && c.phase.at >= |c.slots| ==>
              Step(c, EndReset) == c.(primary := Rotated(c.slots, c.primary), phase := Ready)
    ensures c.phase.Up? ==> Step(c, BecomeReady).phase == Up(c.phase.link.(mpReady := true))
    ensures c.phase.Up? ==> Step(c, SetHold(on)).phase == Up(c.phase.link.(hold := on))
    ensures c.phase.Up? ==> Step(c, Establish).phase == Up(c.phase.link.(established := true))
  {
    hide Rotated, FinalizeUpTo;
  }

  /** Traffic is counted by the transport that carried it, and in the total. */
  lemma SentCounts(c: Table, i: nat, n: nat)
    requires Inv(c) && !c.phase.Gone? && i < |c.slots| && c.slots[i].io.installed
    ensures var s := c.slots[i];
            Step(c, TransportSent(i, n)) == c.(slots := c.slots[i := s.(io := s.io.(tx := s.io.tx + n))],
                                               ledger := c.ledger.(sent := c.ledger.sent + n))
  {
  }

  /** A start binds path 0 to the primary, which validates it; it is refused exactly if the primary has no
      transport or xquic gives no connection, and then nothing but the phase changes. */
  lemma StartBinds(c: Table, granted: bool)
    requires Inv(c) && (c.phase.Idle? || c.phase.Ready?)
    ensures var d := Step(c, Start(granted));
            if !granted || (c.primary < |c.slots| && !c.slots[c.primary].io.attached)
            then d == c.(phase := d.phase) && !d.phase.Up?
            else && d.phase == Up(Link({0}, c.slots == [], false, false, false))
                 && (c.slots != [] ==>
                       && c.primary < |c.slots|
                       && d == c.(phase := d.phase, slots := c.slots[c.primary := c.slots[c.primary].(state := Validating, path := Binding(true, 0))]))
                 && (c.slots == [] ==> d == c.(phase := d.phase))
  {
  }

  /** A reset leaves an attached slot as if it had just been added, but for its handle and transport; a
      dropped one loses its path, and is free if its transport was released. */
  lemma ResetClears(c: Table, i: nat)
    requires Inv(c) && c.phase == Resetting(i) && i < |c.slots|
    ensures var s := c.slots[i];
            Step(c, ResetNext) ==
            c.(phase := Resetting(i + 1),
               slots := c.slots[i := Slot(s.handle, if s.io.attached then Pending else if s.io.released then ClosedFree else ClosedDropped,
                                          s.io, Binding(false, 0), Timers(0, 0, 0))])
  {
    assert Legal(c.slots[i]);
  }

  /** Thirty stable seconds, by unsigned 64-bit subtraction, forgive a live path its failures; nothing
      less does. */
  lemma StabilityForgives(c: Table, i: nat, now: nat)
    requires Inv(c) && !c.phase.Gone? && i < |c.slots|
    ensures var s, d := c.slots[i], Step(c, ConfirmTick(i, now));
            if (s.state == Active || s.state == Standby) && s.timers.stableSince != 0
               && (now - s.timers.stableSince) % 0x1_0000_0000_0000_0000 >= 30_000_000
            then d == c.(slots := c.slots[i := s.(timers := Timers(s.timers.retryAt, 0, now))])
            else d == c
  {
    assert Legal(c.slots[i]);
    assert c.slots[i := c.slots[i]] == c.slots;
  }
}

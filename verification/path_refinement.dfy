/**
 Every run of the path table, seen slot by slot, is a behaviour of the
 repository's TLA+ model (formal/MqvpnPathSlot.tla): each slot moves only by
 the module's event handler, by the bootstrap of the primary, or by reuse.
 */
module PathRefinement {
  import opened PathFsm
  import opened PathTable
  import opened PathOracle

  /** path_entry_init, and the slot after ADD. */
  const FRESH := Abstract(ClosedFree, false, false, true, 0, 0, false, false)
  const ADDED: Abstract := Handle(FRESH, ADD, Context(Transient, Active, false)).slot

  /** The bootstrap's direct writes. */
  function Bootstrapped(a: Abstract): Abstract { a.(xqcId := 0, live := true, state := Validating) }

  predicate Fired(a: Abstract, b: Abstract, ev: Trigger, ctx: Context) {
    (ctx.target == Active || ctx.target == Standby) && b == Handle(a, ev, ctx).slot
  }

  /** What one step of the model may do to the slot. */
  ghost predicate Next(a: Abstract, b: Abstract) {
    || b == a
    || (exists ev, ctx :: Fired(a, b, ev, ctx))
    || (a.attached && b == Bootstrapped(a))
    || (a.state == ClosedFree && b == ADDED)
  }

  /** Every slot makes a step of the model; a slot that is new was just added. */
  ghost predicate AllNext(a: seq<Slot>, b: seq<Slot>) {
    && |a| <= |b|
    && (forall i {:trigger b[i]} :: 0 <= i < |a| ==> Next(Abstracted(a[i]), Abstracted(b[i])))
    && (forall i {:trigger b[i]} :: |a| <= i < |b| ==> Abstracted(b[i]) == ADDED)
  }

  ghost predicate TableNext(c: Table, d: Table) { d.phase.Gone? || AllNext(c.slots, d.slots) }

  /** The clock reads zero just when a path is validated, or confirmed stable: the code then takes the
      timestamp it stores for an unarmed timer. */
  predicate ClockZero(c: Table, op: Op) {
    !c.phase.Gone? && (op.Validated? || op.ConfirmTick?) && op.i < |c.slots| && op.now == 0
    && if op.Validated? then c.slots[op.i].state == Validating else Confirms(c.slots[op.i], 0)
  }

  // ---- one slot ----

  lemma EventMoves(s: Slot, e: Event)
    ensures Next(Abstracted(s), Abstracted(OnEvent(s, e))) <==> !AtClockZero(s, e)
  {
    hide Handle, OnEvent;
    EventRefines(s, e);
    if AtClockZero(s, e) {
      ZeroValidates(s, e);
    } else {
      assert Fired(Abstracted(s), Abstracted(OnEvent(s, e)), TriggerOf(e), ContextOf(e));
    }
  }

  /** No step of the model takes a slot from VALIDATING to ACTIVE or STANDBY with its timer unarmed. */
  lemma ZeroValidates(s: Slot, e: Event)
    requires AtClockZero(s, e)
    ensures !Next(Abstracted(s), Abstracted(OnEvent(s, e)))
  {
    var a, b := Abstracted(s), Abstracted(OnEvent(s, e));
    assert a.state == Validating && (b.state == Active || b.state == Standby) && !b.stableArmed;
    forall ev, ctx ensures !Fired(a, b, ev, ctx) { NotToActive(a, b, ev, ctx); }
  }

  lemma NotToActive(a: Abstract, b: Abstract, ev: Trigger, ctx: Context)
    requires a.state == Validating && (b.state == Active || b.state == Standby) && !b.stableArmed
    ensures !Fired(a, b, ev, ctx)
  {
  }

  lemma ConfirmMoves(s: Slot, now: nat)
    ensures Next(Abstracted(s), Abstracted(ConfirmStable(s, now))) <==> !(Confirms(s, now) && now == 0)
  {
    hide Handle;
    StableRefines(s, now);
    var reached := Elapsed(now, s.timers.stableSince) >= STABLE_THRESHOLD_US;
    if Confirms(s, now) && now == 0 {
      var a, b := Abstracted(s), Abstracted(ConfirmStable(s, now));
      forall ev, ctx ensures !Fired(a, b, ev, ctx) { NotDisarmed(a, b, ev, ctx); }
    } else {
      assert Fired(Abstracted(s), Abstracted(ConfirmStable(s, now)), STABLE_TICK, Context(Transient, Active, reached));
    }
  }

  lemma NotDisarmed(a: Abstract, b: Abstract, ev: Trigger, ctx: Context)
    requires (a.state == Active || a.state == Standby) && b.state == a.state && a.stableArmed && !b.stableArmed && b.live
    ensures !Fired(a, b, ev, ctx)
  {
  }

  // ---- one operation ----

  lemma PutNext(slots: seq<Slot>, i: nat, t: Slot)
    requires i < |slots|
    ensures AllNext(slots, slots[i := t]) <==> Next(Abstracted(slots[i]), Abstracted(t))
  {
    hide Next, Abstracted;
    var b := slots[i := t];
    assert b[i] == t;
    forall j | 0 <= j < |slots| && j != i ensures Next(Abstracted(slots[j]), Abstracted(b[j])) { Stutters(slots[j]); }
  }

  lemma Stutters(s: Slot)
    ensures Next(Abstracted(s), Abstracted(s))
  {
  }

  lemma StaysNext(slots: seq<Slot>)
    ensures AllNext(slots, slots)
  {
    hide Next, Abstracted;
    forall j | 0 <= j < |slots| ensures Next(Abstracted(slots[j]), Abstracted(slots[j])) { Stutters(slots[j]); }
  }

  lemma EventNext(slots: seq<Slot>, i: nat, e: Event)
    requires i < |slots|
    ensures AllNext(slots, slots[i := OnEvent(slots[i], e)]) <==> !AtClockZero(slots[i], e)
  {
    hide Next, AllNext, OnEvent;
    PutNext(slots, i, OnEvent(slots[i], e));
    EventMoves(slots[i], e);
  }

  lemma AddNext(c: Table)
    ensures AllNext(c.slots, Added(c).slots)
  {
    hide AllNext, Next;
    var i := FirstFree(c.slots);
    NewIsAdded(c.nextHandle);
    if i < |c.slots| {
      Reused(c.slots[i], NewSlot(c.nextHandle));
      PutNext(c.slots, i, NewSlot(c.nextHandle));
    } else if |c.slots| < MAX_PATHS {
      AppendNext(c.slots, NewSlot(c.nextHandle));
    } else {
      StaysNext(c.slots);
    }
  }

  lemma NewIsAdded(h: nat)
    ensures Abstracted(NewSlot(h)) == ADDED
  {
  }

  lemma Reused(s: Slot, t: Slot)
    requires s.state == ClosedFree && Abstracted(t) == ADDED
    ensures Next(Abstracted(s), Abstracted(t))
  {
  }

  lemma AppendNext(slots: seq<Slot>, t: Slot)
    requires Abstracted(t) == ADDED
    ensures AllNext(slots, slots + [t])
  {
    hide Next, Abstracted;
    forall j | 0 <= j < |slots| ensures Next(Abstracted(slots[j]), Abstracted((slots + [t])[j])) { Stutters(slots[j]); }
  }

  lemma HandleNext(c: Table, op: Op)
    requires op.DropPath? || op.RemovePath? || op.Release? || op.Reactivate?
    ensures AllNext(c.slots, OnHandle(c, op).slots)
  {
    hide AllNext, OnEvent, AtClockZero;
    StaysNext(c.slots);
    var i := ByHandle(c.slots, op.h);
    if i < |c.slots| {
      NotZero(c.slots[i], Drop);
      EventNext(c.slots, i, Drop);
      if op.Release? { ReleaseNext(c.slots, i); }
      if op.Reactivate? {
        NotZero(c.slots[i], ManualReactivate(op.r));
        EventNext(c.slots, i, ManualReactivate(op.r));
      }
    }
  }

  lemma NotZero(s: Slot, e: Event)
    requires !e.ValidationOk?
    ensures !AtClockZero(s, e)
  {
  }

  /** The transport's pointer is cleared before the event; the model does not see it. */
  lemma ReleaseNext(slots: seq<Slot>, i: nat)
    requires i < |slots|
    ensures AllNext(slots, slots[i := OnEvent(Finalized(slots[i]), TransportReleased)])
  {
    hide AllNext, Next, OnEvent;
    var s := slots[i];
    assert Abstracted(Finalized(s)) == Abstracted(s);
    EventMoves(Finalized(s), TransportReleased);
    PutNext(slots, i, OnEvent(Finalized(s), TransportReleased));
  }

  lemma SlotNext(c: Table, op: Op)
    requires op.Activate? || op.Retry? || op.Validated? || op.ConfirmTick? || op.TransportSent?
    requires !c.phase.Gone?
    ensures AllNext(c.slots, OnSlot(c, op).slots) <==> !ClockZero(c, op)
  {
    hide AllNext, OnEvent, Next, Confirms;
    StaysNext(c.slots);
    if op.i < |c.slots| {
      var i, s := op.i, c.slots[op.i];
      match op {
        case Activate(_, r, now) => EventNext(c.slots, i, ActivateRequested(r, now));
        case Retry(_, r, now) => EventNext(c.slots, i, RetryTimer(r, now));
        case Validated(_, standby, now) => EventNext(c.slots, i, ValidationOk(standby, now));
        case ConfirmTick(_, now) =>
          ConfirmMoves(s, now);
          PutNext(c.slots, i, ConfirmStable(s, now));
        case TransportSent(_, n) =>
          var t := s.(io := s.io.(tx := s.io.tx + n));
          assert Abstracted(t) == Abstracted(s);
          Stutters(s);
          PutNext(c.slots, i, t);
      }
    }
  }

  lemma LinkNext(c: Table, op: Op)
    requires !(op.AddPath? || op.DropPath? || op.RemovePath? || op.Release? || op.Reactivate? || op.Activate?
               || op.Retry? || op.Validated? || op.ConfirmTick? || op.TransportSent?)
    ensures TableNext(c, OnLink(c, op))
  {
    hide AllNext, OnEvent, AtClockZero, Rotated, FinalizeUpTo;
    StaysNext(c.slots);
    match op {
      case PathRemoved(id, now) =>
        var i := ByPathId(c.slots, id);
        if i < |c.slots| { NotZero(c.slots[i], XquicRemoved(now)); EventNext(c.slots, i, XquicRemoved(now)); }
      case ResetNext =>
        if c.phase.Resetting? && c.phase.at < |c.slots| {
          NotZero(c.slots[c.phase.at], ConnReset);
          EventNext(c.slots, c.phase.at, ConnReset);
        }
      case Start(granted) =>
        if c.primary < |c.slots| && c.slots[c.primary].io.attached { BootNext(c.slots, c.primary); }
      case _ =>
    }
  }

  lemma BootNext(slots: seq<Slot>, i: nat)
    requires i < |slots| && slots[i].io.attached
    ensures AllNext(slots, slots[i := slots[i].(state := Validating, path := Binding(true, 0))])
  {
    hide AllNext;
    var t := slots[i].(state := Validating, path := Binding(true, 0));
    assert Abstracted(t) == Bootstrapped(Abstracted(slots[i]));
    PutNext(slots, i, t);
  }

  lemma StepNext(c: Table, op: Op)
    ensures TableNext(c, Step(c, op)) <==> !ClockZero(c, op)
  {
    hide AllNext, OnHandle, OnSlot, OnLink, Added;
    if !c.phase.Gone? {
      if op.Validated? || op.ConfirmTick? { StaysUp(c, op); }
      match op {
        case AddPath => AddNext(c);
        case DropPath(_) => HandleNext(c, op);
        case RemovePath(_) => HandleNext(c, op);
        case Release(_, _) => HandleNext(c, op);
        case Reactivate(_, _) => HandleNext(c, op);
        case Activate(_, _, _) => SlotNext(c, op);
        case Retry(_, _, _) => SlotNext(c, op);
        case Validated(_, _, _) => SlotNext(c, op);
        case ConfirmTick(_, _) => SlotNext(c, op);
        case TransportSent(_, _) => SlotNext(c, op);
        case _ => LinkNext(c, op);
      }
    }
  }

  lemma StaysUp(c: Table, op: Op)
    requires !c.phase.Gone? && (op.Validated? || op.ConfirmTick?)
    ensures !Step(c, op).phase.Gone?
  {
  }

  // ---- every run ----

  lemma {:induction false} RunSnoc(c: Table, ops: seq<Op>, op: Op)
    ensures Run(c, ops + [op]) == Step(Run(c, ops), op)
    decreases ops
  {
    hide Step;
    if ops == [] {
      assert ops + [op] == [op] && [op][1..] == [];
      assert Run(Step(c, op), []) == Step(c, op);
    } else {
      assert (ops + [op])[0] == ops[0] && (ops + [op])[1..] == ops[1..] + [op];
      RunSnoc(Step(c, ops[0]), ops[1..], op);
    }
  }

  /** The k-th operation of the run moves every slot as the model allows. */
  ghost predicate MovesAt(c: Table, ops: seq<Op>, k: nat)
    requires k < |ops|
  {
    TableNext(Run(c, ops[..k]), Run(c, ops[..k + 1]))
  }

  predicate ZeroAt(c: Table, ops: seq<Op>, k: nat)
    requires k < |ops|
  {
    ClockZero(Run(c, ops[..k]), ops[k])
  }

  /** In every run every slot behaves as the TLA+ model allows, bootstrap and reuse included, if and
      only if the clock never reads zero when a path is validated or confirmed stable. */
  lemma RefinesOverRuns(multipath: bool, ops: seq<Op>)
    ensures (forall k {:trigger MovesAt(Init(multipath), ops, k)} :: 0 <= k < |ops| ==> MovesAt(Init(multipath), ops, k))
       <==> (forall k {:trigger ZeroAt(Init(multipath), ops, k)} :: 0 <= k < |ops| ==> !ZeroAt(Init(multipath), ops, k))
  {
    hide MovesAt, ZeroAt;
    var c := Init(multipath);
    forall k {:trigger MovesAt(c, ops, k)} {:trigger ZeroAt(c, ops, k)} | 0 <= k < |ops|
      ensures MovesAt(c, ops, k) <==> !ZeroAt(c, ops, k)
    {
      OneMove(c, ops, k);
    }
  }

  lemma OneMove(c: Table, ops: seq<Op>, k: nat)
    requires k < |ops|
    ensures MovesAt(c, ops, k) <==> !ZeroAt(c, ops, k)
  {
    hide Step, TableNext, ClockZero;
    assert ops[..k + 1] == ops[..k] + [ops[k]];
    RunSnoc(c, ops[..k], ops[k]);
    StepNext(Run(c, ops[..k]), ops[k]);
  }

  // ---- such a run exists ----

  const AT_ZERO: seq<Op> := [AddPath, Start(true), Validated(0, false, 0)]

  /** A path validated at clock zero is ACTIVE with its stability timer unarmed, so it is never confirmed
      stable and its failures are never forgiven. */
  lemma ClockZeroRun()
    ensures ZeroAt(Init(true), AT_ZERO, 2)
    ensures var s := Run(Init(true), AT_ZERO).slots; |s| == 1 && s[0].state == Active && forall now :: ConfirmStable(s[0], now) == s[0]
  {
    var c0 := Init(true);
    var c1 := Step(c0, AddPath);
    assert c1.slots == [NewSlot(1)];
    var c2 := Step(c1, Start(true));
    assert c2.slots == [NewSlot(1).(state := Validating, path := Binding(true, 0))];
    assert AT_ZERO[..2] == [AddPath] + [Start(true)] && AT_ZERO == AT_ZERO[..2] + [Validated(0, false, 0)];
    RunSnoc(c0, [], AddPath);
    RunSnoc(c0, [AddPath], Start(true));
    RunSnoc(c0, AT_ZERO[..2], Validated(0, false, 0));
    assert [] + [AddPath] == [AddPath];
    assert Run(c0, AT_ZERO[..2]) == c2;
  }
}

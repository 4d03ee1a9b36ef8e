/**
 The path-table part of mqvpn_client_t, updated in place. Every method is
 proved to take the steps of the table's step system, so what holds of every
 run of that system holds of every sequence of these calls.
 */
module ClientPaths {
  import opened PathFsm
  import opened PathTable
  import opened PathSafety

  datatype Code = Ok | InvalidArg | InvalidState | EngineError

  // ---- passes over the table as runs ----

  function Pass(c: Table, ops: seq<Op>, k: nat): Table
    requires k <= |ops|
  {
    if k == 0 then c else Step(Pass(c, ops, k - 1), ops[k - 1])
  }

  lemma {:induction false} RunSplit(c: Table, a: seq<Op>, b: seq<Op>)
    ensures Run(c, a + b) == Run(Run(c, a), b)
    decreases a
  {
    if a == [] {
      assert a + b == b;
    } else {
      assert (a + b)[0] == a[0] && (a + b)[1..] == a[1..] + b;
      RunSplit(Step(c, a[0]), a[1..], b);
    }
  }

  lemma {:induction false} PassIsRun(c: Table, ops: seq<Op>, k: nat)
    requires k <= |ops|
    ensures Pass(c, ops, k) == Run(c, ops[..k])
    decreases k
  {
    if k > 0 {
      PassIsRun(c, ops, k - 1);
      assert ops[..k] == ops[..k - 1] + [ops[k - 1]];
      RunSplit(c, ops[..k - 1], [ops[k - 1]]);
      RunOne(Run(c, ops[..k - 1]), ops[k - 1]);
    }
  }

  lemma RunOne(c: Table, op: Op)
    ensures Run(c, [op]) == Step(c, op)
  {
    assert [op][1..] == [];
  }

  type Answering = a: seq<Result> | |a| == MAX_PATHS witness seq(MAX_PATHS, _ => Transient)

  /** activate_pending_paths: one attempt per slot, in slot order. */
  function ActivateOps(n: nat, answers: Answering, now: nat): seq<Op>
    requires n <= MAX_PATHS
  {
    seq(n, i requires 0 <= i < n => Activate(i, answers[i], now))
  }

  function Activated(c: Table, answers: Answering, now: nat): Table {
    if MayActivate(c) && |c.slots| <= MAX_PATHS then Run(c, ActivateOps(|c.slots|, answers, now)) else c
  }

  /** What the pass does to slot i: nothing before its turn, then one attempt, then nothing. */
  lemma {:induction false} PassSlot(c: Table, answers: Answering, now: nat, k: nat, i: nat)
    requires MayActivate(c) && |c.slots| <= MAX_PATHS && k <= |c.slots| && i < |c.slots|
    ensures var d := Pass(c, ActivateOps(|c.slots|, answers, now), k); var s := c.slots[i];
            && |d.slots| == |c.slots| && MayActivate(d)
            && (k <= i ==> d.slots[i] == s)
            && (k > i ==> d.slots[i] == s || d.slots[i] == OnEvent(s, ActivateRequested(answers[i], now)))
            && (k > i && !answers[i].Created? && s.state == Pending && !s.path.live ==>
                  d.slots[i] == OnEvent(s, ActivateRequested(answers[i], now)))
    decreases k
  {
    hide OnEvent;
    if k > 0 { PassSlot(c, answers, now, k - 1, i); }
  }

  datatype AddOutcome = AddOk | AddTransientFail | AddPermanentFail

  /** add_path_outcome_from_state, with its fallback for the states it asserts away. */
  function OutcomeOf(st: State): AddOutcome {
    match st
    case CreateWait => AddTransientFail
    case ClosedRecoverable => AddPermanentFail
    case _ => AddOk
  }

  /** A slot just added reports the answer to its one attempt. */
  lemma NewOutcome(h: nat, r: Result, now: nat)
    ensures OutcomeOf(NewSlot(h).state) == AddOk && NewSlot(h).state == Pending && !NewSlot(h).path.live
    ensures OutcomeOf(OnEvent(NewSlot(h), ActivateRequested(r, now)).state) ==
            match r case Created(_) => AddOk case Transient => AddTransientFail case Permanent => AddPermanentFail
  {
  }

  lemma ActivatedOutcome(c: Table, answers: Answering, now: nat, i: nat, h: nat)
    requires MayActivate(c) && i < |c.slots| <= MAX_PATHS && c.slots[i] == NewSlot(h)
    ensures var d := Activated(c, answers, now);
            && |d.slots| == |c.slots|
            && (OutcomeOf(d.slots[i].state) == AddTransientFail <==> answers[i].Transient?)
            && (OutcomeOf(d.slots[i].state) == AddPermanentFail <==> answers[i].Permanent?)
  {
    hide OnEvent, Pass, Run, NewSlot;
    var ops := ActivateOps(|c.slots|, answers, now);
    PassIsRun(c, ops, |ops|);
    assert ops[..|ops|] == ops;
    PassSlot(c, answers, now, |c.slots|, i);
    NewOutcome(h, answers[i], now);
  }

  function ResetOps(n: nat): seq<Op> { [BeginReset] + seq(n, _ => ResetNext) + [EndReset] }

  /** Slot telemetry that can be read, over the unfinalised transports. */
  function Readable(slots: seq<Slot>, k: nat, read: set<nat>): nat
    requires k <= |slots|
  {
    if k == 0 then 0
    else Readable(slots, k - 1, read) + (if slots[k - 1].io.released || k - 1 !in read then 0 else slots[k - 1].io.tx)
  }

  lemma {:induction false} ReadableAll(slots: seq<Slot>, k: nat, read: set<nat>)
    requires k <= |slots| && forall i :: 0 <= i < |slots| ==> i in read
    ensures Readable(slots, k, read) == Owing(slots[..k])
    decreases k
  {
    if k > 0 {
      ReadableAll(slots, k - 1, read);
      assert slots[..k] == slots[..k - 1] + [slots[k - 1]];
      OwingAppend(slots[..k - 1], slots[k - 1]);
    }
  }

  function Following(i: nat, n: nat): (r: nat)
    requires i < n
    ensures r == if i + 1 < n then i + 1 else 0
  {
    (i + 1) % n
  }

  class Paths {
    var slots: seq<Slot>
    var nextHandle: nat
    var primary: nat
    var multipath: bool
    var phase: Phase
    var ledger: Ledger

    function View(): Table
      reads this
    {
      Table(slots, nextHandle, primary, multipath, phase, ledger)
    }

    constructor (mp: bool)
      ensures View() == Init(mp) && Inv(View())
    {
      slots, nextHandle, primary, multipath, phase, ledger := [], 1, 0, mp, Idle, Ledger([], 0, 0, 0);
      new;
      InitInv(mp);
    }

    /** find_path_by_handle; |slots| stands for no slot. */
    method FindByHandle(h: int) returns (i: nat)
      ensures i == ByHandle(slots, h)
    {
      i := 0;
      while i < |slots| && slots[i].handle != h
        invariant i <= |slots| && ByHandle(slots, h) == i + ByHandle(slots[i..], h)
      {
        assert slots[i..][1..] == slots[i + 1..];
        i := i + 1;
      }
    }

    method FindByPathId(id: nat) returns (i: nat)
      ensures i == ByPathId(slots, id)
    {
      i := 0;
      while i < |slots| && !(slots[i].path.live && slots[i].path.id == id)
        invariant i <= |slots| && ByPathId(slots, id) == i + ByPathId(slots[i..], id)
      {
        assert slots[i..][1..] == slots[i + 1..];
        i := i + 1;
      }
    }

    method FindFree() returns (i: nat)
      ensures i == FirstFree(slots)
    {
      i := 0;
      while i < |slots| && slots[i].state != ClosedFree
        invariant i <= |slots| && FirstFree(slots) == i + FirstFree(slots[i..])
      {
        assert slots[i..][1..] == slots[i + 1..];
        i := i + 1;
      }
    }

    /** client_next_primary_idx: walk once around the table, starting after `from`. */
    method NextPrimaryIdx(from: nat) returns (p: nat)
      requires from < |slots| || slots == []
      ensures p == Rotated(slots, from)
    {
      if slots == [] { return 0; }
      var n := |slots|;
      var start := Following(from, n);
      var i := start;
      ghost var k: nat := 1;
      var around := false;
      while !around
        invariant 1 <= k <= n + 1 && around == (k == n + 1)
        invariant start == Ahead(n, from, 1)
        invariant k <= n ==> i == Ahead(n, from, k)
        invariant NextPrimary(slots, from, 1) == NextPrimary(slots, from, k)
        decreases n + 1 - k
      {
        if slots[i].io.attached && !Closed(slots[i].state) { return i; }
        i := Following(i, n);
        AheadIs(n, from, 1);
        AheadIs(n, from, k);
        k := k + 1;
        around := i == start;
      }
      return from;
    }

    /** client_tx_totals: harvested telemetry plus every readable live counter. */
    method TxTotals(read: set<nat>) returns (total: nat)
      ensures total == ledger.retired + Readable(slots, |slots|, read)
      ensures Inv(View()) && (forall i :: 0 <= i < |slots| ==> i in read) ==> total + ledger.unread == ledger.sent
    {
      total := ledger.retired;
      var i := 0;
      while i < |slots|
        invariant 0 <= i <= |slots| && total == ledger.retired + Readable(slots, i, read)
      {
        if !slots[i].io.released && i in read { total := total + slots[i].io.tx; }
        i := i + 1;
      }
      if forall j :: 0 <= j < |slots| ==> j in read {
        ReadableAll(slots, |slots|, read);
        assert slots[..|slots|] == slots;
      }
    }

    method ActivateSlot(i: nat, r: Result, now: nat)
      requires i < |slots| && MayActivate(View())
      modifies this
      ensures View() == Step(old(View()), Activate(i, r, now))
      ensures MayActivate(View()) && |slots| == old(|slots|)
    {
      var s := slots[i];
      if s.state == Pending && !s.path.live && Answers(r, phase.link) {
        slots := slots[i := OnEvent(s, ActivateRequested(r, now))];
        phase := Up(WithPath(r, phase.link));
      }
    }

    method ActivatePending(answers: Answering, now: nat)
      requires MayActivate(View()) && |slots| <= MAX_PATHS
      modifies this
      ensures View() == Run(old(View()), ActivateOps(old(|slots|), answers, now))
    {
      ghost var before := View();
      ghost var ops := ActivateOps(|slots|, answers, now);
      var i := 0;
      while i < |slots|
        invariant 0 <= i <= |slots| == |before.slots|
        invariant MayActivate(View()) && View() == Pass(before, ops, i)
      {
        ActivateSlot(i, answers[i], now);
        i := i + 1;
      }
      PassIsRun(before, ops, |ops|);
      assert ops[..|ops|] == ops;
    }

    /** mqvpn_client_add_path: -1 exactly when all eight slots are taken. The outcome is a failure exactly
        if the new slot's activation was attempted at once and xquic refused it, for now or for good. */
    method AddPath(answers: Answering, now: nat) returns (h: int, outcome: AddOutcome)
      requires Inv(View()) && !phase.Gone?
      modifies this
      ensures Inv(View())
      ensures h == -1 <==> |old(slots)| == MAX_PATHS && forall i :: 0 <= i < MAX_PATHS ==> old(slots)[i].state != ClosedFree
      ensures h == -1 ==> View() == old(View())
      ensures h != -1 ==> h == old(nextHandle) && View() == Activated(Step(old(View()), Op.AddPath), answers, now)
      ensures h != -1 ==> var i := FirstFree(old(slots));
                          && i < |slots| <= MAX_PATHS
                          && (outcome == AddTransientFail <==> MayActivate(old(View())) && answers[i].Transient?)
                          && (outcome == AddPermanentFail <==> MayActivate(old(View())) && answers[i].Permanent?)
    {
      hide Inv, Step, Run, NewSlot;
      assert |slots| <= MAX_PATHS by { TableBounded(View()); }
      outcome := AddOk;
      var i := FindFree();
      if i == |slots| && |slots| >= MAX_PATHS { h := -1; return; }
      StepKeeps(View(), Op.AddPath);
      h := InstallSlot(i);
      if phase.Up? && phase.link.mpReady && multipath && !phase.link.hold {
        RunKeeps(View(), ActivateOps(|slots|, answers, now));
        ActivatedOutcome(View(), answers, now, i, h);
        ActivatePending(answers, now);
        outcome := OutcomeOf(slots[i].state);
      }
    }

    /** The part of mqvpn_client_add_path that fills the slot and dispatches ADD. */
    method InstallSlot(i: nat) returns (h: nat)
      requires !phase.Gone? && i == FirstFree(slots) && (i < |slots| || |slots| < MAX_PATHS)
      modifies this
      ensures View() == Step(old(View()), Op.AddPath) && h == old(nextHandle)
      ensures |slots| == (if i < old(|slots|) then old(|slots|) else old(|slots|) + 1) && i < |slots| && slots[i] == NewSlot(h)
      ensures phase == old(phase) && multipath == old(multipath)
    {
      if i < |slots| {
        slots := slots[i := NewSlot(nextHandle)];
      } else {
        slots := slots + [NewSlot(nextHandle)];
      }
      h := nextHandle;
      nextHandle := nextHandle + 1;
    }

    method DropPath(h: int) returns (code: Code)
      modifies this
      requires !phase.Gone?
      ensures View() == Step(old(View()), Op.DropPath(h))
      ensures code == if ByHandle(old(slots), h) == |old(slots)| then InvalidArg else Ok
    {
      var i := FindByHandle(h);
      if i == |slots| { return InvalidArg; }
      slots := slots[i := OnEvent(slots[i], Drop)];
      return Ok;
    }

    method RemovePath(h: int) returns (code: Code)
      modifies this
      requires !phase.Gone?
      ensures View() == Step(old(View()), Op.RemovePath(h))
      ensures code == if ByHandle(old(slots), h) == |old(slots)| then InvalidArg else Ok
    {
      var i := FindByHandle(h);
      if i == |slots| { return InvalidArg; }
      if slots[i].state == ClosedFree { return Ok; }
      slots := slots[i := OnEvent(slots[i], Drop)];
      return Ok;
    }

    /** client_finalize_transport: clear the slot first, then harvest and release. */
    method FinalizeTransport(i: nat, readable: bool)
      requires i < |slots|
      modifies this`slots, this`ledger
      ensures slots == old(slots)[i := Finalized(old(slots)[i])]
      ensures ledger == Harvest(old(ledger), old(slots)[i], readable)
    {
      var s := slots[i];
      slots := slots[i := Finalized(s)];
      if readable {
        ledger := ledger.(retired := ledger.retired + s.io.tx);
      } else {
        ledger := ledger.(unread := ledger.unread + s.io.tx);
      }
      ledger := ledger.(finalized := ledger.finalized + [s.handle]);
    }

    /** mqvpn_client_on_platform_path_released: refused exactly for a slot that was not dropped first. */
    method OnReleased(h: int, readable: bool) returns (code: Code)
      modifies this
      requires !phase.Gone?
      ensures View() == Step(old(View()), Release(h, readable))
      ensures var i := ByHandle(old(slots), h);
              code == if i == |old(slots)| then InvalidArg
                      else if old(slots)[i].state == ClosedFree || old(slots)[i].state == ClosedDropped then Ok else InvalidState
    {
      var i := FindByHandle(h);
      if i == |slots| { return InvalidArg; }
      if slots[i].state == ClosedFree { return Ok; }
      if slots[i].state != ClosedDropped { return InvalidState; }
      if slots[i].io.released || !slots[i].io.installed { return Ok; }
      FinalizeTransport(i, readable);
      slots := slots[i := OnEvent(slots[i], TransportReleased)];
      return Ok;
    }

    /** mqvpn_client_reactivate_path: succeeds exactly when an eligible slot was given a new path. */
    method ReactivatePath(h: int, r: Result) returns (code: Code)
      modifies this
      requires phase.Up? ==> Answers(r, phase.link)
      ensures View() == Step(old(View()), Reactivate(h, r))
      ensures var i := ByHandle(old(slots), h);
              code == Ok <==> Established(old(View())) && i < |old(slots)| && Eligible(old(slots)[i]) && r.Created?
    {
      if !(phase.Up? && phase.link.established && phase.link.mpReady) { return InvalidState; }
      var i := FindByHandle(h);
      if i == |slots| { return InvalidArg; }
      var s := slots[i];
      if s.path.live || !s.io.attached { return InvalidState; }
      if s.state != Degraded && s.state != CreateWait && s.state != ClosedRecoverable { return InvalidState; }
      slots := slots[i := OnEvent(s, ManualReactivate(r))];
      phase := Up(WithPath(r, phase.link));
      if slots[i].state != Validating { return EngineError; }
      return Ok;
    }

    /** cb_path_removed. */
    method OnPathRemoved(id: nat, now: nat)
      requires phase.Up? && id in phase.link.alive
      modifies this
      ensures View() == Step(old(View()), PathRemoved(id, now))
    {
      var i := FindByPathId(id);
      if i < |slots| { slots := slots[i := OnEvent(slots[i], XquicRemoved(now))]; }
      phase := Up(phase.link.(alive := phase.link.alive - {id}, strayRoot := phase.link.strayRoot && id != 0));
    }

    /** client_reset_path_runtime. */
    method ResetSlot(i: nat)
      requires phase == Resetting(i) && i < |slots|
      modifies this`slots, this`phase
      ensures View() == Step(old(View()), ResetNext)
      ensures phase == Resetting(i + 1) && |slots| == old(|slots|)
    {
      slots := slots[i := OnEvent(slots[i], ConnReset)];
      phase := Resetting(i + 1);
    }

    /** client_reset_paths_for_reconnect. */
    method ResetPaths()
      requires Inv(View()) && phase.Down?
      modifies this
      ensures Inv(View())
      ensures View() == Run(old(View()), ResetOps(old(|slots|)))
    {
      hide Inv, Step;
      assert primary < |slots| || slots == [] by { PrimaryInTable(View()); }
      ghost var before := View();
      ghost var ops := ResetOps(|slots|);
      RunKeeps(before, ops);
      OpenReset();
      assert ops[0] == BeginReset && Pass(before, ops, 0) == before;
      ResetAll(before, ops);
      assert ops[|ops| - 1] == EndReset;
      CloseReset();
      PassIsRun(before, ops, |ops|);
      assert ops[..|ops|] == ops;
    }

    method OpenReset()
      requires phase.Down?
      modifies this`phase
      ensures phase == Resetting(0) && View() == Step(old(View()), BeginReset)
    {
      phase := Resetting(0);
    }

    method CloseReset()
      requires phase == Resetting(|slots|) && (primary < |slots| || slots == [])
      modifies this`phase, this`primary
      ensures phase == Ready && View() == Step(old(View()), EndReset)
    {
      primary := NextPrimaryIdx(primary);
      phase := Ready;
    }

    method ResetAll(ghost before: Table, ghost ops: seq<Op>)
      requires ops == ResetOps(|slots|) && phase == Resetting(0) && View() == Pass(before, ops, 1)
      modifies this`slots, this`phase
      ensures |slots| == old(|slots|) && phase == Resetting(|slots|)
      ensures View() == Pass(before, ops, |ops| - 1)
    {
      hide Step;
      var i := 0;
      while i < |slots|
        invariant 0 <= i <= |slots| == old(|slots|)
        invariant phase == Resetting(i)
        invariant View() == Pass(before, ops, i + 1)
      {
        assert ops[i + 1] == ResetNext;
        ResetSlot(i);
        i := i + 1;
      }
    }

    /** cli_start_connection, as far as the table is concerned. */
    method StartConnection(granted: bool) returns (up: bool)
      requires phase.Idle? || phase.Ready?
      modifies this
      ensures View() == Step(old(View()), Start(granted))
      ensures up == phase.Up?
    {
      if (primary < |slots| && !slots[primary].io.attached) || !granted {
        phase := if phase.Idle? then Idle else Down;
        return false;
      }
      if primary < |slots| {
        slots := slots[primary := slots[primary].(state := Validating, path := Binding(true, 0))];
        phase := Up(Link({0}, false, false, false, false));
      } else {
        phase := Up(Link({0}, true, false, false, false));
      }
      return true;
    }

    /** The teardown loop of mqvpn_client_destroy. */
    method DestroyTable(read: set<nat>)
      requires !phase.Gone?
      modifies this
      ensures View() == Step(old(View()), Destroy(read))
    {
      ghost var was, l := slots, ledger;
      var i := 0;
      while i < |slots|
        invariant 0 <= i <= |slots| == |was|
        invariant forall j :: i <= j < |slots| ==> slots[j] == was[j]
        invariant ledger == FinalizeUpTo(was, i, l, read)
        invariant unchanged(`nextHandle) && unchanged(`primary) && unchanged(`multipath)
      {
        if !slots[i].io.released { FinalizeTransport(i, i in read); }
        i := i + 1;
      }
      slots := [];
      phase := Gone;
    }

    /** The per-slot part of tick_path_recovery: retry what is due, then confirm stability. */
    method RecoverSlot(i: nat, r: Result, now: nat)
      requires i < |slots| && Established(View()) && Answers(r, phase.link)
      modifies this
      ensures View() == Run(old(View()), [Retry(i, r, now), ConfirmTick(i, now)])
    {
      ghost var before := View();
      var s := slots[i];
      if (s.state == Degraded || s.state == CreateWait) && s.timers.retryAt != 0 && now >= s.timers.retryAt {
        slots := slots[i := OnEvent(s, RetryTimer(r, now))];
        phase := Up(WithPath(r, phase.link));
      }
      assert View() == Step(before, Retry(i, r, now));
      slots := slots[i := ConfirmStable(slots[i], now)];
      assert [Retry(i, r, now), ConfirmTick(i, now)][1..] == [ConfirmTick(i, now)];
      RunOne(Step(before, Retry(i, r, now)), ConfirmTick(i, now));
    }
  }

  lemma TableBounded(c: Table)
    requires Inv(c)
    ensures |c.slots| <= MAX_PATHS
  {
  }

  lemma PrimaryInTable(c: Table)
    requires Inv(c) && !c.phase.Gone?
    ensures c.primary < |c.slots| || c.slots == []
  {
  }
}

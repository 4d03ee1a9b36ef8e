/**
 The client's path table (src/mqvpn_client.c) as a step system over all slots:
 the platform's calls, xquic's notifications, the retry and validation passes,
 connection start, loss, reset and destroy. A path_event callback fires only
 after a slot's event is complete, so a pass over the table is one step per
 slot: runs also cover platform calls made from inside those callbacks.
 */
module PathTable {
  import opened PathFsm

  const MAX_PATHS := 8

  /** A live connection: the path ids xquic has, whether path 0 was created with no slot to own it,
      and the client flags that belong to the connection. */
  datatype Link = Link(alive: set<nat>, strayRoot: bool, mpReady: bool, hold: bool, established: bool)

  /** Idle: never connected. Down: the connection is gone. Resetting: in the pre-start reset, at slot
      `at`. Ready: reset and not yet started. Gone: the client was destroyed. */
  datatype Phase = Idle | Up(link: Link) | Down | Resetting(at: nat) | Ready | Gone

  /** `finalized` is history: the handles whose transport was finalised, in order. `retired` is the
      harvested telemetry, `unread` what a failing get_stats left behind, `sent` everything the
      transports ever counted. */
  datatype Ledger = Ledger(finalized: seq<nat>, retired: nat, unread: nat, sent: nat)

  datatype Table = Table(slots: seq<Slot>, nextHandle: nat, primary: nat, multipath: bool, phase: Phase, ledger: Ledger)

  function Init(multipath: bool): Table { Table([], 1, 0, multipath, Idle, Ledger([], 0, 0, 0)) }

  // ---- lookups: the first match, or |slots| ----

  function ByHandle(slots: seq<Slot>, h: int): (i: nat)
    ensures i <= |slots|
    ensures i < |slots| ==> slots[i].handle == h
    ensures forall j :: 0 <= j < i ==> slots[j].handle != h
  {
    if slots == [] || slots[0].handle == h then 0 else 1 + ByHandle(slots[1..], h)
  }

  function ByPathId(slots: seq<Slot>, id: nat): (i: nat)
    ensures i <= |slots|
    ensures i < |slots| ==> slots[i].path == Binding(true, id)
    ensures forall j :: 0 <= j < i ==> slots[j].path != Binding(true, id)
  {
    if slots == [] || slots[0].path == Binding(true, id) then 0 else 1 + ByPathId(slots[1..], id)
  }

  function FirstFree(slots: seq<Slot>): (i: nat)
    ensures i <= |slots|
    ensures i < |slots| ==> slots[i].state == ClosedFree
    ensures forall j :: 0 <= j < i ==> slots[j].state != ClosedFree
  {
    if slots == [] || slots[0].state == ClosedFree then 0 else 1 + FirstFree(slots[1..])
  }

  // ---- pieces of the operations ----

  function Put(c: Table, i: nat, s: Slot): Table
    requires i < |c.slots|
  {
    c.(slots := c.slots[i := s])
  }

  /** client_finalize_transport: harvest the telemetry if it can be read, then release. */
  function Harvest(l: Ledger, s: Slot, readable: bool): Ledger {
    l.(finalized := l.finalized + [s.handle],
       retired := l.retired + (if readable then s.io.tx else 0),
       unread := l.unread + (if readable then 0 else s.io.tx))
  }

  /** xquic's answer to a path request: an id it does not have already, or a refusal. */
  predicate Answers(r: Result, link: Link) { r.Created? ==> r.id !in link.alive }

  function WithPath(r: Result, link: Link): Link {
    if r.Created? then link.(alive := link.alive + {r.id}) else link
  }

  /** One path request made for slot i. */
  function Request(c: Table, i: nat, r: Result, e: Event): Table
    requires i < |c.slots| && c.phase.Up?
  {
    Put(c, i, OnEvent(c.slots[i], e)).(phase := Up(WithPath(r, c.phase.link)))
  }

  predicate MayActivate(c: Table) {
    c.phase.Up? && c.phase.link.mpReady && c.multipath && !c.phase.link.hold
  }

  predicate Established(c: Table) { c.phase.Up? && c.phase.link.mpReady && c.phase.link.established }

  /** reactivate_slot_eligible. */
  predicate Eligible(s: Slot) {
    !s.path.live && s.io.attached && (s.state == Degraded || s.state == CreateWait || s.state == ClosedRecoverable)
  }

  predicate RetryDue(s: Slot, now: nat) {
    (s.state == Degraded || s.state == CreateWait) && s.timers.retryAt != 0 && now >= s.timers.retryAt
  }

  predicate Candidate(s: Slot) { s.io.attached && !Closed(s.state) }

  /** The slot index k places after `from`, around the table. */
  function Ahead(n: nat, from: nat, k: nat): (i: nat)
    requires n > 0
    ensures i < n
    decreases k
  {
    if k == 0 then (if from < n then from else 0)
    else
      var p := Ahead(n, from, k - 1);
      if p + 1 == n then 0 else p + 1
  }

  /** client_next_primary_idx: the first candidate in cyclic order after `from`, or `from`. */
  function NextPrimary(slots: seq<Slot>, from: nat, k: nat): nat
    requires slots != [] && 1 <= k <= |slots| + 1
    decreases |slots| + 1 - k
  {
    if k > |slots| then from
    else if Candidate(slots[Ahead(|slots|, from, k)]) then Ahead(|slots|, from, k)
    else NextPrimary(slots, from, k + 1)
  }

  function Rotated(slots: seq<Slot>, primary: nat): nat {
    if slots == [] then 0 else NextPrimary(slots, primary, 1)
  }

  function NewSlot(h: nat): Slot { OnEvent(Installed(h), Add) }

  /** mqvpn_client_add_path up to the ADD event: reuse a free slot, else append, else refuse. */
  function Added(c: Table): Table {
    var i := FirstFree(c.slots);
    if i < |c.slots| then Put(c, i, NewSlot(c.nextHandle)).(nextHandle := c.nextHandle + 1)
    else if |c.slots| < MAX_PATHS then c.(slots := c.slots + [NewSlot(c.nextHandle)], nextHandle := c.nextHandle + 1)
    else c
  }

  function Dropped(c: Table, h: int): Table {
    var i := ByHandle(c.slots, h);
    if i == |c.slots| then c else Put(c, i, OnEvent(c.slots[i], Drop))
  }

  /** mqvpn_client_on_platform_path_released. */
  function ReleasedBy(c: Table, h: int, readable: bool): Table {
    var i := ByHandle(c.slots, h);
    if i == |c.slots| then c
    else
      var s := c.slots[i];
      if s.state != ClosedDropped || s.io.released || !s.io.installed then c
      else Put(c, i, OnEvent(Finalized(s), TransportReleased)).(ledger := Harvest(c.ledger, s, readable))
  }

  /** cli_start_connection: refused while the primary has no transport; on success xquic has path 0,
      bound to the primary slot if there is one. */
  function Started(c: Table, granted: bool): Table {
    var own := c.primary < |c.slots|;
    if (own && !c.slots[c.primary].io.attached) || !granted then c.(phase := if c.phase.Idle? then Idle else Down)
    else
      var c' := if own then Put(c, c.primary, c.slots[c.primary].(state := Validating, path := Binding(true, 0))) else c;
      c'.(phase := Up(Link({0}, !own, false, false, false)))
  }

  function Unbound(c: Table, id: nat, now: nat): Table
    requires c.phase.Up?
  {
    var link := c.phase.link;
    var c' := c.(phase := Up(link.(alive := link.alive - {id}, strayRoot := link.strayRoot && id != 0)));
    var i := ByPathId(c.slots, id);
    if i == |c.slots| then c' else Put(c', i, OnEvent(c.slots[i], XquicRemoved(now)))
  }

  /** mqvpn_client_destroy finalises, in slot order, every transport still owed a release. */
  function FinalizeUpTo(slots: seq<Slot>, k: nat, l: Ledger, readable: set<nat>): Ledger
    requires k <= |slots|
  {
    if k == 0 then l
    else
      var l' := FinalizeUpTo(slots, k - 1, l, readable);
      if slots[k - 1].io.released then l' else Harvest(l', slots[k - 1], k - 1 in readable)
  }

  // ---- steps ----

  datatype Op =
    | AddPath
    | DropPath(h: int)
    | RemovePath(h: int)
    | Release(h: int, readable: bool)
    | Activate(i: nat, r: Result, now: nat)
    | Retry(i: nat, r: Result, now: nat)
    | Reactivate(h: int, r: Result)
    | Validated(i: nat, standby: bool, now: nat)
    | ConfirmTick(i: nat, now: nat)
    | PathRemoved(id: nat, now: nat)
    | TransportSent(i: nat, n: nat)
    | BecomeReady
    | SetHold(on: bool)
    | Establish
    | Start(granted: bool)
    | ConnLost
    | BeginReset
    | ResetNext
    | EndReset
    | Destroy(read: set<nat>)

  /** Calls with a handle. */
  function OnHandle(c: Table, op: Op): Table
    requires op.DropPath? || op.RemovePath? || op.Release? || op.Reactivate?
  {
    match op
    case DropPath(h) => Dropped(c, h)
    case RemovePath(h) =>
      var i := ByHandle(c.slots, h);
      if i < |c.slots| && c.slots[i].state == ClosedFree then c else Dropped(c, h)
    case Release(h, readable) => ReleasedBy(c, h, readable)
    case Reactivate(h, r) =>
      var i := ByHandle(c.slots, h);
      if !Established(c) || !Answers(r, c.phase.link) || i == |c.slots| || !Eligible(c.slots[i]) then c
      else Request(c, i, r, ManualReactivate(r))
  }

  /** The library's own passes over slot i. */
  function OnSlot(c: Table, op: Op): Table
    requires op.Activate? || op.Retry? || op.Validated? || op.ConfirmTick? || op.TransportSent?
  {
    if op.i >= |c.slots| then c
    else
      var s := c.slots[op.i];
      match op
      case Activate(i, r, now) =>
        if !MayActivate(c) || !Answers(r, c.phase.link) || s.state != Pending || s.path.live then c
        else Request(c, i, r, ActivateRequested(r, now))
      case Retry(i, r, now) =>
        if !Established(c) || !Answers(r, c.phase.link) || !RetryDue(s, now) then c
        else Request(c, i, r, RetryTimer(r, now))
      case Validated(i, standby, now) => Put(c, i, OnEvent(s, ValidationOk(standby, now)))
      case ConfirmTick(i, now) => Put(c, i, ConfirmStable(s, now))
      case TransportSent(i, n) =>
        if !s.io.installed then c
        else Put(c, i, s.(io := s.io.(tx := s.io.tx + n))).(ledger := c.ledger.(sent := c.ledger.sent + n))
  }

  /** What happens to the connection. */
  function OnLink(c: Table, op: Op): Table
    requires !(op.AddPath? || op.DropPath? || op.RemovePath? || op.Release? || op.Reactivate? || op.Activate?
               || op.Retry? || op.Validated? || op.ConfirmTick? || op.TransportSent?)
  {
    match op
    case PathRemoved(id, now) => if c.phase.Up? && id in c.phase.link.alive then Unbound(c, id, now) else c
    case BecomeReady => if c.phase.Up? then c.(phase := Up(c.phase.link.(mpReady := true))) else c
    case SetHold(on) => if c.phase.Up? then c.(phase := Up(c.phase.link.(hold := on))) else c
    case Establish => if c.phase.Up? then c.(phase := Up(c.phase.link.(established := true))) else c
    case Start(granted) => if c.phase.Idle? || c.phase.Ready? then Started(c, granted) else c
    case ConnLost => if c.phase.Up? then c.(phase := Down) else c
    case BeginReset => if c.phase.Down? then c.(phase := Resetting(0)) else c
    case ResetNext =>
      if c.phase.Resetting? && c.phase.at < |c.slots|
      then Put(c, c.phase.at, OnEvent(c.slots[c.phase.at], ConnReset)).(phase := Resetting(c.phase.at + 1)) else c
    case EndReset =>
      if c.phase.Resetting? && c.phase.at >= |c.slots|
      then c.(primary := Rotated(c.slots, c.primary), phase := Ready) else c
    case Destroy(read) => c.(slots := [], ledger := FinalizeUpTo(c.slots, |c.slots|, c.ledger, read), phase := Gone)
  }

  function Step(c: Table, op: Op): Table {
    if c.phase.Gone? then c
    else match op
    case AddPath => Added(c)
    case DropPath(_) => OnHandle(c, op)
    case RemovePath(_) => OnHandle(c, op)
    case Release(_, _) => OnHandle(c, op)
    case Reactivate(_, _) => OnHandle(c, op)
    case Activate(_, _, _) => OnSlot(c, op)
    case Retry(_, _, _) => OnSlot(c, op)
    case Validated(_, _, _) => OnSlot(c, op)
    case ConfirmTick(_, _) => OnSlot(c, op)
    case TransportSent(_, _) => OnSlot(c, op)
    case _ => OnLink(c, op)
  }

  function Run(c: Table, ops: seq<Op>): Table
    decreases ops
  {
    if ops == [] then c else Run(Step(c, ops[0]), ops[1..])
  }
}

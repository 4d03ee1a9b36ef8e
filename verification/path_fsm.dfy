/**
 The lifecycle of one path slot (src/path_state_machine.c): nine states, ten
 events, and the per-state field constraints of path_invariant_check.
 */
module PathFsm {
  const MAX_RETRIES := 6
  const RETRY_DELAY_US := 5_000_000
  const RETRY_MAX_DELAY_US := 60_000_000
  const STABLE_THRESHOLD_US := 30_000_000

  datatype State = Pending | CreateWait | Validating | Active | Standby | Degraded
                 | ClosedRecoverable | ClosedDropped | ClosedFree

  /** The transport half of a slot: the platform's I/O and what is owed to it. `tx` is
      the cumulative counter the transport itself keeps. */
  datatype Transport = Transport(attached: bool, released: bool, installed: bool, tx: nat)

  /** The xquic half: whether a QUIC path is bound to the slot, and its id. */
  datatype Binding = Binding(live: bool, id: nat)

  datatype Timers = Timers(retryAt: nat, retries: nat, stableSince: nat)

  datatype Slot = Slot(handle: nat, state: State, io: Transport, path: Binding, timers: Timers)

  datatype Result = Created(id: nat) | Transient | Permanent

  datatype Event =
    | ActivateRequested(r: Result, now: nat)
    | RetryTimer(r: Result, now: nat)
    | ManualReactivate(r: Result)
    | ValidationOk(standby: bool, now: nat)
    | XquicRemoved(now: nat)
    | Drop
    | Add
    | ConnReset
    | TransportReleased

  const UNBOUND := Binding(false, 0)

  /** path_invariant_check, and a transport is installed exactly while a release is owed. */
  predicate Legal(s: Slot) {
    && s.io.released == !s.io.installed
    && match s.state
       case Pending => Holds(s) && s.path == UNBOUND && s.timers.retryAt == 0 && s.timers.stableSince == 0
       case CreateWait => Holds(s) && !s.path.live && s.timers.retryAt != 0
       case Validating => Holds(s) && s.path.live && s.timers.retryAt == 0
       case Active => Holds(s) && s.path.live && s.timers.retryAt == 0
       case Standby => Holds(s) && s.path.live && s.timers.retryAt == 0
       case Degraded => Holds(s) && s.path == UNBOUND && s.timers.retryAt != 0 && s.timers.stableSince == 0
       case ClosedRecoverable => Holds(s) && s.path == UNBOUND && s.timers.retryAt == 0 && s.timers.stableSince == 0
       case ClosedDropped => !s.io.attached && s.timers.retryAt == 0 && s.timers.stableSince == 0
       case ClosedFree => !s.io.attached && s.io.released && s.path == UNBOUND && s.timers.retryAt == 0 && s.timers.stableSince == 0
  }

  predicate Holds(s: Slot) { s.io.attached && !s.io.released }

  predicate Closed(st: State) { st.ClosedRecoverable? || st.ClosedDropped? || st.ClosedFree? }

  /** path_recreate_backoff: 5 s doubling per failure after the first, capped at 60 s. */
  function Backoff(retries: nat): (d: nat)
    ensures RETRY_DELAY_US <= d <= RETRY_MAX_DELAY_US
    ensures retries >= 5 ==> d == RETRY_MAX_DELAY_US
  {
    if retries <= 1 then RETRY_DELAY_US
    else if retries == 2 then 10_000_000
    else if retries == 3 then 20_000_000
    else if retries == 4 then 40_000_000
    else RETRY_MAX_DELAY_US
  }

  method RecreateBackoff(retries: int) returns (delay: nat)
    ensures delay == Backoff(if retries < 0 then 0 else retries)
  {
    delay := RETRY_DELAY_US;
    var r := 1;
    while r < retries && delay < RETRY_MAX_DELAY_US
      invariant r == 1 || r <= retries
      invariant delay == (match r case 1 => 5_000_000 case 2 => 10_000_000 case 3 => 20_000_000 case 4 => 40_000_000 case _ => 80_000_000)
      invariant 1 <= r <= 5
    {
      delay := delay * 2;
      r := r + 1;
    }
    if delay > RETRY_MAX_DELAY_US {
      delay := RETRY_MAX_DELAY_US;
    }
  }

  /** apply_failure_with_retry_check. */
  function Failed(s: Slot, target: State, now: nat): Slot {
    var retries := s.timers.retries + 1;
    if retries >= MAX_RETRIES then s.(state := ClosedRecoverable, path := UNBOUND, timers := Timers(0, retries, 0))
    else s.(state := target, path := UNBOUND, timers := Timers(now + Backoff(retries), retries, 0))
  }

  function Bound(s: Slot, id: nat): Slot {
    s.(state := Validating, path := Binding(true, id), timers := s.timers.(retryAt := 0))
  }

  function Attempted(s: Slot, r: Result, target: State, now: nat): Slot {
    match r
    case Created(id) => Bound(s, id)
    case Transient => Failed(s, target, now)
    case Permanent => s.(state := ClosedRecoverable, path := UNBOUND, timers := Timers(0, s.timers.retries, 0))
  }

  /** maybe_transition_dropped_to_free. */
  function FreeIfDone(s: Slot): Slot {
    if s.state == ClosedDropped && s.io.released && s.path == UNBOUND then s.(state := ClosedFree) else s
  }

  /** path_on_event. */
  function OnEvent(s: Slot, e: Event): Slot {
    match e
    case ActivateRequested(r, now) => if s.state == Pending then Attempted(s, r, CreateWait, now) else s
    case RetryTimer(r, now) =>
      if s.state == CreateWait || s.state == Degraded then Attempted(s, r, s.state, now) else s
    case ManualReactivate(r) =>
      if (s.state == ClosedRecoverable || s.state == CreateWait || s.state == Degraded) && r.Created? then Bound(s, r.id) else s
    case ValidationOk(standby, now) =>
      if s.state != Validating then s
      else s.(state := if standby then Standby else Active, timers := s.timers.(stableSince := now))
    case XquicRemoved(now) =>
      (match s.state
       case Validating => Failed(s, CreateWait, now)
       case Active => Failed(s, Degraded, now)
       case Standby => Failed(s, Degraded, now)
       case ClosedDropped => FreeIfDone(s.(path := UNBOUND))
       case _ => s)
    case Drop =>
      if s.state == ClosedDropped || s.state == ClosedFree then s
      else s.(state := ClosedDropped, io := s.io.(attached := false), timers := Timers(0, s.timers.retries, 0))
    case Add =>
      if s.state != ClosedFree then s
      else s.(state := Pending, io := s.io.(attached := true, released := false))
    case ConnReset =>
      var s' := s.(path := UNBOUND, timers := Timers(0, 0, 0));
      if s.io.attached then s'.(state := Pending) else FreeIfDone(s')
    case TransportReleased =>
      if s.state != ClosedDropped then s else FreeIfDone(s.(io := s.io.(released := true)))
  }

  /** Unsigned 64-bit difference. */
  function Elapsed(now: nat, since: nat): nat { (now - since) % 0x1_0000_0000_0000_0000 }

  /** path_fsm_tick_confirm_stable. */
  function ConfirmStable(s: Slot, now: nat): Slot {
    if (s.state == Active || s.state == Standby) && s.timers.stableSince != 0 && s.path.live
       && Elapsed(now, s.timers.stableSince) >= STABLE_THRESHOLD_US
    then s.(timers := s.timers.(retries := 0, stableSince := now)) else s
  }

  /** What mqvpn_client_add_path writes before it dispatches ADD. */
  function Installed(handle: nat): Slot {
    Slot(handle, ClosedFree, Transport(false, true, true, 0), UNBOUND, Timers(0, 0, 0))
  }

  /** client_finalize_transport clears the installed transport. */
  function Finalized(s: Slot): Slot { s.(io := s.io.(installed := false)) }

  // ---- every event keeps a legal slot legal ----

  /** The events dispatched without a caller's own slot writes. */
  predicate Bare(e: Event) { !e.Add? && !e.TransportReleased? }

  lemma EventKeepsLegal(s: Slot, e: Event)
    requires Legal(s) && Bare(e)
    ensures Legal(OnEvent(s, e))
    ensures OnEvent(s, e).handle == s.handle
    ensures OnEvent(s, e).io.installed == s.io.installed && OnEvent(s, e).io.released == s.io.released
  {
  }

  lemma AddedIsLegal(handle: nat)
    ensures Legal(OnEvent(Installed(handle), Add)) && OnEvent(Installed(handle), Add).state == Pending
  {
  }

  lemma ReleasedIsLegal(s: Slot)
    requires Legal(s) && s.state == ClosedDropped && !s.io.released
    ensures Legal(OnEvent(Finalized(s), TransportReleased)) && OnEvent(Finalized(s), TransportReleased).io.released
  {
  }

  lemma StableKeepsLegal(s: Slot, now: nat)
    requires Legal(s)
    ensures Legal(ConfirmStable(s, now)) && ConfirmStable(s, now).handle == s.handle
    ensures ConfirmStable(s, now).io == s.io && ConfirmStable(s, now).path == s.path
  {
  }

  /** CLOSED_FREE is entered only with nothing owed and nothing bound, and left only by ADD. */
  lemma FreeIsQuiescent(s: Slot, e: Event)
    requires Legal(s) && Bare(e)
    ensures OnEvent(s, e).state == ClosedFree ==> OnEvent(s, e).io.released && !OnEvent(s, e).path.live
    ensures s.state == ClosedFree ==> OnEvent(s, e).state == ClosedFree
  {
  }

  /** A slot that waits to try again has failed before, and has tries left. */
  predicate Hopeful(s: Slot) {
    s.state == CreateWait || s.state == Degraded ==> 1 <= s.timers.retries < MAX_RETRIES
  }

  lemma EventKeepsHopeful(s: Slot, e: Event)
    requires Hopeful(s) && (e.ConnReset? ==> Legal(s))
    ensures Hopeful(OnEvent(s, e))
  {
  }

  /** Retry timers firing at the given times, all refused for now. */
  function Refused(s: Slot, times: seq<nat>): Slot
    decreases times
  {
    if times == [] then s else Refused(OnEvent(s, RetryTimer(Transient, times[0])), times[1..])
  }

  /** A waiting slot escapes: it stays in its state, armed, for as long as retries are left, and the last
      refusal closes it, recoverable. */
  lemma {:induction false} RefusalsClose(s: Slot, times: seq<nat>)
    requires Legal(s) && (s.state == CreateWait || s.state == Degraded)
    requires s.timers.retries + |times| <= MAX_RETRIES && s.timers.retries < MAX_RETRIES
    ensures var t := Refused(s, times);
            && t.timers.retries == s.timers.retries + |times|
            && (t.timers.retries < MAX_RETRIES ==> t.state == s.state && t.timers.retryAt != 0)
            && (t.timers.retries == MAX_RETRIES ==> t.state == ClosedRecoverable && t.timers.retryAt == 0)
    decreases times
  {
    if |times| == 1 {
      assert times[1..] == [];
    } else if |times| > 1 {
      var t := OnEvent(s, RetryTimer(Transient, times[0]));
      EventKeepsLegal(s, RetryTimer(Transient, times[0]));
      RefusalsClose(t, times[1..]);
    }
  }

  /** A dropped slot becomes free exactly when both its release and the removal of its path, in either
      order, or a reset, have happened. */
  lemma FreedExactly(s: Slot, now: nat)
    requires Legal(s) && s.state == ClosedDropped
    ensures !s.io.released ==> (OnEvent(Finalized(s), TransportReleased).state == ClosedFree <==> s.path == UNBOUND)
    ensures OnEvent(s, XquicRemoved(now)).state == ClosedFree <==> s.io.released
    ensures OnEvent(s, ConnReset).state == ClosedFree <==> s.io.released
    ensures !s.io.released ==> OnEvent(OnEvent(Finalized(s), TransportReleased), XquicRemoved(now)).state == ClosedFree
    ensures !s.io.released ==> OnEvent(Finalized(OnEvent(s, XquicRemoved(now))), TransportReleased).state == ClosedFree
  {
  }
}

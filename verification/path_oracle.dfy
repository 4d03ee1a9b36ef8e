/**
 The repository's TLA+ description of the slot lifecycle
 (formal/PathSlotFsm.tla), and the proof that the code refines it for every
 slot, with real timers and an unbounded retry counter.
 */
module PathOracle {
  import opened Common
  import opened PathFsm

  // ---- the TLA+ module ----

  /** Timers are armed or not; the retry counter stops at the cap. */
  datatype Abstract = Abstract(state: State, attached: bool, live: bool, released: bool, xqcId: nat,
                               retries: nat, retryArmed: bool, stableArmed: bool)

  /** What the handler did to a field. */
  datatype Update = KEEP | ZERO | ARM | NOW | INC

  datatype Handled = R(slot: Abstract, retryUpd: Update, stableUpd: Update, retriesUpd: Update)

  datatype Trigger = ACTIVATE | RETRY | VALIDATION_OK | XQUIC_REMOVED | MANUAL_REACTIVATE | DROP | ADD
                   | CONN_RESET | TRANSPORT_RELEASED | STABLE_TICK

  datatype Context = Context(result: Result, target: State, reached: bool)

  predicate LegalAbstract(s: Abstract) {
    var attachedOk := s.attached && !s.released;
    match s.state
    case Pending => attachedOk && !s.live && s.xqcId == 0 && !s.retryArmed && !s.stableArmed
    case CreateWait => attachedOk && !s.live && s.retryArmed
    case Validating => attachedOk && s.live && !s.retryArmed
    case Active => attachedOk && s.live && !s.retryArmed
    case Standby => attachedOk && s.live && !s.retryArmed
    case Degraded => attachedOk && !s.live && s.xqcId == 0 && s.retryArmed && !s.stableArmed
    case ClosedRecoverable => attachedOk && !s.live && s.xqcId == 0 && !s.retryArmed && !s.stableArmed
    case ClosedDropped => !s.attached && !s.retryArmed && !s.stableArmed
    case ClosedFree => !s.attached && s.released && !s.live && s.xqcId == 0 && !s.retryArmed && !s.stableArmed
  }

  function RetryZero(s: Abstract): Update { if s.retryArmed then ZERO else KEEP }
  function StableZero(s: Abstract): Update { if s.stableArmed then ZERO else KEEP }
  function RetriesZero(s: Abstract): Update { if s.retries != 0 then ZERO else KEEP }

  function NoOp(s: Abstract): Handled { R(s, KEEP, KEEP, KEEP) }

  function FreeGate(s: Abstract): Abstract {
    if s.state == ClosedDropped && s.released && !s.live && s.xqcId == 0 then s.(state := ClosedFree) else s
  }

  function ApplyFailure(s: Abstract, target: State): Handled {
    var capped := s.retries + 1 >= MAX_RETRIES;
    var s2 := s.(live := false, xqcId := 0, stableArmed := false,
                 retries := if s.retries < MAX_RETRIES then s.retries + 1 else s.retries,
                 retryArmed := !capped,
                 state := if capped then ClosedRecoverable else target);
    R(s2, if capped then RetryZero(s) else ARM, StableZero(s), INC)
  }

  function ActivateOk(s: Abstract, newId: nat): Handled {
    R(s.(xqcId := newId, live := true, retryArmed := false, state := Validating), RetryZero(s), KEEP, KEEP)
  }

  function PermanentFail(s: Abstract): Handled {
    R(s.(live := false, xqcId := 0, stableArmed := false, retryArmed := false, state := ClosedRecoverable),
      RetryZero(s), StableZero(s), KEEP)
  }

  function Outcome(s: Abstract, r: Result, target: State): Handled {
    match r
    case Created(id) => ActivateOk(s, id)
    case Transient => ApplyFailure(s, target)
    case Permanent => PermanentFail(s)
  }

  function OnDropLike(s: Abstract): Handled {
    if s.state == ClosedDropped || s.state == ClosedFree then NoOp(s)
    else R(s.(attached := false, retryArmed := false, stableArmed := false, state := ClosedDropped), RetryZero(s), StableZero(s), KEEP)
  }

  function OnReset(s: Abstract): Handled {
    var s2 := s.(live := false, xqcId := 0, retryArmed := false, retries := 0, stableArmed := false);
    R(if s.attached then s2.(state := Pending) else FreeGate(s2), RetryZero(s), StableZero(s), RetriesZero(s))
  }

  function OnRemoved(s: Abstract): Handled {
    match s.state
    case Validating => ApplyFailure(s, CreateWait)
    case Active => ApplyFailure(s, Degraded)
    case Standby => ApplyFailure(s, Degraded)
    case ClosedDropped => R(FreeGate(s.(live := false, xqcId := 0)), KEEP, KEEP, KEEP)
    case _ => NoOp(s)
  }

  function Handle(s: Abstract, ev: Trigger, ctx: Context): Handled {
    match ev
    case ACTIVATE => if s.state != Pending then NoOp(s) else Outcome(s, ctx.result, CreateWait)
    case RETRY => if s.state != CreateWait && s.state != Degraded then NoOp(s) else Outcome(s, ctx.result, s.state)
    case VALIDATION_OK =>
      if s.state != Validating then NoOp(s) else R(s.(stableArmed := true, state := ctx.target), KEEP, NOW, KEEP)
    case XQUIC_REMOVED => OnRemoved(s)
    case MANUAL_REACTIVATE =>
      if (s.state == ClosedRecoverable || s.state == CreateWait || s.state == Degraded) && ctx.result.Created?
      then ActivateOk(s, ctx.result.id) else NoOp(s)
    case DROP => OnDropLike(s)
    case ADD =>
      if s.state != ClosedFree then NoOp(s)
      else R(s.(attached := true, released := false, state := Pending), KEEP, KEEP, KEEP)
    case CONN_RESET => OnReset(s)
    case TRANSPORT_RELEASED =>
      if s.state != ClosedDropped then NoOp(s) else R(FreeGate(s.(released := true)), KEEP, KEEP, KEEP)
    case STABLE_TICK =>
      if (s.state == Active || s.state == Standby) && s.stableArmed && s.live && ctx.reached
      then R(s.(retries := 0), KEEP, NOW, RetriesZero(s)) else NoOp(s)
  }

  // ---- refinement ----

  /** The slot the TLA+ module sees. */
  function Abstracted(s: Slot): Abstract {
    Abstract(s.state, s.io.attached, s.path.live, s.io.released, s.path.id, Min(s.timers.retries, MAX_RETRIES),
             s.timers.retryAt != 0, s.timers.stableSince != 0)
  }

  function TriggerOf(e: Event): Trigger {
    match e
    case ActivateRequested(_, _) => ACTIVATE
    case RetryTimer(_, _) => RETRY
    case ManualReactivate(_) => MANUAL_REACTIVATE
    case ValidationOk(_, _) => VALIDATION_OK
    case XquicRemoved(_) => XQUIC_REMOVED
    case Drop => DROP
    case Add => ADD
    case ConnReset => CONN_RESET
    case TransportReleased => TRANSPORT_RELEASED
  }

  function ContextOf(e: Event): Context {
    Context(if e.ActivateRequested? || e.RetryTimer? || e.ManualReactivate? then e.r else Transient,
            if e.ValidationOk? && e.standby then Standby else Active, false)
  }

  function Now(e: Event): nat {
    if e.ActivateRequested? || e.RetryTimer? || e.ValidationOk? || e.XquicRemoved? then e.now else 0
  }

  /** The concrete fields changed the way the update classes say. */
  predicate Updated(s: Slot, t: Slot, h: Handled, now: nat) {
    && t.timers.retryAt == (match h.retryUpd
                            case KEEP => s.timers.retryAt
                            case ARM => now + Backoff(t.timers.retries)
                            case _ => 0)
    && t.timers.stableSince == (match h.stableUpd case KEEP => s.timers.stableSince case NOW => now case _ => 0)
    && t.timers.retries == (match h.retriesUpd case KEEP => s.timers.retries case INC => s.timers.retries + 1 case _ => 0)
  }

  /** The event changes the timers and the counter as the module says, and its slot commutes with the
      abstraction unless a validation happens at clock zero. */
  predicate Refines(s: Slot, e: Event) {
    var h := Handle(Abstracted(s), TriggerOf(e), ContextOf(e));
    var t := OnEvent(s, e);
    && Updated(s, t, h, Now(e))
    && (Abstracted(t) == h.slot <==> !AtClockZero(s, e))
    && t.handle == s.handle && t.state == h.slot.state
  }

  predicate AtClockZero(s: Slot, e: Event) { e.ValidationOk? && s.state == Validating && e.now == 0 }

  lemma RequestRefines(s: Slot, e: Event)
    requires e.ActivateRequested? || e.RetryTimer?
    ensures Refines(s, e)
  {
    hide Attempted, Outcome;
    AttemptRefines(s, e.r, if e.ActivateRequested? then CreateWait else s.state, e.now);
  }

  lemma RemovedRefines(s: Slot, now: nat)
    ensures Refines(s, XquicRemoved(now))
  {
    hide Failed, ApplyFailure, FreeGate, FreeIfDone;
    match s.state {
      case Validating => FailureRefines(s, CreateWait, now);
      case Active => FailureRefines(s, Degraded, now);
      case Standby => FailureRefines(s, Degraded, now);
      case ClosedDropped => FreeRefines(s.(path := UNBOUND));
      case _ =>
    }
  }

  lemma FreeRefines(s: Slot)
    ensures var t := FreeIfDone(s); Abstracted(t) == FreeGate(Abstracted(s)) && t.handle == s.handle && t.timers == s.timers
  {
  }

  lemma ManualRefines(s: Slot, r: Result)
    ensures Refines(s, ManualReactivate(r))
  {
  }

  lemma ValidationRefines(s: Slot, standby: bool, now: nat)
    ensures Refines(s, ValidationOk(standby, now))
  {
  }

  lemma DropRefines(s: Slot)
    ensures Refines(s, Drop) && Refines(s, Add)
  {
  }

  lemma ReleaseRefines(s: Slot)
    ensures Refines(s, TransportReleased)
  {
  }

  lemma ResetRefines(s: Slot)
    ensures Refines(s, ConnReset)
  {
  }

  /** Every event on every slot refines the TLA+ module, except exactly a validation at clock zero,
      which leaves the stability timer unarmed. */
  lemma EventRefines(s: Slot, e: Event)
    ensures Refines(s, e)
  {
    hide Refines;
    match e
    case ActivateRequested(_, _) => RequestRefines(s, e);
    case RetryTimer(_, _) => RequestRefines(s, e);
    case ManualReactivate(r) => ManualRefines(s, r);
    case ValidationOk(standby, now) => ValidationRefines(s, standby, now);
    case XquicRemoved(now) => RemovedRefines(s, now);
    case Drop => DropRefines(s);
    case Add => DropRefines(s);
    case ConnReset => ResetRefines(s);
    case TransportReleased => ReleaseRefines(s);
  }

  lemma FailureRefines(s: Slot, target: State, now: nat)
    ensures var h := ApplyFailure(Abstracted(s), target); var t := Failed(s, target, now);
            Abstracted(t) == h.slot && Updated(s, t, h, now) && t.handle == s.handle && t.state == h.slot.state
  {
  }

  lemma AttemptRefines(s: Slot, r: Result, target: State, now: nat)
    ensures var h := Outcome(Abstracted(s), r, target); var t := Attempted(s, r, target, now);
            Abstracted(t) == h.slot && Updated(s, t, h, now) && t.handle == s.handle && t.state == h.slot.state
  {
    FailureRefines(s, target, now);
  }

  /** path_fsm_tick_confirm_stable goes through. */
  predicate Confirms(s: Slot, now: nat) {
    && (s.state == Active || s.state == Standby) && s.timers.stableSince != 0 && s.path.live
    && Elapsed(now, s.timers.stableSince) >= STABLE_THRESHOLD_US
  }

  /** The stability tick changes the timers and the counter as the module says, and commutes with the
      abstraction unless it confirms at clock zero. */
  lemma StableRefines(s: Slot, now: nat)
    ensures var reached := Elapsed(now, s.timers.stableSince) >= STABLE_THRESHOLD_US;
            var h := Handle(Abstracted(s), STABLE_TICK, Context(Transient, Active, reached));
            var t := ConfirmStable(s, now);
            Updated(s, t, h, now) && (Abstracted(t) == h.slot <==> !(Confirms(s, now) && now == 0))
  {
  }

  /** The constraints the code asserts are the module's. */
  lemma LegalRefines(s: Slot)
    ensures Legal(s) ==> LegalAbstract(Abstracted(s))
    ensures LegalAbstract(Abstracted(s)) && s.io.released == !s.io.installed && (s.path.live || s.path.id == 0 || s.state == CreateWait)
            ==> Legal(s)
  {
  }
}

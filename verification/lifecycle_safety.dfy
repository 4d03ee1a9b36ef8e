/**
 What every run of the connection lifecycle keeps, with the embedder calling
 back from any callback that allows it.
 */
module LifecycleSafety {
  import opened Lifecycle

  predicate Follows(moves: seq<Move>, i: nat)
    requires i < |moves|
  {
    moves[i].from == if i == 0 then IDLE else moves[i - 1].to
  }

  predicate Justified(moves: seq<Move>, i: nat, strikes: set<nat>)
    requires i < |moves|
  {
    if i in strikes then moves[i] == Move(CLOSED, TUNNEL_READY) else Valid(moves[i].from, moves[i].to)
  }

  /** Every recorded change starts where the last one ended; it is in the table unless struck, and a
      struck one is the change from CLOSED to TUNNEL_READY. */
  predicate HistoryOk(moves: seq<Move>, strikes: set<nat>, state: State) {
    && state == (if moves == [] then IDLE else moves[|moves| - 1].to)
    && (forall i {:trigger Follows(moves, i)} :: 0 <= i < |moves| ==> Follows(moves, i))
    && (forall i {:trigger Justified(moves, i, strikes)} :: 0 <= i < |moves| ==> Justified(moves, i, strikes))
    && (forall k {:trigger k in strikes} :: k in strikes ==> k < |moves|)
  }

  predicate ConnOk(c: Client) {
    match c.conn
    case None => c.state == IDLE || c.state == RECONNECTING || c.state == CLOSED
    case Live(closing, shaken) =>
      && c.state != IDLE && c.state != RECONNECTING
      && (!closing && !shaken ==> c.state == CONNECTING)
      && (!closing && shaken ==> c.state == AUTHENTICATING || c.state == TUNNEL_READY || c.state == ESTABLISHED)
      && (c.state == CLOSED ==> closing && c.shutting)
  }

  /** No call finds an IDLE or RECONNECTING client with a connection, a connecting or connected one
      without, or a RECONNECTING one that has neither an armed timer nor an attempt under way. */
  predicate Sane(x: Sight) {
    && (x.state == IDLE || x.state == RECONNECTING ==> !x.live)
    && (x.state != IDLE && x.state != RECONNECTING && x.state != CLOSED ==> x.live)
    && (x.state == RECONNECTING ==> x.armed || x.fence)
    && (x.fence ==> x.state == IDLE || x.state == RECONNECTING)
  }

  predicate SeenOk(seen: set<Sight>) { forall x {:trigger x in seen} :: x in seen ==> Sane(x) }

  predicate Inv(c: Client) {
    && SeenOk(c.past.seen)
    && HistoryOk(c.past.moves, c.past.strikes, c.state)
    && ConnOk(c)
    && (c.shutting ==> c.conn.Live? || c.state == CLOSED)
    && !c.fence
    && (c.state == RECONNECTING ==> c.retry.at != 0)
  }

  // ---- callbacks that find every door shut ----

  /** d is c, except that calls were observed. */
  predicate OnlyLooked(c: Client, d: Client) {
    d == c.(past := c.past.(seen := d.past.seen)) && c.past.seen <= d.past.seen && (SeenOk(c.past.seen) ==> SeenOk(d.past.seen))
  }

  /** Under the fence no call changes anything. */
  predicate Fenced(c: Client) {
    c.fence && c.conn.None? && (c.state == IDLE || (c.state == RECONNECTING && c.retry.at == 0))
  }

  lemma {:induction false} FencedCalls(c: Client, calls: seq<Call>)
    requires Fenced(c)
    ensures OnlyLooked(c, DoCalls(c, calls))
    decreases calls, 0
  {
    if calls != [] {
      FencedCall(Observe(c), calls[0]);
      FencedCalls(DoCall(Observe(c), calls[0]), calls[1..]);
    }
  }

  lemma {:induction false} FencedCall(c: Client, call: Call)
    requires Fenced(c)
    ensures OnlyLooked(c, DoCall(c, call))
    decreases call, 1
  {
    if call.PathCall? { FencedCalls(c, call.onPathEvent); }
    if call.Tick? { assert DoPass(c, call.pass) == c; assert DoTick(c, call) == c; }
  }

  /** Once closed, a callback inside the engine pass changes nothing. */
  predicate Shut(c: Client) { c.running && c.state == CLOSED && !c.fence }

  lemma {:induction false} ShutCalls(c: Client, calls: seq<Call>)
    requires Shut(c)
    ensures OnlyLooked(c, DoCalls(c, calls))
    decreases calls, 0
  {
    if calls != [] {
      ShutCall(Observe(c), calls[0]);
      ShutCalls(DoCall(Observe(c), calls[0]), calls[1..]);
    }
  }

  lemma {:induction false} ShutCall(c: Client, call: Call)
    requires Shut(c)
    ensures OnlyLooked(c, DoCall(c, call))
    decreases call, 1
  {
    if call.PathCall? { ShutCalls(c, call.onPathEvent); }
    if call.Tick? { assert DoPass(c, call.pass) == c; assert DoTick(c, call) == c; }
  }

  /** While the tunnel response is being handled, only a disconnect has an effect. */
  predicate Announcing(c: Client) { c.running && !c.fence && c.state == AUTHENTICATING && c.conn.Live? }

  function Hungup(c: Client): Client { Enter(AskClose(c.(shutting := true)), CLOSED, 0) }

  lemma {:induction false} AnnouncingCalls(c: Client, calls: seq<Call>)
    requires Announcing(c)
    ensures OnlyLooked(if Disconnects(calls) then Hungup(c) else c, DoCalls(c, calls))
    decreases calls, 0
  {
    if calls != [] {
      AnnouncingCall(Observe(c), calls[0]);
      var d := DoCall(Observe(c), calls[0]);
      if CallDisconnects(calls[0]) { ShutCalls(d, calls[1..]); } else { AnnouncingCalls(d, calls[1..]); }
    }
  }

  lemma {:induction false} AnnouncingCall(c: Client, call: Call)
    requires Announcing(c)
    ensures OnlyLooked(if CallDisconnects(call) then Hungup(c) else c, DoCall(c, call))
    decreases call, 1
  {
    match call
    case Disconnect(flush, pass, onChanged) =>
      var c1 := c.(shutting := true);
      assert DoPass(c1, flush) == c1 && DoPass(AskClose(c1), pass) == AskClose(c1);
      ShutCalls(Hungup(c), onChanged);
      assert DoDisconnect(c, call) == DoCalls(Hungup(c), onChanged);
    case PathCall(onPathEvent) => AnnouncingCalls(c, onPathEvent);
    case Tick(_, _, pass, _, _, _, _, _, _) =>
      assert DoPass(c, pass) == c;
      assert DoTick(c, call) == c;
    case _ =>
  }

  // ---- what a call keeps besides the invariant ----

  predicate Keeps(c: Client, d: Client) {
    && Inv(d)
    && d.running == c.running
    && (c.shutting ==> d.shutting)
    && (c.state != IDLE ==> d.state != IDLE)
    && c.past.moves <= d.past.moves
    && c.past.strikes <= d.past.strikes && c.past.seen <= d.past.seen
    && (Retiring(c) ==> Retiring(d))
  }

  /** The embedder asked to stop and no open connection is left. */
  predicate Retiring(c: Client) { c.shutting && (c.conn.Live? ==> c.conn.closing) }

  lemma KeepsTrans(a: Client, b: Client, c: Client)
    requires Keeps(a, b) && Keeps(b, c)
    ensures Keeps(a, c)
  {
  }

  lemma MoveHistory(moves: seq<Move>, strikes: set<nat>, state: State, to: State)
    requires HistoryOk(moves, strikes, state) && Valid(state, to)
    ensures HistoryOk(moves + [Move(state, to)], strikes, to)
  {
    var more := moves + [Move(state, to)];
    forall i | 0 <= i < |more| ensures Follows(more, i) { if i < |moves| { assert Follows(moves, i); } }
    forall i | 0 <= i < |more| ensures Justified(more, i, strikes) { if i < |moves| { assert Justified(moves, i, strikes); } }
  }

  lemma StruckHistory(moves: seq<Move>, strikes: set<nat>)
    requires HistoryOk(moves, strikes, CLOSED)
    ensures HistoryOk(moves + [Move(CLOSED, TUNNEL_READY)], strikes + {|moves|}, TUNNEL_READY)
  {
    var more, more' := moves + [Move(CLOSED, TUNNEL_READY)], strikes + {|moves|};
    forall i | 0 <= i < |more| ensures Follows(more, i) { if i < |moves| { assert Follows(moves, i); } }
    forall i | 0 <= i < |more| ensures Justified(more, i, more') { if i < |moves| { assert Justified(moves, i, strikes); } }
  }

  lemma ObserveKeeps(c: Client)
    requires Inv(c)
    ensures Keeps(c, Observe(c))
  {
    assert Sane(Look(c));
  }

  lemma EnterHistory(c: Client, to: State, now: nat)
    requires HistoryOk(c.past.moves, c.past.strikes, c.state) && (c.state == to || Valid(c.state, to))
    ensures var d := Enter(c, to, now); HistoryOk(d.past.moves, d.past.strikes, d.state)
  {
    if c.state != to { MoveHistory(c.past.moves, c.past.strikes, c.state, to); }
  }

  // ---- one mutual induction over the run ----

  lemma {:induction false} CallsKeep(c: Client, calls: seq<Call>)
    requires Inv(c)
    ensures Keeps(c, DoCalls(c, calls))
    decreases calls, 0
  {
    hide Inv;
    if calls != [] {
      var d := Observe(c);
      ObserveKeeps(c);
      CallKeeps(d, calls[0]);
      CallsKeep(DoCall(d, calls[0]), calls[1..]);
      KeepsTrans(c, d, DoCall(d, calls[0]));
      KeepsTrans(c, DoCall(d, calls[0]), DoCalls(c, calls));
    }
  }

  lemma {:induction false} SetStateKeeps(c: Client, to: State, now: nat, onChanged: seq<Call>)
    requires Inv(Enter(c, to, now)) && to != IDLE
    ensures Keeps(Enter(c, to, now), SetState(c, to, now, onChanged))
    decreases onChanged, 1
  {
    if c.state != to { CallsKeep(Enter(c, to, now), onChanged); }
  }

  lemma {:induction false} CallKeeps(c: Client, call: Call)
    requires Inv(c)
    ensures Keeps(c, DoCall(c, call))
    decreases call, 3
  {
    hide HistoryOk;
    match call
    case Connect(_, _, _, _, _) =>
      if Valid(c.state, CONNECTING) { StartKeeps(c, call); }
    case Disconnect(_, _, _) =>
      if c.state != CLOSED && c.state != IDLE { DisconnectKeeps(c, call); }
    case SetTunActive(active, onChanged) =>
      if active && c.state == TUNNEL_READY {
        EnterHistory(c, ESTABLISHED, 0);
        SetStateKeeps(c, ESTABLISHED, 0, onChanged);
        EnterGrows(c, ESTABLISHED, 0, DoCall(c, call));
      }
    case PathCall(onPathEvent) => CallsKeep(c, onPathEvent);
    case Receive(pass) => PassKeeps(c, pass);
    case Tick(_, _, _, _, _, _, _, _, _) => TickKeeps(c, call);
  }

  /** c, one state change, then more. */
  lemma EnterGrows(c: Client, to: State, now: nat, d: Client)
    requires to != IDLE && Keeps(Enter(c, to, now), d)
    ensures Keeps(c, d)
  {
  }

  lemma {:induction false} StartKeeps(c: Client, call: Call)
    requires Inv(c) && (call.Connect? || call.Tick?) && Valid(c.state, CONNECTING)
    ensures Keeps(c, DoStart(c, call))
    decreases call, 1
  {
    hide HistoryOk;
    var again := c.state == RECONNECTING;
    var base := if again then c.(retry := c.retry.(at := 0), fence := true) else c;
    if again { FencedCalls(base, call.onReset); }
    var after := if again then DoCalls(base, call.onReset) else base;
    if call.up {
      var up := after.(conn := Live(false, false), fence := false);
      EnterHistory(up, CONNECTING, call.now);
      SetStateKeeps(up, CONNECTING, call.now, call.onChanged);
      EnterGrows(up, CONNECTING, call.now, DoStart(c, call));
    } else if again {
      var armed := Arm(after.(fence := false), call.now);
      CallsKeep(armed, call.onScheduled);
    }
  }

  lemma {:induction false} DisconnectKeeps(c: Client, call: Call)
    requires Inv(c) && call.Disconnect? && c.state != CLOSED && c.state != IDLE
    ensures Keeps(c, DoDisconnect(c, call))
    decreases call, 1
  {
    hide HistoryOk;
    var c0 := c.(shutting := true);
    var c1 := DoPass(c0, call.flush);
    var c2 := DoPass(AskClose(c1), call.pass);
    if c.conn.Live? {
      PassKeeps(c0, call.flush);
      PassKeeps(AskClose(c1), call.pass);
    }
    ClosesFrom(c2);
    SetStateKeeps(c2, CLOSED, 0, call.onChanged);
    EnterGrows(c2, CLOSED, 0, DoDisconnect(c, call));
  }

  /** From any state but IDLE, with the connection marked for closing if there is one, CLOSED is legal. */
  lemma ClosesFrom(c: Client)
    requires SeenOk(c.past.seen) && HistoryOk(c.past.moves, c.past.strikes, c.state) && c.state != IDLE && !c.fence && c.shutting && (c.conn.Live? ==> c.conn.closing)
    ensures Inv(Enter(c, CLOSED, 0))
  {
    EnterHistory(c, CLOSED, 0);
  }

  lemma {:induction false} TickKeeps(c: Client, call: Call)
    requires Inv(c) && call.Tick?
    ensures Keeps(c, DoTick(c, call))
    decreases call, 2
  {
    hide Keeps, HistoryOk;
    var c0 := Watchdog(c, call);
    WatchdogKeeps(c, call);
    var c1 := DoPass(c0, call.pass);
    PassKeeps(c0, call.pass);
    KeepsTrans(c, c0, c1);
    var c2 := if c1.state == ESTABLISHED then DoCalls(c1, call.onRecovery) else c1;
    if c1.state == ESTABLISHED { CallsKeep(c1, call.onRecovery); KeepsTrans(c, c1, c2); }
    if Due(c2, call.now) {
      var c3 := DoStart(c2, call);
      StartKeeps(c2, call);
      KeepsTrans(c, c2, c3);
      if call.up { PassKeeps(c3, call.pass2); KeepsTrans(c, c3, DoPass(c3, call.pass2)); }
    }
  }

  lemma WatchdogKeeps(c: Client, call: Call)
    requires Inv(c) && call.Tick?
    ensures Keeps(c, Watchdog(c, call))
  {
    hide HistoryOk;
  }

  lemma {:induction false} PassKeeps(c: Client, pass: seq<Event>)
    requires Inv(c)
    ensures Keeps(c, DoPass(c, pass))
    decreases pass, 1
  {
    hide HistoryOk;
    if !c.running && c.conn.Live? { EventsKeep(c.(running := true), pass); }
  }

  lemma {:induction false} EventsKeep(c: Client, pass: seq<Event>)
    requires Inv(c) && c.running
    ensures Keeps(c, DoEvents(c, pass))
    decreases pass, 0
  {
    hide HistoryOk;
    if pass != [] {
      var d := if Delivers(c, pass[0]) then DoEvent(c, pass[0]) else c;
      if Delivers(c, pass[0]) { EventKeeps(c, pass[0]); }
      EventsKeep(d, pass[1..]);
      KeepsTrans(c, d, DoEvents(d, pass[1..]));
    }
  }

  lemma {:induction false} EventKeeps(c: Client, e: Event)
    requires Inv(c) && c.running && Delivers(c, e)
    ensures Keeps(c, DoEvent(c, e))
    decreases e, 2
  {
    hide HistoryOk;
    match e
    case HandshakeFinished(onChanged) =>
      var d := c.(conn := c.conn.(shaken := true));
      EnterHistory(d, AUTHENTICATING, 0);
      SetStateKeeps(d, AUTHENTICATING, 0, onChanged);
      EnterGrows(d, AUTHENTICATING, 0, DoEvent(c, e));
    case Body(addressed, _, _, _, _, _) =>
      if addressed && c.state != ESTABLISHED && c.state != TUNNEL_READY { TunnelReadyKeeps(c, e); }
    case TunnelRefused =>
    case ConnClosed(_, _, _, _) => ClosedKeeps(c, e);
    case PathNotice(onPathEvent) => CallsKeep(c, onPathEvent);
  }

  /** The client as the announcement is about to be made, after the primary's path_event. */
  function BeforeReady(c: Client, e: Event): Client
    requires e.Body?
  {
    var c1 := if e.validates then DoCalls(c, e.onValidated) else c;
    if e.validates && Disconnects(e.onValidated) then Strike(c1) else c1
  }

  lemma BeforeReadyKeeps(c: Client, e: Event)
    requires Inv(c) && e.Body? && Announcing(c) && !c.conn.closing
    ensures Keeps(c, Enter(BeforeReady(c, e), TUNNEL_READY, 0))
  {
    hide HistoryOk;
    if e.validates { AnnouncingCalls(c, e.onValidated); }
    var c1 := if e.validates then DoCalls(c, e.onValidated) else c;
    if e.validates && Disconnects(e.onValidated) {
      EnterHistory(AskClose(c.(shutting := true)), CLOSED, 0);
      StruckHistory(c1.past.moves, c1.past.strikes);
    } else {
      EnterHistory(c1, TUNNEL_READY, 0);
    }
  }

  lemma {:induction false} TunnelReadyKeeps(c: Client, e: Event)
    requires Inv(c) && e.Body? && Announcing(c) && !c.conn.closing
    ensures Keeps(c, DoTunnelReady(c, e))
    decreases e, 1
  {
    hide HistoryOk, SeenOk;
    var c2 := BeforeReady(c, e);
    BeforeReadyKeeps(c, e);
    var c3 := SetState(c2, TUNNEL_READY, 0, e.onChanged);
    SetStateKeeps(c2, TUNNEL_READY, 0, e.onChanged);
    KeepsTrans(c, Enter(c2, TUNNEL_READY, 0), c3);
    CallsKeep(c3, e.onReady);
    var c4 := DoCalls(c3, e.onReady);
    KeepsTrans(c, c3, c4);
    var c5 := c4.(retry := c4.retry.(attempts := 0));
    CallsKeep(c5, e.onRelease);
    KeepsTrans(c, c5, DoTunnelReady(c, e));
  }

  lemma {:induction false} ClosedKeeps(c: Client, e: Event)
    requires Inv(c) && e.ConnClosed? && c.conn.Live?
    ensures Keeps(c, DoClosed(c, e))
    decreases e, 1
  {
    hide HistoryOk;
    var c1 := c.(conn := None);
    if !c.shutting && c.retry.enabled && !e.rejected {
      var armed := Arm(c1, e.now);
      EnterHistory(armed, RECONNECTING, e.now);
      SetStateKeeps(armed, RECONNECTING, e.now, e.onChanged);
      var c2 := SetState(armed, RECONNECTING, e.now, e.onChanged);
      EnterGrows(armed, RECONNECTING, e.now, c2);
      CallsKeep(c2, e.onScheduled);
    } else {
      EnterHistory(c1, CLOSED, 0);
      SetStateKeeps(c1, CLOSED, 0, e.onChanged);
      EnterGrows(c1, CLOSED, 0, DoClosed(c, e));
    }
  }
}

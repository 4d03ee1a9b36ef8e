/**
 The client's connection lifecycle (src/mqvpn_client.c), with callbacks that
 call back into the library. A call carries the calls the embedder makes from
 each callback that call fires, and an engine pass the events xquic delivers
 in it, so a sequence of calls is one complete run, re-entrancy included.
 */
module Lifecycle {
  datatype State = IDLE | CONNECTING | AUTHENTICATING | TUNNEL_READY | ESTABLISHED | RECONNECTING | CLOSED

  /** The state_transitions table. */
  predicate Valid(from: State, to: State) {
    match from
    case IDLE => to == CONNECTING
    case CONNECTING => to == AUTHENTICATING || to == RECONNECTING || to == CLOSED
    case AUTHENTICATING => to == TUNNEL_READY || to == RECONNECTING || to == CLOSED
    case TUNNEL_READY => to == ESTABLISHED || to == RECONNECTING || to == CLOSED
    case ESTABLISHED => to == RECONNECTING || to == CLOSED
    case RECONNECTING => to == CONNECTING || to == CLOSED
    case CLOSED => false
  }

  const BACKOFF_MAX_SEC := 60
  const STALL_US := 5_000_000

  /** The connection: whether the client asked xquic to close it, and whether its handshake finished. */
  datatype Conn = None | Live(closing: bool, shaken: bool)

  datatype Move = Move(from: State, to: State)

  /** Reconnect bookkeeping: the armed time (0 = not armed), attempts so far, and the configuration. */
  datatype Retry = Retry(at: nat, attempts: nat, enabled: bool, interval: int)

  /** What the client looks like when the embedder calls into it. */
  datatype Sight = Sight(state: State, live: bool, armed: bool, fence: bool)

  /** History: `moves` has every state change; `strikes` the positions in it at which a tunnel response
      was announced although the embedder had disconnected from the path_event just before it; `seen`
      what every call found, wherever it was made from. */
  datatype History = History(moves: seq<Move>, strikes: set<nat>, seen: set<Sight>)

  /** `fence` is in_connect, `running` that xqc_engine_main_logic is on the stack. */
  datatype Client = Client(state: State, conn: Conn, retry: Retry, hsAt: nat, shutting: bool,
                           fence: bool, running: bool, past: History)

  function Init(enabled: bool, interval: int): Client {
    Client(IDLE, None, Retry(0, 0, enabled, interval), 0, false, false, false, History([], {}, {}))
  }

  /** What the embedder calls. Each list is what it calls from one callback. */
  datatype Call =
    | Connect(up: bool, now: nat, onReset: seq<Call>, onChanged: seq<Call>, onScheduled: seq<Call>)
    | Disconnect(flush: seq<Event>, pass: seq<Event>, onChanged: seq<Call>)
    | SetTunActive(active: bool, onChanged: seq<Call>)
    | PathCall(onPathEvent: seq<Call>)
    | Receive(pass: seq<Event>)
    | Tick(up: bool, now: nat, pass: seq<Event>, onRecovery: seq<Call>,
           onReset: seq<Call>, onChanged: seq<Call>, onScheduled: seq<Call>, pass2: seq<Event>, onStalled: seq<Call>)

  /** What xquic delivers inside an engine pass. */
  datatype Event =
    | HandshakeFinished(onChanged: seq<Call>)
    | Body(addressed: bool, validates: bool, onValidated: seq<Call>, onChanged: seq<Call>, onReady: seq<Call>, onRelease: seq<Call>)
    | TunnelRefused
    | ConnClosed(rejected: bool, now: nat, onChanged: seq<Call>, onScheduled: seq<Call>)
    | PathNotice(onPathEvent: seq<Call>)

  // ---- reconnect delay ----

  function Doubled(delay: nat, times: nat): nat
    decreases times
  {
    if times == 0 || delay >= BACKOFF_MAX_SEC then delay else Doubled(2 * delay, times - 1)
  }

  /** client_reconnect_delay_sec. */
  function Delay(r: Retry): (d: nat)
    ensures 1 <= d <= BACKOFF_MAX_SEC
  {
    var base := if r.interval <= 0 then 5 else r.interval;
    var d := Doubled(base, r.attempts);
    DoubledPositive(base, r.attempts);
    if d > BACKOFF_MAX_SEC then BACKOFF_MAX_SEC else d
  }

  lemma {:induction false} DoubledPositive(delay: nat, times: nat)
    requires delay >= 1
    ensures Doubled(delay, times) >= 1
    decreases times
  {
    if times > 0 && delay < BACKOFF_MAX_SEC { DoubledPositive(2 * delay, times - 1); }
  }

  function Arm(c: Client, now: nat): Client {
    c.(retry := c.retry.(at := now + Delay(c.retry) * 1_000_000, attempts := c.retry.attempts + 1))
  }

  // ---- the code between callbacks ----

  /** client_set_state up to the state_changed callback. */
  function Enter(c: Client, to: State, now: nat): Client {
    if c.state == to then c
    else c.(state := to, past := c.past.(moves := c.past.moves + [Move(c.state, to)]),
            hsAt := if to == CONNECTING then now else if c.state == CONNECTING then 0 else c.hsAt)
  }

  function Look(c: Client): Sight { Sight(c.state, c.conn.Live?, c.retry.at != 0, c.fence) }

  function Observe(c: Client): Client { c.(past := c.past.(seen := c.past.seen + {Look(c)})) }

  function Strike(c: Client): Client { c.(past := c.past.(strikes := c.past.strikes + {|c.past.moves|})) }

  /** client_handshake_stalled. */
  predicate Stalled(c: Client, now: nat) {
    c.state == CONNECTING && c.hsAt != 0 && now > c.hsAt && now - c.hsAt >= STALL_US
  }

  predicate Due(c: Client, now: nat) { c.state == RECONNECTING && c.retry.at != 0 && now >= c.retry.at }

  /** xqc_conn_close, xqc_h3_conn_close: mark the connection. */
  function AskClose(c: Client): Client { if c.conn.Live? then c.(conn := c.conn.(closing := true)) else c }

  /** xquic delivers nothing but the close notification once the client asked it to close. */
  predicate CanDeliver(conn: Conn, e: Event) {
    conn.Live?
    && match e
       case HandshakeFinished(_) => !conn.closing && !conn.shaken
       case Body(_, _, _, _, _, _) => !conn.closing && conn.shaken
       case TunnelRefused => !conn.closing && conn.shaken
       case ConnClosed(_, _, _, _) => true
       case PathNotice(_) => !conn.closing
  }

  predicate Delivers(c: Client, e: Event) { CanDeliver(c.conn, e) }

  /** The path_event that announces the validated primary was answered with a disconnect. */
  predicate Disconnects(calls: seq<Call>)
    decreases calls
  {
    calls != [] && (CallDisconnects(calls[0]) || Disconnects(calls[1..]))
  }

  predicate CallDisconnects(call: Call)
    decreases call
  {
    call.Disconnect? || (call.PathCall? && Disconnects(call.onPathEvent))
  }

  // ---- runs ----

  function DoCalls(c: Client, calls: seq<Call>): Client
    decreases calls, 0
  {
    if calls == [] then c else DoCalls(DoCall(Observe(c), calls[0]), calls[1..])
  }

  /** client_set_state. */
  function SetState(c: Client, to: State, now: nat, onChanged: seq<Call>): Client
    decreases onChanged, 1
  {
    if c.state == to then c else DoCalls(Enter(c, to, now), onChanged)
  }

  function DoCall(c: Client, call: Call): Client
    decreases call, 3
  {
    match call
    case Connect(_, _, _, _, _) =>
      if c.fence || !Valid(c.state, CONNECTING) then c else DoStart(c, call)
    case Disconnect(_, _, _) =>
      if c.fence || c.state == CLOSED || c.state == IDLE then c else DoDisconnect(c, call)
    case SetTunActive(active, onChanged) =>
      if active && c.state == TUNNEL_READY then SetState(c, ESTABLISHED, 0, onChanged) else c
    case PathCall(onPathEvent) => DoCalls(c, onPathEvent)
    case Receive(pass) => DoPass(c, pass)
    case Tick(_, _, _, _, _, _, _, _, _) => DoTick(c, call)
  }

  /** The connect transaction shared by mqvpn_client_connect and tick_reconnect: from RECONNECTING,
      disarm and reset under the fence; start; then commit the outcome. */
  function DoStart(c: Client, call: Call): Client
    requires call.Connect? || call.Tick?
    decreases call, 1
  {
    var again := c.state == RECONNECTING;
    var c1 := if again then DoCalls(c.(retry := c.retry.(at := 0), fence := true), call.onReset) else c;
    if call.up && c1.conn.None? then
      SetState(c1.(conn := Live(false, false), fence := false), CONNECTING, call.now, call.onChanged)
    else
      var c2 := c1.(fence := false);
      if again && c2.state == RECONNECTING then DoCalls(Arm(c2, call.now), call.onScheduled) else c2
  }

  /** mqvpn_client_disconnect past its guards. */
  function DoDisconnect(c: Client, call: Call): Client
    requires call.Disconnect?
    decreases call, 1
  {
    var c1 := DoPass(c.(shutting := true), call.flush);
    var c2 := DoPass(AskClose(c1), call.pass);
    SetState(c2, CLOSED, 0, call.onChanged)
  }

  /** tick_handshake_watchdog, one engine pass, the path passes of tick_path_recovery, tick_reconnect. */
  function DoTick(c: Client, call: Call): Client
    requires call.Tick?
    decreases call, 2
  {
    var c1 := DoPass(Watchdog(c, call), call.pass);
    var c2 := if c1.state == ESTABLISHED then DoCalls(c1, call.onRecovery) else c1;
    if !Due(c2, call.now) then c2
    else if call.up then DoPass(DoStart(c2, call), call.pass2)
    else DoStart(c2, call)
  }

  function Watchdog(c: Client, call: Call): Client
    requires call.Tick?
    decreases call, 1
  {
    if c.shutting || !Stalled(c, call.now) then c
    else if c.conn.Live? then AskClose(c.(hsAt := 0))
    else SetState(Arm(c.(hsAt := 0), call.now), RECONNECTING, call.now, call.onStalled)
  }

  /** xqc_engine_main_logic: nothing when already running or when there is no connection. */
  function DoPass(c: Client, pass: seq<Event>): Client
    decreases pass, 1
  {
    if c.running || c.conn.None? then c else DoEvents(c.(running := true), pass).(running := false)
  }

  function DoEvents(c: Client, pass: seq<Event>): Client
    decreases pass, 0
  {
    if pass == [] then c else DoEvents(if Delivers(c, pass[0]) then DoEvent(c, pass[0]) else c, pass[1..])
  }

  function DoEvent(c: Client, e: Event): Client
    decreases e, 2
  {
    match e
    case HandshakeFinished(onChanged) =>
      if c.conn.None? then c else SetState(c.(conn := c.conn.(shaken := true)), AUTHENTICATING, 0, onChanged)
    case Body(addressed, _, _, _, _, _) =>
      if addressed && c.state != ESTABLISHED && c.state != TUNNEL_READY then DoTunnelReady(c, e) else c
    case TunnelRefused => AskClose(c)
    case ConnClosed(_, _, _, _) => DoClosed(c, e)
    case PathNotice(onPathEvent) => DoCalls(c, onPathEvent)
  }

  /** The announcement in cli_connect_ip_on_body: the primary's VALIDATION_OK (which fires path_event),
      the state change, tunnel_config_ready, and the release of held paths. */
  function DoTunnelReady(c: Client, e: Event): Client
    requires e.Body?
    decreases e, 1
  {
    var c1 := if e.validates then DoCalls(c, e.onValidated) else c;
    var c2 := if e.validates && Disconnects(e.onValidated) then Strike(c1) else c1;
    var c3 := DoCalls(SetState(c2, TUNNEL_READY, 0, e.onChanged), e.onReady);
    DoCalls(c3.(retry := c3.retry.(attempts := 0)), e.onRelease)
  }

  /** cb_h3_conn_close. */
  function DoClosed(c: Client, e: Event): Client
    requires e.ConnClosed?
    decreases e, 1
  {
    var c1 := c.(conn := None);
    if !c.shutting && c.retry.enabled && !e.rejected then
      DoCalls(SetState(Arm(c1, e.now), RECONNECTING, e.now, e.onChanged), e.onScheduled)
    else
      SetState(c1, CLOSED, 0, e.onChanged)
  }
}

/**
 The lifecycle part of mqvpn_client_t, updated in place. The calls the
 embedder makes from a callback are arguments of the method that fires it and
 are performed at that very point, so re-entrancy is real: every method may be
 entered again from inside itself.
 */
module ClientLifecycle {
  import opened Lifecycle
  import opened LifecycleSafety

  /** client_reconnect_delay_sec. */
  method ReconnectDelay(r: Retry) returns (delay: nat)
    ensures delay == Delay(r)
    ensures 1 <= delay <= BACKOFF_MAX_SEC
  {
    var base := if r.interval <= 0 then 5 else r.interval;
    delay := base;
    var i := 0;
    while i < r.attempts && delay < BACKOFF_MAX_SEC
      invariant 0 <= i <= r.attempts
      invariant Doubled(delay, r.attempts - i) == Doubled(base, r.attempts)
    {
      delay := delay * 2;
      i := i + 1;
    }
    if delay > BACKOFF_MAX_SEC { delay := BACKOFF_MAX_SEC; }
  }

  class Session {
    var state: State
    var conn: Conn
    var retry: Retry
    var hsAt: nat
    var shutting: bool
    var fence: bool
    var running: bool
    ghost var past: History

    ghost function View(): Client
      reads this
    {
      Client(state, conn, retry, hsAt, shutting, fence, running, past)
    }

    constructor (enabled: bool, interval: int)
      ensures View() == Init(enabled, interval) && Inv(View())
    {
      state, conn, retry, hsAt := IDLE, None, Retry(0, 0, enabled, interval), 0;
      shutting, fence, running := false, false, false;
      past := History([], {}, {});
    }

    /** client_arm_reconnect_timer. */
    method ArmTimer(now: nat)
      modifies this`retry
      ensures View() == Arm(old(View()), now)
    {
      var delay := ReconnectDelay(retry);
      retry := retry.(at := now + delay * 1_000_000, attempts := retry.attempts + 1);
    }

    /** What the embedder calls from one callback. */
    method Perform(calls: seq<Call>)
      modifies this
      ensures View() == DoCalls(old(View()), calls)
      decreases calls, 0
    {
      var i := 0;
      while i < |calls|
        invariant 0 <= i <= |calls|
        invariant DoCalls(View(), calls[i..]) == DoCalls(old(View()), calls)
      {
        assert calls[i..][0] == calls[i] && calls[i..][1..] == calls[i + 1..];
        past := past.(seen := past.seen + {Look(View())});
        PerformCall(calls[i]);
        i := i + 1;
      }
      assert calls[i..] == [];
    }

    /** client_set_state. */
    method ChangeState(to: State, now: nat, onChanged: seq<Call>)
      modifies this
      ensures View() == SetState(old(View()), to, now, onChanged)
      decreases onChanged, 1
    {
      if state == to { return; }
      ghost var from := state;
      if to == CONNECTING {
        hsAt := now;
      } else if state == CONNECTING {
        hsAt := 0;
      }
      state := to;
      past := past.(moves := past.moves + [Move(from, to)]);
      assert View() == Enter(old(View()), to, now);
      Perform(onChanged);
    }

    method PerformCall(call: Call)
      modifies this
      ensures View() == DoCall(old(View()), call)
      decreases call, 3
    {
      match call
      case Connect(_, _, _, _, _) =>
        if !fence && Valid(state, CONNECTING) { StartConnection(call); }
      case Disconnect(_, _, _) => DisconnectClient(call);
      case SetTunActive(active, onChanged) =>
        if active && state == TUNNEL_READY { ChangeState(ESTABLISHED, 0, onChanged); }
      case PathCall(onPathEvent) => Perform(onPathEvent);
      case Receive(pass) => EnginePass(pass);
      case Tick(_, _, _, _, _, _, _, _, _) => TickClient(call);
    }

    /** mqvpn_client_connect and tick_reconnect past their guards. */
    method StartConnection(call: Call)
      requires call.Connect? || call.Tick?
      requires state == IDLE || state == RECONNECTING
      modifies this
      ensures View() == DoStart(old(View()), call)
      decreases call, 1
    {
      hide DoCalls;
      var again := state == RECONNECTING;
      if again {
        retry := retry.(at := 0);
        fence := true;
        Perform(call.onReset);
      }
      fence := false;
      if call.up && conn.None? {
        conn := Live(false, false);
        ChangeState(CONNECTING, call.now, call.onChanged);
      } else if again && state == RECONNECTING {
        ArmTimer(call.now);
        Perform(call.onScheduled);
      }
    }

    /** mqvpn_client_disconnect. */
    method DisconnectClient(call: Call)
      requires call.Disconnect?
      modifies this
      ensures View() == DoCall(old(View()), call)
      decreases call, 1
    {
      if fence || state == CLOSED || state == IDLE { return; }
      shutting := true;
      ghost var c1 := DoPass(View(), call.flush);
      if conn.Live? {
        EnginePass(call.flush);
        if conn.Live? {
          conn := conn.(closing := true);
          EnginePass(call.pass);
        }
      }
      assert View() == DoPass(AskClose(c1), call.pass);
      ChangeState(CLOSED, 0, call.onChanged);
      assert View() == DoDisconnect(old(View()), call);
    }

    /** mqvpn_client_tick, as far as the lifecycle is concerned. */
    method TickClient(call: Call)
      requires call.Tick?
      modifies this
      ensures View() == DoTick(old(View()), call)
      decreases call, 2
    {
      CheckStall(call);
      EnginePass(call.pass);
      if state == ESTABLISHED { Perform(call.onRecovery); }
      if state == RECONNECTING && retry.at != 0 && call.now >= retry.at {
        StartConnection(call);
        if call.up { EnginePass(call.pass2); }
      }
    }

    /** tick_handshake_watchdog. */
    method CheckStall(call: Call)
      requires call.Tick?
      modifies this
      ensures View() == Watchdog(old(View()), call)
      decreases call, 1
    {
      if shutting || !(state == CONNECTING && hsAt != 0 && call.now > hsAt && call.now - hsAt >= STALL_US) { return; }
      hsAt := 0;
      if conn.Live? {
        conn := conn.(closing := true);
      } else {
        ArmTimer(call.now);
        ChangeState(RECONNECTING, call.now, call.onStalled);
      }
    }

    /** xqc_engine_main_logic. */
    method EnginePass(pass: seq<Event>)
      modifies this
      ensures View() == DoPass(old(View()), pass)
      decreases pass, 1
    {
      if running || conn.None? { return; }
      running := true;
      DeliverAll(pass);
      running := false;
    }

    method DeliverAll(pass: seq<Event>)
      modifies this
      ensures View() == DoEvents(old(View()), pass)
      decreases pass, 0
    {
      var i := 0;
      while i < |pass|
        invariant 0 <= i <= |pass|
        invariant DoEvents(View(), pass[i..]) == DoEvents(old(View()), pass)
      {
        assert pass[i..][0] == pass[i] && pass[i..][1..] == pass[i + 1..];
        if CanDeliver(conn, pass[i]) { Deliver(pass[i]); }
        i := i + 1;
      }
      assert pass[i..] == [];
    }

    method Deliver(e: Event)
      requires conn.Live?
      modifies this
      ensures View() == DoEvent(old(View()), e)
      decreases e, 2
    {
      match e
      case HandshakeFinished(onChanged) =>
        conn := conn.(shaken := true);
        ChangeState(AUTHENTICATING, 0, onChanged);
      case Body(addressed, _, _, _, _, _) =>
        if addressed && state != ESTABLISHED && state != TUNNEL_READY { AnnounceTunnel(e); }
      case TunnelRefused => conn := conn.(closing := true);
      case ConnClosed(_, _, _, _) => OnClosed(e);
      case PathNotice(onPathEvent) => Perform(onPathEvent);
    }

    /** The announcement in cli_connect_ip_on_body. */
    method AnnounceTunnel(e: Event)
      requires e.Body?
      modifies this
      ensures View() == DoTunnelReady(old(View()), e)
      decreases e, 1
    {
      hide DoCalls, Disconnects;
      if e.validates {
        Perform(e.onValidated);
        if Disconnects(e.onValidated) { past := past.(strikes := past.strikes + {|past.moves|}); }
      }
      ChangeState(TUNNEL_READY, 0, e.onChanged);
      Perform(e.onReady);
      retry := retry.(attempts := 0);
      Perform(e.onRelease);
    }

    /** cb_h3_conn_close. */
    method OnClosed(e: Event)
      requires e.ConnClosed?
      modifies this
      ensures View() == DoClosed(old(View()), e)
      decreases e, 1
    {
      conn := None;
      if !shutting && retry.enabled && !e.rejected {
        ArmTimer(e.now);
        ChangeState(RECONNECTING, e.now, e.onChanged);
        Perform(e.onScheduled);
        return;
      }
      ChangeState(CLOSED, 0, e.onChanged);
    }
  }
}

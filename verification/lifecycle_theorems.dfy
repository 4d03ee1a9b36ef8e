/** The lifecycle's guarantees, for every run, re-entrant calls included. */
module LifecycleTheorems {
  import opened Lifecycle
  import opened LifecycleSafety

  ghost predicate Reachable(c: Client) {
    exists enabled: bool, interval: int, calls: seq<Call> :: c == DoCalls(Init(enabled, interval), calls)
  }

  lemma ReachableInv(c: Client)
    requires Reachable(c)
    ensures Inv(c)
  {
    var enabled: bool, interval: int, calls: seq<Call> :| c == DoCalls(Init(enabled, interval), calls);
    CallsKeep(Init(enabled, interval), calls);
  }

  /** Every state change made in a run is in the transition table, except exactly those that announce
      a tunnel response after the embedder disconnected from the path_event fired just before: these
      leave CLOSED. Nothing else does. */
  lemma TransitionsLegal(c: Client, i: nat)
    requires Reachable(c) && i < |c.past.moves|
    ensures var m := c.past.moves[i];
            && (Valid(m.from, m.to) <==> i !in c.past.strikes)
            && (m.from == CLOSED <==> i in c.past.strikes)
            && (i in c.past.strikes ==> m.to == TUNNEL_READY)
            && m.from == (if i == 0 then IDLE else c.past.moves[i - 1].to)
  {
    ReachableInv(c);
    assert Justified(c.past.moves, i, c.past.strikes) && Follows(c.past.moves, i);
  }

  /** Whatever callback it is made from, a call never finds an IDLE or RECONNECTING client holding a
      connection, nor a RECONNECTING one without an armed timer outside a connect transaction. */
  lemma EveryCallSeesSane(c: Client, x: Sight)
    requires Reachable(c) && x in c.past.seen
    ensures (x.state == IDLE || x.state == RECONNECTING) && !x.fence ==> !x.live
    ensures x.state == RECONNECTING && !x.fence ==> x.armed
    ensures x.state == CONNECTING || x.state == AUTHENTICATING || x.state == TUNNEL_READY || x.state == ESTABLISHED ==> x.live && !x.fence
  {
    ReachableInv(c);
  }

  // ---- CLOSED ----

  /** Closed outside a connect transaction, with at most a connection that xquic was told to close. */
  predicate Dead(c: Client) { c.state == CLOSED && !c.fence && (c.conn.Live? ==> c.conn.closing && c.shutting) }

  /** d is as dead as c and made no further state change. */
  predicate StaysDead(c: Client, d: Client) {
    && Dead(d) && d.past.moves == c.past.moves && d.past.strikes == c.past.strikes
    && d.running == c.running && (Retiring(c) ==> Retiring(d))
  }

  lemma {:induction false} DeadCalls(c: Client, calls: seq<Call>)
    requires Dead(c)
    ensures StaysDead(c, DoCalls(c, calls))
    decreases calls, 0
  {
    if calls != [] {
      DeadCall(Observe(c), calls[0]);
      DeadCalls(DoCall(Observe(c), calls[0]), calls[1..]);
    }
  }

  lemma {:induction false} DeadCall(c: Client, call: Call)
    requires Dead(c)
    ensures StaysDead(c, DoCall(c, call))
    decreases call, 3
  {
    if call.PathCall? { DeadCalls(c, call.onPathEvent); }
    if call.Receive? { DeadPass(c, call.pass); }
    if call.Tick? {
      DeadPass(c, call.pass);
      assert DoTick(c, call) == DoPass(c, call.pass);
    }
  }

  lemma {:induction false} DeadPass(c: Client, pass: seq<Event>)
    requires Dead(c)
    ensures StaysDead(c, DoPass(c, pass))
    decreases pass, 1
  {
    if !c.running && c.conn.Live? { DeadEvents(c.(running := true), pass); }
  }

  lemma {:induction false} DeadEvents(c: Client, pass: seq<Event>)
    requires Dead(c)
    ensures StaysDead(c, DoEvents(c, pass))
    decreases pass, 0
  {
    if pass != [] {
      var d := if Delivers(c, pass[0]) then DoEvent(c, pass[0]) else c;
      if Delivers(c, pass[0]) { assert DoEvent(c, pass[0]) == DoClosed(c, pass[0]) == c.(conn := None); }
      DeadEvents(d, pass[1..]);
    }
  }

  /** CLOSED is final: whatever is called afterwards, whatever those calls' callbacks call and whatever
      xquic still delivers, no state change follows. */
  lemma ClosedIsFinal(c: Client, calls: seq<Call>)
    requires Reachable(c) && c.state == CLOSED
    ensures var d := DoCalls(c, calls);
            d.state == CLOSED && d.past.moves == c.past.moves && d.past.strikes == c.past.strikes
  {
    ReachableInv(c);
    DeadCalls(c, calls);
  }

  /** After disconnect returns, whatever the embedder calls from its callback, the client is CLOSED and
      xquic was told to close any connection left. This holds wherever the call is made from, outside
      a connect transaction. */
  lemma DisconnectCloses(c: Client, call: Call)
    requires Inv(c) && c.state != IDLE && call.Disconnect?
    ensures var d := DoCall(c, call); d.state == CLOSED && (c.state != CLOSED ==> Retiring(d))
  {
    if c.state != CLOSED {
      var c0 := c.(shutting := true);
      var c1 := DoPass(c0, call.flush);
      var c2 := DoPass(AskClose(c1), call.pass);
      if c.conn.Live? { PassKeeps(c0, call.flush); PassKeeps(AskClose(c1), call.pass); }
      assert DoCall(c, call) == SetState(c2, CLOSED, 0, call.onChanged);
      if c2.state != CLOSED { DeadCalls(Enter(c2, CLOSED, 0), call.onChanged); }
    }
  }

  // ---- the announcement ----

  /** The exact condition, at the one place that can go wrong: announcing the tunnel is a legal state
      change unless the primary's path_event was answered with a disconnect. */
  lemma AnnouncementLegalExactly(c: Client, e: Event)
    requires Inv(c) && c.running && e.Body? && Delivers(c, e)
    requires c.state != ESTABLISHED && c.state != TUNNEL_READY
    ensures Valid(BeforeReady(c, e).state, TUNNEL_READY) <==> !(e.validates && Disconnects(e.onValidated))
  {
    if e.validates { AnnouncingCalls(c, e.onValidated); }
  }

  /** The condition matters: this run leaves CLOSED. */
  lemma HangupRun()
    ensures var hangup := [Disconnect([], [], [])];
            var c := DoCalls(Init(true, 5), [Connect(true, 1, [], [], []), Receive([HandshakeFinished([])]),
                                             Receive([Body(true, true, hangup, [], [], [])])]);
            c.past.moves == [Move(IDLE, CONNECTING), Move(CONNECTING, AUTHENTICATING), Move(AUTHENTICATING, CLOSED), Move(CLOSED, TUNNEL_READY)]
            && c.state == TUNNEL_READY && c.past.strikes == {3}
  {
    hide DoCalls, DoCall, DoPass;
    var hangup := [Disconnect([], [], [])];
    var a, b, d := Connect(true, 1, [], [], []), Receive([HandshakeFinished([])]), Receive([Body(true, true, hangup, [], [], [])]);
    var c0 := Observe(Init(true, 5));
    ConnectOnce(c0);
    var c1 := Observe(DoCall(c0, a));
    ReceiveIs(c1, [HandshakeFinished([])]);
    ShakeOnce(c1);
    var c2 := Observe(DoCall(c1, b));
    ReceiveIs(c2, [Body(true, true, hangup, [], [], [])]);
    HangupOnce(c2);
    ThreeCalls(Init(true, 5), a, b, d);
  }

  lemma ReceiveIs(c: Client, pass: seq<Event>)
    ensures DoCall(c, Receive(pass)) == DoPass(c, pass)
  {
  }

  lemma ThreeCalls(c: Client, x: Call, y: Call, z: Call)
    ensures DoCalls(c, [x, y, z]) == DoCall(Observe(DoCall(Observe(DoCall(Observe(c), x)), y)), z)
  {
    hide DoCall, Observe;
    var c1 := DoCall(Observe(c), x);
    var c2 := DoCall(Observe(c1), y);
    assert [x, y, z][1..] == [y, z] && [y, z][1..] == [z] && [z][1..] == [];
    assert DoCalls(c2, [z]) == DoCall(Observe(c2), z);
    assert DoCalls(c1, [y, z]) == DoCalls(c2, [z]);
  }

  lemma ConnectOnce(c: Client)
    requires c == Observe(Init(true, 5))
    ensures var d := DoCall(c, Connect(true, 1, [], [], []));
            d.state == CONNECTING && d.conn == Live(false, false) && !d.running && !d.fence
            && d.past.moves == [Move(IDLE, CONNECTING)] && d.past.strikes == {}
  {
    var up := c.(conn := Live(false, false));
    assert DoCalls(Enter(up, CONNECTING, 1), []) == Enter(up, CONNECTING, 1);
    assert DoStart(c, Connect(true, 1, [], [], [])) == Enter(up, CONNECTING, 1);
  }

  lemma ShakeOnce(c: Client)
    requires c.conn == Live(false, false) && c.state == CONNECTING && !c.running
    ensures var d := DoPass(c, [HandshakeFinished([])]);
            d == c.(state := AUTHENTICATING, conn := Live(false, true), hsAt := 0, past := c.past.(moves := c.past.moves + [Move(CONNECTING, AUTHENTICATING)]))
  {
    var e := HandshakeFinished([]);
    var r := c.(running := true);
    var d := DoEvent(r, e);
    assert d == Enter(r.(conn := Live(false, true)), AUTHENTICATING, 0);
    assert [e][1..] == [];
    assert DoEvents(r, [e]) == DoEvents(d, []) == d;
  }

  lemma HangupOnce(c: Client)
    requires c.conn == Live(false, true) && c.state == AUTHENTICATING && !c.running && !c.fence
    ensures var d := DoPass(c, [Body(true, true, [Disconnect([], [], [])], [], [], [])]);
            && d.state == TUNNEL_READY && d.past.strikes == c.past.strikes + {|c.past.moves| + 1}
            && d.past.moves == c.past.moves + [Move(AUTHENTICATING, CLOSED), Move(CLOSED, TUNNEL_READY)]
  {
    var hangup := [Disconnect([], [], [])];
    var e := Body(true, true, hangup, [], [], []);
    var r := c.(running := true);
    assert Disconnects(hangup) by { assert CallDisconnects(hangup[0]); }
    AnnouncingCalls(r, hangup);
    var c2 := BeforeReady(r, e);
    var d := DoEvent(r, e);
    assert d == DoTunnelReady(r, e);
    assert d == Enter(c2, TUNNEL_READY, 0).(retry := c2.retry.(attempts := 0));
    assert [e][1..] == [];
    assert DoEvents(r, [e]) == DoEvents(d, []) == d;
  }

  // ---- RECONNECTING ----

  /** Where the tick's connect transaction leaves the client before it fires a callback. */
  function Attempt(c: Client, call: Call): Client
    requires call.Tick?
  {
    var c1 := DoCalls(c.(retry := c.retry.(at := 0), fence := true), call.onReset).(fence := false);
    if call.up then Enter(c1.(conn := Live(false, false)), CONNECTING, call.now) else Arm(c1, call.now)
  }

  /** The tick that reaches the timer makes the attempt; the rest of it is what the callbacks and the
      engine pass do with a client that is connecting, or armed again for at most 60 seconds later. */
  lemma TickAttempts(c: Client, call: Call)
    requires Inv(c) && c.state == RECONNECTING && call.Tick? && call.now >= c.retry.at
    ensures c.retry.at > 0 && Inv(Attempt(c, call))
    ensures var a := Attempt(c, call);
            if call.up then
              && a.state == CONNECTING && a.conn == Live(false, false)
              && a.past.moves == c.past.moves + [Move(RECONNECTING, CONNECTING)]
              && DoTick(c, call) == DoPass(DoCalls(a, call.onChanged), call.pass2)
            else
              && a.state == RECONNECTING && call.now < a.retry.at <= call.now + BACKOFF_MAX_SEC * 1_000_000
              && a.past.moves == c.past.moves
              && DoTick(c, call) == DoCalls(a, call.onScheduled)
  {
    assert DoPass(Watchdog(c, call), call.pass) == c;
    FencedCalls(c.(retry := c.retry.(at := 0), fence := true), call.onReset);
    var c1 := DoCalls(c.(retry := c.retry.(at := 0), fence := true), call.onReset).(fence := false);
    EnterHistory(c1.(conn := Live(false, false)), CONNECTING, call.now);
    var s := DoStart(c, call);
    assert DoTick(c, call) == if call.up then DoPass(s, call.pass2) else s;
    if call.up {
      assert s == SetState(c1.(conn := Live(false, false)), CONNECTING, call.now, call.onChanged);
      assert s == DoCalls(Attempt(c, call), call.onChanged);
    } else {
      assert s == DoCalls(Attempt(c, call), call.onScheduled);
    }
  }

  /** A RECONNECTING client is never stranded, whatever the embedder calls from any callback and xquic
      delivers: the tick that reaches its timer either starts a connection, as its first state change,
      or arms the timer again; and whenever a tick ends RECONNECTING, the timer is armed. */
  lemma NeverStranded(c: Client, call: Call)
    requires Inv(c) && c.state == RECONNECTING && call.Tick? && call.now >= c.retry.at
    ensures var d, n := DoTick(c, call), |c.past.moves|;
            && c.retry.at > 0 && c.past.moves <= d.past.moves
            && (call.up ==> |d.past.moves| > n && d.past.moves[n] == Move(RECONNECTING, CONNECTING))
            && (!call.up && |d.past.moves| == n ==> d.state == RECONNECTING)
            && (d.state == RECONNECTING ==> d.retry.at != 0)
  {
    hide Attempt;
    TickAttempts(c, call);
    var a := Attempt(c, call);
    if call.up {
      CallsKeep(a, call.onChanged);
      PassKeeps(DoCalls(a, call.onChanged), call.pass2);
    } else {
      CallsKeep(a, call.onScheduled);
    }
  }

  // ---- the reconnect delay ----

  /** base doubled n times. */
  function Scaled(base: nat, n: nat): nat { if n == 0 then base else 2 * Scaled(base, n - 1) }

  lemma {:induction false} ScaledShift(base: nat, n: nat)
    ensures Scaled(2 * base, n) == Scaled(base, n + 1) && Scaled(base, n) >= base
    decreases n
  {
    if n > 0 { ScaledShift(base, n - 1); }
  }

  lemma {:induction false} DoubledIs(delay: nat, times: nat)
    ensures var d := Doubled(delay, times); d == Scaled(delay, times) || (d >= BACKOFF_MAX_SEC && Scaled(delay, times) >= BACKOFF_MAX_SEC)
    decreases times
  {
    ScaledShift(delay, times);
    if times > 0 && delay < BACKOFF_MAX_SEC {
      DoubledIs(2 * delay, times - 1);
      ScaledShift(delay, times - 1);
    }
  }

  /** The delay is the configured interval (5 s if not positive) doubled once per attempt, capped at 60 s. */
  lemma DelayIs(r: Retry)
    ensures var base := if r.interval <= 0 then 5 else r.interval;
            Delay(r) == if Scaled(base, r.attempts) < BACKOFF_MAX_SEC then Scaled(base, r.attempts) else BACKOFF_MAX_SEC
  {
    DoubledIs(if r.interval <= 0 then 5 else r.interval, r.attempts);
  }
}

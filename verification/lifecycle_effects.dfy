/**
 What each event and call does to the connection, whatever the embedder's
 callbacks do afterwards: the state change it makes first, and what is set when
 the first callback fires.
 */
module LifecycleEffects {
  import opened Lifecycle
  import opened LifecycleSafety
  import opened LifecycleTheorems

  /** The run from c to d begins with this state change. */
  predicate Begins(c: Client, d: Client, m: Move) {
    c.past.moves < d.past.moves && d.past.moves[|c.past.moves|] == m
  }

  lemma KeepsBegins(c: Client, a: Client, d: Client, m: Move)
    requires a.past.moves == c.past.moves + [m] && a.past.moves <= d.past.moves
    ensures Begins(c, d, m)
  {
  }

  // ---- a connection is lost ----

  /** The client retries: it was not told to stop, may reconnect, and the certificate was not the cause. */
  predicate Retries(c: Client, e: Event)
    requires e.ConnClosed?
  {
    !c.shutting && c.retry.enabled && !e.rejected
  }

  /** The client as the first callback of a close finds it. */
  function Lost(c: Client, e: Event): Client
    requires e.ConnClosed?
  {
    if Retries(c, e)
    then c.(state := RECONNECTING, conn := None, hsAt := if c.state == CONNECTING then 0 else c.hsAt,
            retry := c.retry.(at := e.now + Delay(c.retry) * 1_000_000, attempts := c.retry.attempts + 1),
            past := c.past.(moves := c.past.moves + [Move(c.state, RECONNECTING)]))
    else if c.state == CLOSED then c.(conn := None)
    else c.(state := CLOSED, conn := None, hsAt := if c.state == CONNECTING then 0 else c.hsAt,
            past := c.past.(moves := c.past.moves + [Move(c.state, CLOSED)]))
  }

  /** A lost connection is gone. A client that retries goes to RECONNECTING, from whatever state, with the
      timer armed one delay ahead, before any callback runs; any other client goes to CLOSED, or was
      there already, and stays. Callbacks act on that client and on nothing else. */
  lemma LossLeads(c: Client, e: Event)
    requires Inv(c) && c.conn.Live? && e.ConnClosed?
    ensures var d := DoEvent(c, e);
            && Inv(Lost(c, e))
            && (Retries(c, e) ==> d == DoCalls(DoCalls(Lost(c, e), e.onChanged), e.onScheduled)
                                  && Begins(c, d, Move(c.state, RECONNECTING)))
            && (!Retries(c, e) ==> d.state == CLOSED && d.past.moves == Lost(c, e).past.moves)
            && (!Retries(c, e) && c.state != CLOSED ==> Begins(c, d, Move(c.state, CLOSED)))
  {
    hide HistoryOk;
    var a := Lost(c, e);
    var d := DoEvent(c, e);
    assert d == DoClosed(c, e);
    if Retries(c, e) {
      var c1 := Arm(c.(conn := None), e.now);
      assert a == Enter(c1, RECONNECTING, e.now);
      EnterHistory(c1, RECONNECTING, e.now);
      assert SetState(c1, RECONNECTING, e.now, e.onChanged) == DoCalls(a, e.onChanged);
      CallsKeep(a, e.onChanged);
      CallsKeep(DoCalls(a, e.onChanged), e.onScheduled);
      KeepsBegins(c, a, d, Move(c.state, RECONNECTING));
    } else {
      EnterHistory(c.(conn := None), CLOSED, 0);
      if c.state != CLOSED {
        assert a == Enter(c.(conn := None), CLOSED, 0) && d == DoCalls(a, e.onChanged);
        DeadCalls(a, e.onChanged);
        KeepsBegins(c, a, d, Move(c.state, CLOSED));
      }
    }
  }

  /** It comes back: after a close with silent callbacks, the tick that reaches the timer starts a
      connection, whatever that tick's callbacks call and xquic delivers in it. */
  lemma LossComesBack(c: Client, e: Event, call: Call)
    requires Inv(c) && c.conn.Live? && e.ConnClosed? && e.onChanged == [] && e.onScheduled == [] && Retries(c, e)
    requires call.Tick? && call.up && call.now >= e.now + Delay(c.retry) * 1_000_000
    ensures var d := DoEvent(c, e);
            && d.state == RECONNECTING && d.conn.None? && d.retry.at == e.now + Delay(c.retry) * 1_000_000
            && Begins(d, DoTick(d, call), Move(RECONNECTING, CONNECTING))
  {
    LossLeads(c, e);
    var a := Lost(c, e);
    assert DoCalls(a, []) == a;
    NeverStranded(a, call);
  }

  // ---- a connection comes up ----

  /** A connect call that may start one does, with a fresh connection and the handshake clock set. */
  lemma ConnectStarts(c: Client, call: Call)
    requires Inv(c) && call.Connect? && call.up && (c.state == IDLE || c.state == RECONNECTING)
    ensures var d := DoCall(c, call);
            && Begins(c, d, Move(c.state, CONNECTING))
            && (call.onReset == [] && call.onChanged == [] ==>
                  d.state == CONNECTING && d.conn == Live(false, false) && d.hsAt == call.now && !d.fence)
  {
    hide HistoryOk;
    var base := if c.state == RECONNECTING then c.(retry := c.retry.(at := 0), fence := true) else c;
    if c.state == RECONNECTING { FencedCalls(base, call.onReset); }
    var c1 := if c.state == RECONNECTING then DoCalls(base, call.onReset) else c;
    var up := c1.(conn := Live(false, false), fence := false);
    var a := Enter(up, CONNECTING, call.now);
    EnterHistory(up, CONNECTING, call.now);
    var d := DoCall(c, call);
    assert d == DoStart(c, call) == SetState(up, CONNECTING, call.now, call.onChanged) == DoCalls(a, call.onChanged);
    CallsKeep(a, call.onChanged);
    KeepsBegins(c, a, d, Move(c.state, CONNECTING));
    if call.onReset == [] && call.onChanged == [] { assert DoCalls(a, []) == a && DoCalls(base, []) == base; }
  }

  /** The handshake ends CONNECTING. */
  lemma HandshakeMoves(c: Client, e: Event)
    requires Inv(c) && e.HandshakeFinished? && Delivers(c, e)
    ensures var d := DoEvent(c, e);
            && Begins(c, d, Move(CONNECTING, AUTHENTICATING))
            && (e.onChanged == [] ==> d.state == AUTHENTICATING && d.conn == Live(false, true) && d.hsAt == 0)
  {
    hide HistoryOk;
    var c1 := c.(conn := c.conn.(shaken := true));
    var a := Enter(c1, AUTHENTICATING, 0);
    EnterHistory(c1, AUTHENTICATING, 0);
    assert DoEvent(c, e) == DoCalls(a, e.onChanged);
    CallsKeep(a, e.onChanged);
    KeepsBegins(c, a, DoEvent(c, e), Move(CONNECTING, AUTHENTICATING));
    assert DoCalls(a, []) == a;
  }

  /** An assigned address announces the tunnel and forgives earlier attempts. */
  lemma AddressAnnounces(c: Client, e: Event)
    requires Inv(c) && c.running && e.Body? && e.addressed && Delivers(c, e) && c.state == AUTHENTICATING
    requires !(e.validates && Disconnects(e.onValidated))
    ensures var d := DoEvent(c, e);
            && Begins(c, d, Move(AUTHENTICATING, TUNNEL_READY))
            && (e.onChanged == [] && e.onReady == [] && e.onRelease == [] ==> d.state == TUNNEL_READY && d.retry.attempts == 0)
  {
    hide HistoryOk;
    if e.validates { AnnouncingCalls(c, e.onValidated); }
    var c1 := BeforeReady(c, e);
    BeforeReadyKeeps(c, e);
    var a := Enter(c1, TUNNEL_READY, 0);
    var c2 := DoCalls(a, e.onChanged);
    CallsKeep(a, e.onChanged);
    var c3 := DoCalls(c2, e.onReady);
    CallsKeep(c2, e.onReady);
    var c4 := c3.(retry := c3.retry.(attempts := 0));
    CallsKeep(c4, e.onRelease);
    assert DoEvent(c, e) == DoTunnelReady(c, e) == DoCalls(c4, e.onRelease);
    assert a.past.moves == c.past.moves + [Move(AUTHENTICATING, TUNNEL_READY)];
    KeepsBegins(c, a, DoEvent(c, e), Move(AUTHENTICATING, TUNNEL_READY));
    assert DoCalls(a, []) == a && DoCalls(c4, []) == c4;
  }

  /** The embedder's TUN makes it ESTABLISHED; in any other state, or for a TUN that is down, the call
      does nothing. */
  lemma TunEstablishes(c: Client, active: bool, onChanged: seq<Call>)
    requires Inv(c)
    ensures var d := DoCall(c, SetTunActive(active, onChanged));
            if active && c.state == TUNNEL_READY then Begins(c, d, Move(TUNNEL_READY, ESTABLISHED)) else d == c
  {
    hide HistoryOk;
    if active && c.state == TUNNEL_READY {
      var a := Enter(c, ESTABLISHED, 0);
      EnterHistory(c, ESTABLISHED, 0);
      CallsKeep(a, onChanged);
      KeepsBegins(c, a, DoCalls(a, onChanged), Move(TUNNEL_READY, ESTABLISHED));
    }
  }

  /** A refused tunnel asks xquic to close the connection and changes nothing else. */
  lemma RefusalCloses(c: Client)
    requires Inv(c) && c.conn.Live?
    ensures DoEvent(c, TunnelRefused) == c.(conn := Live(true, c.conn.shaken))
  {
  }

  /** A connect that gets no connection: an IDLE client stays as it is, a RECONNECTING one waits again, one
      delay from now. In any other state, or inside another transaction, the call does nothing. */
  lemma ConnectRefused(c: Client, call: Call)
    requires Inv(c) && call.Connect? && !call.up && call.onReset == [] && call.onScheduled == []
    ensures DoCall(c, call) ==
            if c.state == RECONNECTING
            then c.(retry := c.retry.(at := call.now + Delay(c.retry) * 1_000_000, attempts := c.retry.attempts + 1)) else c
  {
    if c.state == RECONNECTING {
      var base := c.(retry := c.retry.(at := 0), fence := true);
      assert DoCalls(base, []) == base;
      var a := Arm(base.(fence := false), call.now);
      assert DoCalls(a, []) == a;
      assert DoStart(c, call) == a;
    }
  }

  /** A tick's engine pass delivers what xquic has: here the loss of the connection, after which the client
      waits for its timer. */
  lemma TickDelivers(c: Client, now: nat, t: nat)
    requires Inv(c) && c.state == ESTABLISHED && !c.running && !c.shutting && c.retry.enabled && now < t + Delay(c.retry) * 1_000_000
    ensures var e := ConnClosed(false, t, [], []);
            DoTick(c, Tick(true, now, [e], [], [], [], [], [], [])) == Lost(c, e)
  {
    var e := ConnClosed(false, t, [], []);
    var call := Tick(true, now, [e], [], [], [], [], [], []);
    var r := c.(running := true);
    LossLeads(r, e);
    var a := Lost(r, e);
    assert DoCalls(a, []) == a;
    OnePass(c, e);
    assert Watchdog(c, call) == c;
    assert DoPass(c, [e]) == Lost(c, e);
    assert Lost(c, e).state == RECONNECTING;
    assert DoTick(c, call) == DoPass(c, [e]);
  }

  // ---- the handshake watchdog ----

  /** A tick asks xquic to close a handshake exactly if it has lasted 5 seconds, by the clock that entering
      CONNECTING started; it does so once, and to a client that was not told to stop. */
  lemma WatchdogExactly(c: Client, call: Call)
    requires Inv(c) && call.Tick? && c.conn.Live?
    ensures var d := Watchdog(c, call);
            var late := c.state == CONNECTING && c.hsAt != 0 && call.now >= c.hsAt + 5_000_000 && !c.shutting;
            d == if late then c.(conn := Live(true, c.conn.shaken), hsAt := 0) else c
  {
  }

  /** For every time and state it is made in, a silent connect followed by a tick: the connection is asked
      to close if and only if five seconds have passed; an earlier tick leaves the client as it is. */
  lemma StallTimed(c: Client, start: nat, now: nat)
    requires Inv(c) && (c.state == IDLE || c.state == RECONNECTING) && start > 0 && !c.running && !c.shutting
    ensures var d := DoCall(c, Connect(true, start, [], [], []));
            var t := DoTick(d, Tick(true, now, [], [], [], [], [], [], []));
            t == if now >= start + 5_000_000 then d.(conn := Live(true, false), hsAt := 0) else d
  {
    var call := Connect(true, start, [], [], []);
    var tick := Tick(true, now, [], [], [], [], [], [], []);
    ConnectStarts(c, call);
    CallKeeps(c, call);
    var d := DoCall(c, call);
    StartQuietly(c, start);
    WatchdogExactly(d, tick);
    var w := Watchdog(d, tick);
    assert DoEvents(w.(running := true), []) == w.(running := true);
    assert DoPass(w, []) == w;
  }

  lemma StartQuietly(c: Client, start: nat)
    requires Inv(c) && (c.state == IDLE || c.state == RECONNECTING)
    ensures var d := DoCall(c, Connect(true, start, [], [], [])); d.running == c.running && d.shutting == c.shutting
  {
    var call := Connect(true, start, [], [], []);
    var base := if c.state == RECONNECTING then c.(retry := c.retry.(at := 0), fence := true) else c;
    assert DoCalls(base, []) == base;
    var up := base.(conn := Live(false, false), fence := false);
    assert DoCalls(Enter(up, CONNECTING, start), []) == Enter(up, CONNECTING, start);
    assert DoStart(c, call) == Enter(up, CONNECTING, start);
  }

  // ---- one life of a client ----

  /** The run that connects at clock 1, comes up, loses its connection at clock t and reaches the timer. */
  function Life(t: nat): seq<Call> {
    [Connect(true, 1, [], [], []), Receive([HandshakeFinished([])]), Receive([Body(true, false, [], [], [], [])]),
     SetTunActive(true, []), Receive([ConnClosed(false, t, [], [])]),
     Tick(true, t + 5_000_000, [], [], [], [], [], [], [])]
  }

  /** It goes through every state and is CONNECTING again five seconds after the loss. */
  lemma LifeRun(t: nat)
    ensures var c := DoCalls(Init(true, 5), Life(t));
            && c.state == CONNECTING && c.conn == Live(false, false)
            && c.past.moves == [Move(IDLE, CONNECTING), Move(CONNECTING, AUTHENTICATING), Move(AUTHENTICATING, TUNNEL_READY),
                                Move(TUNNEL_READY, ESTABLISHED), Move(ESTABLISHED, RECONNECTING), Move(RECONNECTING, CONNECTING)]
  {
    hide DoCalls, DoCall, DoPass;
    var calls := Life(t);
    var c0 := Observe(Init(true, 5));
    Up1(c0);
    var c1 := Observe(DoCall(c0, calls[0]));
    ReceiveIs(c1, [HandshakeFinished([])]);
    ShakeOnce(c1);
    var c2 := Observe(DoCall(c1, calls[1]));
    ReceiveIs(c2, [Body(true, false, [], [], [], [])]);
    AnnounceOnce(c2);
    var c3 := Observe(DoCall(c2, calls[2]));
    EstablishOnce(c3);
    var c4 := Observe(DoCall(c3, calls[3]));
    ReceiveIs(c4, [ConnClosed(false, t, [], [])]);
    LoseOnce(c4, t);
    var c5 := Observe(DoCall(c4, calls[4]));
    RetryOnce(c5, t);
    SixCalls(Init(true, 5), calls);
  }

  lemma SixCalls(c: Client, calls: seq<Call>)
    requires |calls| == 6
    ensures DoCalls(c, calls) ==
            DoCall(Observe(DoCall(Observe(DoCall(Observe(DoCall(Observe(DoCall(Observe(DoCall(Observe(c), calls[0])), calls[1])), calls[2])),
                                                                  calls[3])), calls[4])), calls[5])
  {
    hide DoCall, Observe, DoCalls;
    Front(c, calls, 0);
    var c1 := DoCall(Observe(c), calls[0]);
    Front(c1, calls, 1);
    var c2 := DoCall(Observe(c1), calls[1]);
    Front(c2, calls, 2);
    var c3 := DoCall(Observe(c2), calls[2]);
    Front(c3, calls, 3);
    var c4 := DoCall(Observe(c3), calls[3]);
    Front(c4, calls, 4);
    var c5 := DoCall(Observe(c4), calls[4]);
    Front(c5, calls, 5);
    NoCalls(DoCall(Observe(c5), calls[5]), calls[6..]);
    assert calls[0..] == calls;
  }

  lemma Front(c: Client, calls: seq<Call>, k: nat)
    requires k < |calls|
    ensures DoCalls(c, calls[k..]) == DoCalls(DoCall(Observe(c), calls[k]), calls[k + 1..])
  {
    hide DoCall, Observe;
    assert calls[k..][0] == calls[k] && calls[k..][1..] == calls[k + 1..];
  }

  lemma NoCalls(c: Client, calls: seq<Call>)
    requires calls == []
    ensures DoCalls(c, calls) == c
  {
  }

  lemma Up1(c: Client)
    requires c == Observe(Init(true, 5))
    ensures var d := DoCall(c, Connect(true, 1, [], [], []));
            && d.state == CONNECTING && d.conn == Live(false, false) && !d.running && !d.fence && !d.shutting
            && d.past.moves == [Move(IDLE, CONNECTING)] && d.retry == c.retry
  {
    var up := c.(conn := Live(false, false));
    assert DoCalls(Enter(up, CONNECTING, 1), []) == Enter(up, CONNECTING, 1);
    assert DoStart(c, Connect(true, 1, [], [], [])) == Enter(up, CONNECTING, 1);
  }

  lemma OnePass(c: Client, e: Event)
    requires !c.running && c.conn.Live? && Delivers(c, e)
    ensures DoPass(c, [e]) == DoEvent(c.(running := true), e).(running := false)
  {
    hide DoEvent;
    var r := c.(running := true);
    assert [e][1..] == [];
    assert DoEvents(r, [e]) == DoEvents(DoEvent(r, e), []);
  }

  lemma AnnounceOnce(c: Client)
    requires c.conn == Live(false, true) && c.state == AUTHENTICATING && !c.running
    ensures var d := DoPass(c, [Body(true, false, [], [], [], [])]);
            d == c.(state := TUNNEL_READY, retry := c.retry.(attempts := 0), past := c.past.(moves := c.past.moves + [Move(AUTHENTICATING, TUNNEL_READY)]))
  {
    var e := Body(true, false, [], [], [], []);
    OnePass(c, e);
    var r := c.(running := true);
    var a := Enter(r, TUNNEL_READY, 0);
    assert DoCalls(a, []) == a;
    var b := a.(retry := a.retry.(attempts := 0));
    assert DoCalls(b, []) == b;
    assert DoTunnelReady(r, e) == b;
  }

  lemma EstablishOnce(c: Client)
    requires c.state == TUNNEL_READY
    ensures DoCall(c, SetTunActive(true, [])) ==
            c.(state := ESTABLISHED, past := c.past.(moves := c.past.moves + [Move(TUNNEL_READY, ESTABLISHED)]))
  {
    var a := Enter(c, ESTABLISHED, 0);
    assert DoCalls(a, []) == a;
  }

  lemma LoseOnce(c: Client, t: nat)
    requires c.conn.Live? && c.state == ESTABLISHED && !c.running && !c.shutting && c.retry.enabled && c.retry.interval == 5 && c.retry.attempts == 0
    ensures var d := DoPass(c, [ConnClosed(false, t, [], [])]);
            d == c.(state := RECONNECTING, conn := None, retry := c.retry.(at := t + 5_000_000, attempts := 1),
                    past := c.past.(moves := c.past.moves + [Move(ESTABLISHED, RECONNECTING)]))
  {
    var e := ConnClosed(false, t, [], []);
    OnePass(c, e);
    var r := c.(running := true);
    var a := Enter(Arm(r.(conn := None), t), RECONNECTING, t);
    assert Delay(c.retry) == 5;
    assert DoCalls(a, []) == a;
    assert DoClosed(r, e) == a;
  }

  lemma RetryOnce(c: Client, t: nat)
    requires c.state == RECONNECTING && c.conn.None? && !c.running && !c.fence && c.retry.at == t + 5_000_000
    ensures var d := DoCall(c, Tick(true, t + 5_000_000, [], [], [], [], [], [], []));
            && d.state == CONNECTING && d.conn == Live(false, false) && d.past.moves == c.past.moves + [Move(RECONNECTING, CONNECTING)]
  {
    var call := Tick(true, t + 5_000_000, [], [], [], [], [], [], []);
    var base := c.(retry := c.retry.(at := 0), fence := true);
    assert DoCalls(base, []) == base;
    var up := base.(conn := Live(false, false), fence := false);
    var a := Enter(up, CONNECTING, call.now);
    assert DoCalls(a, []) == a;
    assert DoStart(c, call) == a;
    assert DoEvents(a.(running := true), []) == a.(running := true);
    assert DoPass(a, []) == a;
    assert DoPass(Watchdog(c, call), []) == c;
    assert DoTick(c, call) == a;
  }
}

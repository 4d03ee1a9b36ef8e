/**
 The outcome of one connection's CONNECT-IP request (src/mqvpn_client.c): a
 response decides it once, a failure is reported to the embedder once, and the
 reorder and scheduler echoes count only in the section that decided.
 */
module TunnelLatch {
  import opened Common

  const STATUS: string := ":status"
  const REORDER: string := "mqvpn-reorder"
  const REORDER_VALUE: string := "v1"
  const SCHEDULER: string := "mqvpn-scheduler"
  const REORDER_HEADER_LEN := 8
  const IPV6_MIN_MTU := 1280

  datatype Reason = Tls | Auth | Protocol | InvalidArg | Closed

  datatype Header = Header(name: string, value: string)

  /** `fired` is what the tunnel_closed callback was called with. */
  datatype Outcome = Outcome(ok: bool, notified: bool, reorder: bool, sched: Option<nat>, closeAsked: bool,
                             isOpen: bool, fired: seq<Reason>)

  const FRESH := Outcome(false, false, false, None, false, true, [])

  /** The status of a three-digit value, or -1. */
  function StatusValue(v: string): (st: int)
    ensures -1 <= st <= 999
  {
    if |v| == 3 && IsDigit(v[0]) && IsDigit(v[1]) && IsDigit(v[2])
    then (v[0] as int - '0' as int) * 100 + (v[1] as int - '0' as int) * 10 + (v[2] as int - '0' as int)
    else -1
  }

  predicate Interim(st: int) { 100 <= st < 200 }

  predicate FinalStatus(h: Header) { h.name == STATUS && !Interim(StatusValue(h.value)) }

  predicate IsEcho(h: Header) { h.name == REORDER && h.value == REORDER_VALUE }

  /** cli_classify_status. */
  function Classify(st: int): Reason { if st == 401 || st == 403 then Auth else Protocol }

  // ---- what a section says, independent of where in it ----

  /** The first status that is not interim decides; later ones are duplicates. */
  function Verdict(headers: seq<Header>): Option<int> {
    if headers == [] then None
    else if FinalStatus(headers[0]) then Some(StatusValue(headers[0].value))
    else Verdict(headers[1..])
  }

  predicate Echoes(headers: seq<Header>) { exists i {:trigger headers[i]} :: 0 <= i < |headers| && IsEcho(headers[i]) }

  /** The last scheduler field counts, if its name is known. */
  function SchedulerOf(headers: seq<Header>, known: map<string, nat>): Option<nat> {
    if headers == [] then None
    else
      var h := headers[|headers| - 1];
      if h.name == SCHEDULER then (if h.value in known then Some(known[h.value]) else None)
      else SchedulerOf(headers[..|headers| - 1], known)
  }

  /** The verdict of a section is its first status that is not interim; it has none if there is no such
      status. */
  lemma {:induction false} VerdictExactly(headers: seq<Header>)
    ensures var v := Verdict(headers);
            if v.None? then forall i {:trigger headers[i]} :: 0 <= i < |headers| ==> !FinalStatus(headers[i])
            else exists i {:trigger headers[i]} ::
              && 0 <= i < |headers| && FinalStatus(headers[i]) && v == Some(StatusValue(headers[i].value))
              && forall j {:trigger headers[j]} :: 0 <= j < i ==> !FinalStatus(headers[j])
    decreases headers
  {
    hide FinalStatus, StatusValue;
    if headers != [] {
      var rest := headers[1..];
      VerdictExactly(rest);
      var v := Verdict(headers);
      if FinalStatus(headers[0]) {
        assert FinalStatus(headers[0]) && v == Some(StatusValue(headers[0].value));
      } else if v.None? {
        forall i | 0 <= i < |headers| ensures !FinalStatus(headers[i]) { assert i > 0 ==> headers[i] == rest[i - 1]; }
      } else {
        var i :| 0 <= i < |rest| && FinalStatus(rest[i]) && v == Some(StatusValue(rest[i].value))
                 && forall j {:trigger rest[j]} :: 0 <= j < i ==> !FinalStatus(rest[j]);
        assert headers[i + 1] == rest[i];
        forall j | 0 <= j < i + 1 ensures !FinalStatus(headers[j]) { assert j > 0 ==> headers[j] == rest[j - 1]; }
      }
    }
  }

  /** The scheduler of a section is that named by its last mqvpn-scheduler field, if the name is known. */
  lemma {:induction false} SchedulerExactly(headers: seq<Header>, known: map<string, nat>)
    ensures var s := SchedulerOf(headers, known);
            || (s.None? && forall i {:trigger headers[i]} :: 0 <= i < |headers| ==> headers[i].name != "mqvpn-scheduler")
            || (exists i {:trigger headers[i]} ::
                  && 0 <= i < |headers| && headers[i].name == "mqvpn-scheduler"
                  && s == (if headers[i].value in known then Some(known[headers[i].value]) else None)
                  && forall j {:trigger headers[j]} :: i < j < |headers| ==> headers[j].name != "mqvpn-scheduler")
    decreases |headers|
  {
    if headers != [] {
      var n := |headers| - 1;
      var front := headers[..n];
      SchedulerExactly(front, known);
      if headers[n].name != SCHEDULER {
        var s := SchedulerOf(headers, known);
        if i :| 0 <= i < |front| && front[i].name == SCHEDULER
                && s == (if front[i].value in known then Some(known[front[i].value]) else None)
                && forall j {:trigger front[j]} :: i < j < |front| ==> front[j].name != SCHEDULER {
          assert headers[i] == front[i];
          forall j | i < j < |headers| ensures headers[j].name != SCHEDULER { assert j < n ==> headers[j] == front[j]; }
        } else {
          forall i | 0 <= i < |headers| ensures headers[i].name != SCHEDULER { assert i < n ==> headers[i] == front[i]; }
        }
      }
    }
  }

  /** Three digits are their number; anything else is no status. */
  lemma StatusExactly(v: string, a: nat, b: nat, c: nat)
    requires a < 10 && b < 10 && c < 10
    ensures StatusValue(v) == 100 * a + 10 * b + c <==> v == [Numeral(a), Numeral(b), Numeral(c)]
    ensures StatusValue(v) == -1 <==> !(|v| == 3 && IsDigit(v[0]) && IsDigit(v[1]) && IsDigit(v[2]))
  {
    if |v| == 3 { assert v == [v[0], v[1], v[2]]; }
  }

  function Numeral(d: nat): char
    requires d < 10
  {
    (d + '0' as int) as char
  }

  // ---- steps ----

  /** cli_signal_connect_fail. */
  function Signal(o: Outcome, r: Reason): Outcome {
    if o.notified then o else o.(notified := true, fired := o.fired + [r])
  }

  predicate Decided(o: Outcome) { o.ok || o.notified }

  /** What a header section does. */
  function Answered(o: Outcome, headers: seq<Header>, known: map<string, nat>): Outcome {
    match Verdict(headers)
    case None => o
    case Some(st) =>
      if Decided(o) then o
      else if st == 200 then
        var s := SchedulerOf(headers, known);
        o.(ok := true, reorder := o.reorder || Echoes(headers), sched := if s.Some? then s else o.sched)
      else Signal(o, if st < 0 then Protocol else Classify(st))
  }

  datatype Event =
    | CertRejected
    | Section(headers: seq<Header>, known: map<string, nat>)
    | MtuChecked(mtu: int, v6: bool, stamping: bool)
    | RequestClosed(shutting: bool)
    | ConnClosed

  /** cli_check_ipv6_mtu. */
  function MtuRefused(o: Outcome, mtu: int, v6: bool, stamping: bool): bool {
    v6 && mtu - (if stamping && o.reorder then REORDER_HEADER_LEN else 0) < IPV6_MIN_MTU
  }

  function Step(o: Outcome, e: Event): Outcome {
    if !o.isOpen then o
    else match e
    case CertRejected => Signal(o, Tls)
    case Section(headers, known) => Answered(o, headers, known)
    case MtuChecked(mtu, v6, stamping) =>
      if MtuRefused(o, mtu, v6, stamping) then Signal(o.(ok := false, closeAsked := true), InvalidArg) else o
    case RequestClosed(shutting) =>
      (if !o.ok && !shutting then Signal(o, Protocol) else o).(ok := false)
    case ConnClosed =>
      o.(isOpen := false, fired := if o.notified then o.fired else o.fired + [Closed])
  }

  function Run(o: Outcome, es: seq<Event>): Outcome
    decreases es
  {
    if es == [] then o else Run(Step(o, es[0]), es[1..])
  }

  lemma {:induction false} RunSnoc(o: Outcome, es: seq<Event>, e: Event)
    ensures Run(o, es + [e]) == Step(Run(o, es), e)
    decreases es
  {
    if es == [] {
      assert [e][1..] == [];
      assert es + [e] == [e];
    } else {
      assert (es + [e])[0] == es[0] && (es + [e])[1..] == es[1..] + [e];
      RunSnoc(Step(o, es[0]), es[1..], e);
    }
  }

  // ---- tunnel_closed fires exactly once ----

  predicate Once(o: Outcome) { |o.fired| == if o.notified || !o.isOpen then 1 else 0 }

  /** While the connection is open tunnel_closed was fired exactly if a failure was latched; by the time
      it is closed, exactly once, whatever happened in whatever order. */
  lemma {:induction false} FiresOnce(o: Outcome, es: seq<Event>)
    requires Once(o)
    ensures Once(Run(o, es))
    decreases es
  {
    if es != [] { FiresOnce(Step(o, es[0]), es[1..]); }
  }

  /** The first report stays: later events never replace or add a reason. */
  lemma {:induction false} FirstReasonStays(o: Outcome, es: seq<Event>)
    requires Once(o)
    ensures o.fired <= Run(o, es).fired
    decreases es
  {
    if es != [] {
      FiresOnce(o, es[..1]);
      assert es[..1] == [es[0]] && [es[0]][1..] == [];
      assert Run(o, [es[0]]) == Step(o, es[0]);
      FirstReasonStays(Step(o, es[0]), es[1..]);
    }
  }

  // ---- success and failure exclude each other ----

  predicate Both(o: Outcome) { o.ok && o.notified }

  /** The one event that can break it: a certificate rejected while the tunnel is up. */
  predicate Breaks(o: Outcome, e: Event) { o.isOpen && o.ok && !o.notified && e.CertRejected? }

  lemma StepExclusive(o: Outcome, e: Event)
    requires !Both(o)
    ensures Both(Step(o, e)) <==> Breaks(o, e)
  {
  }

  /** tunnel_ok and tunnel_notified never hold together in a run, if and only if no certificate is
      rejected after a 200 made the tunnel usable. */
  lemma {:induction false} ExclusiveExactly(es: seq<Event>)
    ensures (exists k :: 0 <= k <= |es| && Both(Run(FRESH, es[..k])))
       <==> (exists k {:trigger es[k]} :: 0 <= k < |es| && Breaks(Run(FRESH, es[..k]), es[k]))
  {
    hide Step;
    if k :| 0 <= k < |es| && Breaks(Run(FRESH, es[..k]), es[k]) {
      assert es[..k + 1] == es[..k] + [es[k]];
      RunSnoc(FRESH, es[..k], es[k]);
      StepExclusive(Run(FRESH, es[..k]), es[k]);
      assert Both(Run(FRESH, es[..k + 1]));
    }
    if k :| 0 <= k <= |es| && Both(Run(FRESH, es[..k])) { FirstBreak(es, k); }
  }

  lemma {:induction false} FirstBreak(es: seq<Event>, k: nat)
    requires k <= |es| && Both(Run(FRESH, es[..k]))
    ensures exists j {:trigger es[j]} :: 0 <= j < k && Breaks(Run(FRESH, es[..j]), es[j])
    decreases k
  {
    hide Step;
    assert k > 0;
    assert es[..k] == es[..k - 1] + [es[k - 1]];
    RunSnoc(FRESH, es[..k - 1], es[k - 1]);
    if Both(Run(FRESH, es[..k - 1])) {
      FirstBreak(es, k - 1);
    } else {
      StepExclusive(Run(FRESH, es[..k - 1]), es[k - 1]);
      assert Breaks(Run(FRESH, es[..k - 1]), es[k - 1]);
    }
  }

  /** Only a header section makes the tunnel usable. */
  lemma {:induction false} OkNeedsSection(es: seq<Event>, n: nat)
    requires n <= |es| && Run(FRESH, es[..n]).ok
    ensures exists j :: 0 <= j < n && es[j].Section?
    decreases n
  {
    assert n > 0;
    assert es[..n] == es[..n - 1] + [es[n - 1]];
    RunSnoc(FRESH, es[..n - 1], es[n - 1]);
    if !es[n - 1].Section? { OkNeedsSection(es, n - 1); }
  }

  /** With every certificate judged before the first section arrives, as a handshake that completes
      before any response has it, success and failure exclude each other throughout. */
  lemma EarlyRejectionsExclusive(es: seq<Event>, k: nat)
    requires forall i, j :: 0 <= i < j < |es| && es[i].Section? ==> !es[j].CertRejected?
    requires k <= |es|
    ensures !Both(Run(FRESH, es[..k]))
  {
    if Both(Run(FRESH, es[..k])) {
      FirstBreak(es, k);
      var j :| 0 <= j < k && Breaks(Run(FRESH, es[..j]), es[j]);
      OkNeedsSection(es, j);
    }
  }

  /** Such a run exists. */
  lemma LateRejection()
    ensures Both(Run(FRESH, [Section([Header(STATUS, "200")], map[]), CertRejected]))
  {
    var a := Section([Header(STATUS, "200")], map[]);
    assert FinalStatus(Header(STATUS, "200"));
    assert Verdict([Header(STATUS, "200")]) == Some(200);
    var o := Step(FRESH, a);
    assert [a, CertRejected][1..] == [CertRejected] && [CertRejected][1..] == [];
    assert Run(o, [CertRejected]) == Step(o, CertRejected);
  }

  // ---- the echo ----

  /** Section e decides in favour of the tunnel and carries the reorder echo. */
  predicate Grants(o: Outcome, e: Event) {
    o.isOpen && e.Section? && !Decided(o) && Verdict(e.headers) == Some(200) && Echoes(e.headers)
  }

  /** Reorder stamping is on if and only if some section granted it; interim responses, trailers and
      duplicate answers cannot. */
  lemma {:induction false} StampingGrantedExactly(es: seq<Event>, n: nat)
    requires n <= |es|
    ensures Run(FRESH, es[..n]).reorder <==> exists k {:trigger es[k]} :: 0 <= k < n && Grants(Run(FRESH, es[..k]), es[k])
    decreases n
  {
    hide Step, Grants;
    if n > 0 {
      StampingGrantedExactly(es, n - 1);
      assert es[..n] == es[..n - 1] + [es[n - 1]];
      RunSnoc(FRESH, es[..n - 1], es[n - 1]);
      GrantStep(Run(FRESH, es[..n - 1]), es[n - 1]);
    }
  }

  /** The server's scheduler is adopted from the section that decides for the tunnel and from no other. */
  lemma SchedulerAdopted(o: Outcome, e: Event)
    ensures var deciding := o.isOpen && e.Section? && !Decided(o) && Verdict(e.headers) == Some(200);
            Step(o, e).sched == if deciding && SchedulerOf(e.headers, e.known).Some? then SchedulerOf(e.headers, e.known) else o.sched
  {
  }

  lemma GrantStep(o: Outcome, e: Event)
    ensures Step(o, e).reorder <==> o.reorder || Grants(o, e)
  {
  }

  /** What an undecided connection reports on a section: nothing for a 200 or no final status; an
      authentication failure exactly for 401 and 403; a protocol failure for anything else. */
  lemma SectionReportsExactly(o: Outcome, headers: seq<Header>, known: map<string, nat>)
    requires o.isOpen && !Decided(o)
    ensures var v := Verdict(headers); var fired := Step(o, Section(headers, known)).fired;
            && (fired == o.fired <==> v.None? || v == Some(200))
            && (fired == o.fired + [Auth] <==> v == Some(401) || v == Some(403))
            && (fired == o.fired + [Protocol] <==> v.Some? && v.value !in {200, 401, 403})
  {
    assert |o.fired + [Auth]| == |o.fired + [Protocol]| == |o.fired| + 1;
    assert (o.fired + [Auth])[|o.fired|] != (o.fired + [Protocol])[|o.fired|];
  }

  /** Interim statuses decide nothing and change nothing, echo or not. */
  lemma {:induction false} InterimChangesNothing(o: Outcome, headers: seq<Header>, known: map<string, nat>)
    requires forall i {:trigger headers[i]} :: 0 <= i < |headers| && headers[i].name == STATUS ==> Interim(StatusValue(headers[i].value))
    ensures Step(o, Section(headers, known)) == o
  {
    NoVerdict(headers);
  }

  lemma {:induction false} NoVerdict(headers: seq<Header>)
    requires forall i {:trigger headers[i]} :: 0 <= i < |headers| && headers[i].name == STATUS ==> Interim(StatusValue(headers[i].value))
    ensures Verdict(headers) == None
    decreases headers
  {
    if headers != [] {
      assert !FinalStatus(headers[0]);
      NoVerdict(headers[1..]);
    }
  }

  // ---- in place ----

  lemma {:induction false} VerdictSplit(a: seq<Header>, b: seq<Header>)
    ensures Verdict(a + b) == if Verdict(a).Some? then Verdict(a) else Verdict(b)
    decreases a
  {
    if a == [] {
      assert a + b == b;
    } else {
      assert (a + b)[0] == a[0] && (a + b)[1..] == a[1..] + b;
      VerdictSplit(a[1..], b);
    }
  }

  lemma VerdictNext(headers: seq<Header>, i: nat)
    requires i < |headers|
    ensures Verdict(headers[..i + 1]) == if Verdict(headers[..i]).Some? then Verdict(headers[..i])
                                         else if FinalStatus(headers[i]) then Some(StatusValue(headers[i].value)) else None
  {
    assert headers[..i + 1] == headers[..i] + [headers[i]];
    VerdictSplit(headers[..i], [headers[i]]);
    assert [headers[i]][1..] == [];
  }

  lemma EchoNext(headers: seq<Header>, i: nat)
    requires i < |headers|
    ensures Echoes(headers[..i + 1]) == (Echoes(headers[..i]) || IsEcho(headers[i]))
  {
    var a, b := headers[..i], headers[..i + 1];
    if Echoes(a) { var j :| 0 <= j < |a| && IsEcho(a[j]); assert b[j] == a[j]; }
    if IsEcho(headers[i]) { assert b[i] == headers[i]; }
    if Echoes(b) { var j :| 0 <= j < |b| && IsEcho(b[j]); assert j < i ==> a[j] == b[j]; }
  }

  class Tunnel {
    var ok: bool
    var notified: bool
    var reorder: bool
    var sched: Option<nat>
    var closeAsked: bool
    var isOpen: bool
    var fired: seq<Reason>

    function View(): Outcome
      reads this
    {
      Outcome(ok, notified, reorder, sched, closeAsked, isOpen, fired)
    }

    constructor ()
      ensures View() == FRESH
    {
      ok, notified, reorder, sched, closeAsked, isOpen, fired := false, false, false, None, false, true, [];
    }

    method SignalFailure(r: Reason)
      modifies this
      ensures View() == Signal(old(View()), r)
    {
      if notified { return; }
      notified := true;
      fired := fired + [r];
    }

    /** One :status field of cli_connect_ip_scan_headers. */
    method ScanStatus(value: string, finalSeen: bool) returns (seen: bool, decided: bool)
      requires finalSeen == Decided(View())
      modifies this
      ensures var st := StatusValue(value);
              && seen == (finalSeen || !Interim(st)) == Decided(View())
              && decided == (!finalSeen && st == 200)
              && View() == (if finalSeen || Interim(st) then old(View())
                            else if st == 200 then old(View()).(ok := true)
                            else Signal(old(View()), if st < 0 then Protocol else Classify(st)))
    {
      seen, decided := finalSeen, false;
      var st := StatusValue(value);
      if 100 <= st < 200 {
      } else if finalSeen {
      } else if st == 200 {
        seen, decided := true, true;
        ok := true;
      } else if st < 0 {
        seen := true;
        SignalFailure(Protocol);
      } else {
        seen := true;
        SignalFailure(Classify(st));
      }
    }

    /** cli_connect_ip_scan_headers: one pass, however the fields are ordered. */
    method ScanHeaders(headers: seq<Header>, known: map<string, nat>)
      requires isOpen
      modifies this
      ensures View() == Step(old(View()), Section(headers, known))
    {
      ghost var o := View();
      var finalSeen := ok || notified;
      var decided, echo := false, false;
      var scheduler: Option<nat> := None;
      var i := 0;
      while i < |headers|
        invariant 0 <= i <= |headers|
        invariant finalSeen == Decided(View()) == (Decided(o) || Verdict(headers[..i]).Some?)
        invariant decided == (!Decided(o) && Verdict(headers[..i]) == Some(200))
        invariant echo == Echoes(headers[..i])
        invariant scheduler == SchedulerOf(headers[..i], known)
        invariant View() == Progress(o, Verdict(headers[..i]))
      {
        VerdictNext(headers, i);
        EchoNext(headers, i);
        assert headers[..i + 1][..i] == headers[..i];
        var h := headers[i];
        if h.name == STATUS {
          var now;
          finalSeen, now := ScanStatus(h.value, finalSeen);
          decided := decided || now;
        }
        if h.name == REORDER && h.value == REORDER_VALUE { echo := true; }
        if h.name == SCHEDULER { scheduler := if h.value in known then Some(known[h.value]) else None; }
        i := i + 1;
      }
      assert headers[..i] == headers;
      if decided && echo { reorder := true; }
      if decided && scheduler.Some? { sched := scheduler; }
    }

    /** cli_connect_ip_on_request_close: the tunnel is not usable any more. The close of one that never
        was is a protocol failure, unless another reason was reported first. */
    method OnRequestClose(shutting: bool)
      requires isOpen
      modifies this
      ensures View() == Step(old(View()), RequestClosed(shutting))
      ensures Once(old(View())) ==> Once(View())
      ensures !ok && isOpen && (old(ok) || shutting ==> fired == old(fired))
      ensures Once(old(View())) && !old(ok) && !shutting ==> fired == if old(notified) then old(fired) else [Protocol]
    {
      if !ok && !shutting { SignalFailure(Protocol); }
      ok := false;
    }

    /** cli_check_ipv6_mtu. */
    method CheckMtu(mtu: int, v6: bool, stamping: bool) returns (refused: bool)
      requires isOpen
      modifies this
      ensures View() == Step(old(View()), MtuChecked(mtu, v6, stamping))
      ensures refused <==> v6 && mtu - (if stamping && old(reorder) then 8 else 0) < 1280
      ensures refused ==> !ok && closeAsked && (Once(old(View())) ==> fired == if old(notified) then old(fired) else [InvalidArg])
      ensures !refused ==> View() == old(View())
    {
      var m := mtu;
      if stamping && reorder { m := m - REORDER_HEADER_LEN; }
      if !v6 || m >= IPV6_MIN_MTU { return false; }
      ok := false;
      closeAsked := true;
      SignalFailure(InvalidArg);
      return true;
    }

    /** cli_notify_conn_closed and the end of the connection: by now tunnel_closed has fired exactly once,
        with the reason latched before if there is one. */
    method OnConnClosed()
      requires isOpen
      modifies this
      ensures View() == Step(old(View()), ConnClosed)
      ensures Once(old(View())) ==> |fired| == 1 && fired == if old(notified) then old(fired) else [Closed]
    {
      if !notified { fired := fired + [Closed]; }
      isOpen := false;
    }
  }

  /** The outcome after the statuses read so far, before the echoes are applied. */
  function Progress(o: Outcome, v: Option<int>): Outcome {
    match v
    case None => o
    case Some(st) =>
      if Decided(o) then o
      else if st == 200 then o.(ok := true)
      else Signal(o, if st < 0 then Protocol else Classify(st))
  }
}

/**
 Which fields of a backend's header block cross the proxy, stated on the list of
 fields the backend sent: a block is accepted or rejected as a whole, and an
 accepted one loses exactly its connection-specific fields.
 */
module RelayHeaders {
  import opened Common
  import opened ResponseOrder
  import opened Relay
  import opened RelayCallbacks

  /** The fields of section 8.2.2 of RFC 9113, which concern one connection only. */
  predicate ConnectionSpecific(h: Header) {
    || h.name == "connection" || h.name == "keep-alive" || h.name == "proxy-connection"
    || h.name == "transfer-encoding" || h.name == "upgrade" || (h.name == "te" && h.value != "trailers")
  }

  /** The fields that cross, in order. */
  function Forwarded(fields: seq<Header>): seq<Header> {
    if fields == [] then []
    else (if ConnectionSpecific(fields[0]) then [] else [fields[0]]) + Forwarded(fields[1..])
  }

  function Size(fields: seq<Header>): nat {
    if fields == [] then 0 else |fields[0].name| + |fields[0].value| + Size(fields[1..])
  }

  predicate Pseudo(h: Header) { h.name != "" && h.name[0] == ':' }

  function StatusNumber(v: string): int {
    if |v| == 3 && IsDigit(v[0]) && IsDigit(v[1]) && IsDigit(v[2])
    then (v[0] as int - '0' as int) * 100 + (v[1] as int - '0' as int) * 10 + (v[2] as int - '0' as int)
    else -1
  }

  /** A status from 100 to 599 other than 101 (Switching Protocols). */
  predicate StatusField(h: Header) {
    h.name == ":status" && 100 <= StatusNumber(h.value) <= 599 && StatusNumber(h.value) != 101
  }

  ghost predicate OnePseudo(fields: seq<Header>) {
    forall i, j {:trigger fields[i], fields[j]} :: 0 <= i < j < |fields| ==> !(Pseudo(fields[i]) && Pseudo(fields[j]))
  }

  ghost predicate PseudosOk(fields: seq<Header>, allowed: bool) {
    forall i {:trigger fields[i]} :: 0 <= i < |fields| && Pseudo(fields[i]) ==> allowed && StatusField(fields[i])
  }

  /** The block is acceptable: its only pseudo-field is a good status, trailers have none, and what
      crosses is at most 256 fields of 32768 bytes together. */
  ghost predicate Acceptable(fields: seq<Header>, trailers: bool) {
    PseudosOk(fields, !trailers) && OnePseudo(fields) && |Forwarded(fields)| <= 256 && Size(Forwarded(fields)) <= 32 * 1024
  }

  ghost predicate HasStatus(fields: seq<Header>) { exists i {:trigger fields[i]} :: 0 <= i < |fields| && Pseudo(fields[i]) }

  ghost predicate Provisional(fields: seq<Header>) {
    exists i {:trigger fields[i]} :: 0 <= i < |fields| && Pseudo(fields[i]) && StatusNumber(fields[i].value) < 200
  }

  // ---- one field ----

  lemma SpecificIs(h: Header)
    ensures HopByHop(h) <==> ConnectionSpecific(h)
    ensures ConnectionSpecific(h) ==> !Pseudo(h)
  {
  }

  lemma StatusIs(h: Header)
    requires Pseudo(h)
    ensures (h.name == ":status" && GoodStatus(h.value)) <==> StatusField(h)
    ensures StatusField(h) ==> (h.value[0] == '1' <==> StatusNumber(h.value) < 200)
  {
    if |h.value| == 3 && h.value[0] == '1' && h.value[1] == '0' && h.value[2] == '1' { assert h.value == "101"; }
  }

  /** What collecting from c on needs of the rest of the block. */
  ghost predicate RestOk(c: Collect, fields: seq<Header>) {
    && PseudosOk(fields, !c.trailers && !c.statusSeen) && OnePseudo(fields)
    && |c.block| + |Forwarded(fields)| <= MAX_HEADERS && c.bytes + Size(Forwarded(fields)) <= MAX_HEADER_BYTES
  }

  ghost predicate Collected(c: Collect, d: Collect, fields: seq<Header>) {
    && d.block == c.block + Forwarded(fields) && d.trailers == c.trailers
    && (d.statusSeen <==> c.statusSeen || HasStatus(fields))
    && (d.informational <==> if HasStatus(fields) then Provisional(fields) else c.informational)
  }

  lemma PseudoTail(fields: seq<Header>, allowed: bool)
    requires fields != []
    ensures var rest := fields[1..];
            && (PseudosOk(fields, allowed) <==> PseudosOk(rest, allowed) && (Pseudo(fields[0]) ==> allowed && StatusField(fields[0])))
            && (OnePseudo(fields) <==> OnePseudo(rest) && (Pseudo(fields[0]) ==> !HasStatus(rest)))
            && (HasStatus(fields) <==> Pseudo(fields[0]) || HasStatus(rest))
            && (HasStatus(rest) <==> !PseudosOk(rest, false))
            && (Provisional(fields) <==> (Pseudo(fields[0]) && StatusNumber(fields[0].value) < 200) || Provisional(rest))
            && (Provisional(rest) ==> HasStatus(rest))
  {
    hide StatusField, StatusNumber;
    var rest := fields[1..];
    forall i | 0 <= i < |rest| ensures rest[i] == fields[i + 1] {}
    if PseudosOk(rest, allowed) && (Pseudo(fields[0]) ==> allowed && StatusField(fields[0])) {
      forall i | 0 <= i < |fields| && Pseudo(fields[i]) ensures allowed && StatusField(fields[i]) {
        assert i > 0 ==> fields[i] == rest[i - 1];
      }
    }
    if PseudosOk(fields, allowed) {
      forall i | 0 <= i < |rest| && Pseudo(rest[i]) ensures allowed && StatusField(rest[i]) { assert rest[i] == fields[i + 1]; }
    }
    OnePseudoTail(fields);
    StatusTail(fields);
  }

  lemma OnePseudoTail(fields: seq<Header>)
    requires fields != []
    ensures OnePseudo(fields) <==> OnePseudo(fields[1..]) && (Pseudo(fields[0]) ==> !HasStatus(fields[1..]))
  {
    var rest := fields[1..];
    if OnePseudo(fields) {
      forall i, j | 0 <= i < j < |rest| ensures !(Pseudo(rest[i]) && Pseudo(rest[j])) {
        assert rest[i] == fields[i + 1] && rest[j] == fields[j + 1];
      }
      forall i | 0 <= i < |rest| && Pseudo(fields[0]) ensures !Pseudo(rest[i]) { assert fields[i + 1] == rest[i]; }
    }
    if OnePseudo(rest) && (Pseudo(fields[0]) ==> !HasStatus(rest)) {
      forall i, j | 0 <= i < j < |fields| ensures !(Pseudo(fields[i]) && Pseudo(fields[j])) {
        assert fields[j] == rest[j - 1] && (i > 0 ==> fields[i] == rest[i - 1]);
      }
    }
  }

  lemma StatusTail(fields: seq<Header>)
    requires fields != []
    ensures HasStatus(fields) <==> Pseudo(fields[0]) || HasStatus(fields[1..])
    ensures Provisional(fields) <==> (Pseudo(fields[0]) && StatusNumber(fields[0].value) < 200) || Provisional(fields[1..])
  {
    hide StatusNumber, Pseudo;
    var rest := fields[1..];
    if i :| 0 <= i < |rest| && Pseudo(rest[i]) { assert fields[i + 1] == rest[i]; }
    if i :| 0 <= i < |fields| && Pseudo(fields[i]) { assert i > 0 ==> fields[i] == rest[i - 1]; }
    if i :| 0 <= i < |rest| && Pseudo(rest[i]) && StatusNumber(rest[i].value) < 200 { assert fields[i + 1] == rest[i]; }
    if i :| 0 <= i < |fields| && Pseudo(fields[i]) && StatusNumber(fields[i].value) < 200 { assert i > 0 ==> fields[i] == rest[i - 1]; }
  }

  /** One field: skipped, refused or appended. */
  lemma FieldIs(c: Collect, h: Header)
    ensures var (d, ok) := CollectField(c, h);
            && (ConnectionSpecific(h) ==> ok && d == c && !Pseudo(h))
            && (!ConnectionSpecific(h) ==>
                  && (ok <==> (Pseudo(h) ==> !c.trailers && !c.statusSeen && StatusField(h))
                              && |c.block| < MAX_HEADERS && c.bytes + |h.name| + |h.value| <= MAX_HEADER_BYTES)
                  && (ok ==> d.block == c.block + [h] && d.bytes == c.bytes + |h.name| + |h.value| && d.trailers == c.trailers
                             && d.statusSeen == (c.statusSeen || Pseudo(h))
                             && d.informational == if Pseudo(h) then StatusNumber(h.value) < 200 else c.informational))
  {
    hide HopByHop, GoodStatus, ConnectionSpecific, Pseudo, StatusField, StatusNumber;
    SpecificIs(h);
    PseudoIs(h);
    if Pseudo(h) { StatusIs(h); }
  }

  lemma RestSplit(c: Collect, fields: seq<Header>)
    requires fields != []
    ensures var (d, ok) := CollectField(c, fields[0]);
            RestOk(c, fields) <==> ok && RestOk(d, fields[1..])
  {
    hide CollectField, ConnectionSpecific, Pseudo, StatusField, StatusNumber, PseudosOk, OnePseudo, HasStatus, Provisional;
    FieldIs(c, fields[0]);
    PseudoTail(fields, !c.trailers && !c.statusSeen);
    ForwardedTail(fields);
    NotAllowed(fields[1..]);
  }

  lemma ForwardedTail(fields: seq<Header>)
    requires fields != []
    ensures var rest, more := Forwarded(fields[1..]), Forwarded(fields);
            if ConnectionSpecific(fields[0]) then more == rest
            else more == [fields[0]] + rest && Size(more) == |fields[0].name| + |fields[0].value| + Size(rest)
  {
    hide ConnectionSpecific;
    assert ([fields[0]] + Forwarded(fields[1..]))[1..] == Forwarded(fields[1..]);
  }

  lemma NotAllowed(fields: seq<Header>)
    ensures PseudosOk(fields, false) <==> !HasStatus(fields)
    ensures !HasStatus(fields) ==> PseudosOk(fields, true)
  {
    hide StatusField;
    if !PseudosOk(fields, false) {
      var i :| 0 <= i < |fields| && Pseudo(fields[i]);
    }
  }

  lemma CollectedSplit(c: Collect, c': Collect, d: Collect, fields: seq<Header>)
    requires fields != [] && CollectField(c, fields[0]) == (c', true) && Collected(c', d, fields[1..]) && RestOk(c, fields)
    ensures Collected(c, d, fields)
  {
    hide CollectField, ConnectionSpecific, Pseudo, StatusField, StatusNumber, PseudosOk, OnePseudo, HasStatus, Provisional, Forwarded, Size;
    FieldIs(c, fields[0]);
    PseudoTail(fields, !c.trailers && !c.statusSeen);
    ForwardedTail(fields);
    Rejoined(c.block, fields[0], Forwarded(fields[1..]));
  }

  lemma Rejoined(a: seq<Header>, h: Header, b: seq<Header>)
    ensures (a + [h]) + b == a + ([h] + b)
  {
  }

  lemma {:induction false} CollectsRest(c: Collect, fields: seq<Header>)
    requires |c.block| <= MAX_HEADERS && c.bytes <= MAX_HEADER_BYTES
    ensures var (d, ok) := CollectAll(c, fields);
            (ok <==> RestOk(c, fields)) && (ok ==> Collected(c, d, fields))
    decreases fields
  {
    hide CollectField, RestOk, Collected;
    if fields == [] {
      NothingLeft(c);
    } else {
      RestSplit(c, fields);
      FieldIs(c, fields[0]);
      var (c', ok) := CollectField(c, fields[0]);
      if ok {
        CollectsRest(c', fields[1..]);
        if RestOk(c, fields) { CollectedSplit(c, c', CollectAll(c', fields[1..]).0, fields); }
      }
    }
  }

  lemma PseudoIs(h: Header)
    ensures Pseudo(h) <==> |h.name| > 0 && h.name[0] == ':'
  {
  }

  lemma NothingLeft(c: Collect)
    requires |c.block| <= MAX_HEADERS && c.bytes <= MAX_HEADER_BYTES
    ensures RestOk(c, []) && Collected(c, c, []) && CollectAll(c, []) == (c, true)
  {
  }

  /** Collection accepts exactly the acceptable blocks, and what it collects is exactly the fields that
      cross. */
  lemma CollectsExactly(fields: seq<Header>, trailers: bool)
    ensures var (c, ok) := CollectAll(Collect([], 0, false, trailers, false, false), fields);
            && (ok <==> Acceptable(fields, trailers))
            && (ok ==> c.block == Forwarded(fields) && c.trailers == trailers
                       && (c.statusSeen <==> HasStatus(fields)) && (c.informational <==> Provisional(fields)))
  {
    hide CollectAll, PseudosOk, OnePseudo, HasStatus, Provisional;
    CollectsRest(Collect([], 0, false, trailers, false, false), fields);
    assert [] + Forwarded(fields) == Forwarded(fields);
    NoStatusFinal(fields);
  }

  lemma NoStatusFinal(fields: seq<Header>)
    ensures Provisional(fields) ==> HasStatus(fields)
  {
    if i :| 0 <= i < |fields| && Pseudo(fields[i]) && StatusNumber(fields[i].value) < 200 {}
  }

  /** What every forwarded block is made of: a field crosses if and only if it was sent and is not
      connection-specific. */
  lemma {:induction false} CrossesExactly(fields: seq<Header>, h: Header)
    ensures h in Forwarded(fields) <==> h in fields && !ConnectionSpecific(h)
  {
    hide ConnectionSpecific;
    if fields != [] {
      assert fields == [fields[0]] + fields[1..];
      CrossesExactly(fields[1..], h);
    }
  }

  // ---- the header callbacks ----

  /** A HEADERS frame the proxy relays: an acceptable block, with a status unless it is trailers, and
      an interim one does not end the stream. */
  ghost predicate Relayable(s: Stream, fields: seq<Header>, end: bool) {
    Acceptable(fields, s.life.started) && (s.life.started || HasStatus(fields)) && !(Provisional(fields) && end)
  }

  /** The header callbacks fail for every other frame, and relay exactly the forwarded fields. */
  lemma HeadersRelayed(s: Stream, fields: seq<Header>, end: bool, rs: seq<Reply>)
    requires !s.hdr.pending
    ensures var f := OnHeaders(s, fields, end, rs);
            && (!Relayable(s, fields, end) ==> f.out == Fail && f.s.log == s.log)
            && (Relayable(s, fields, end) ==>
                  f.s.log.received == s.log.received + ([Head(Forwarded(fields))] + (if end then [Fin] else [])))
  {
    hide CollectAll, Flush, Acceptable, HasStatus, Provisional;
    CollectsExactly(fields, s.life.started);
    var (c, ok) := CollectAll(Collect([], 0, false, s.life.started, false, false), fields);
    FlushReceives(WithBlock(s, c, end), rs);
  }

  // ---- a flush delivers nothing ----

  lemma {:induction false} FlushBodyReceives(s: Stream, rs: seq<Reply>)
    ensures FlushBody(s, rs).s.log.received == s.log.received && FlushBody(s, rs).s.life.fate == s.life.fate
    decreases |s.buf.body| - s.buf.off
  {
    if Avail(s.buf) != [] {
      var f := OfferBody(s, rs);
      assert f.s.log.received == s.log.received && f.s.life.fate == s.life.fate;
      if f.out == Go { FlushBodyReceives(f.s, f.rest); }
    }
  }

  lemma FlushEndReceives(s: Stream, rs: seq<Reply>)
    ensures FlushEnd(s, rs).s.log.received == s.log.received && FlushEnd(s, rs).s.life.fate == s.life.fate
  {
    var f := FlushTrailers(s, rs);
    assert f.s.log.received == s.log.received && f.s.life.fate == s.life.fate;
  }

  lemma FlushReceives(s: Stream, rs: seq<Reply>)
    ensures Flush(s, rs).s.log.received == s.log.received && Flush(s, rs).s.life.fate == s.life.fate
  {
    hide FlushBody, FlushEnd;
    var f1 := FlushHead(s, rs);
    assert f1.s.log.received == s.log.received && f1.s.life.fate == s.life.fate;
    FlushBodyReceives(f1.s, f1.rest);
    var f2 := FlushBody(f1.s, f1.rest);
    FlushEndReceives(f2.s, f2.rest);
  }
}

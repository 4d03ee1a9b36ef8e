/**
 Which addresses a CONNECT-IP stream gives the client: of each family, that of
 the first entry the stream offers, whatever way the stream is cut; and entries
 as they are written are read back.
 */
module CapsuleAddresses {
  import opened Common
  import opened Capsules

  // ---- what a stream offers ----

  /** The entries of an ADDRESS_ASSIGN payload, up to the first malformed one. */
  function Entries(payload: Bytes): seq<Entry>
    decreases |payload|
  {
    var e := ReadEntry(payload);
    if payload == [] || e.None? then [] else [e.value] + Entries(payload[e.value.size..])
  }

  /** A capsule that asks for the connection to be closed: a route advertisement that is not valid. */
  predicate Stops(c: Capsule, valid: Bytes -> bool) { c.kind == 3 && !valid(c.payload) }

  /** The entries of all ADDRESS_ASSIGN capsules of the stream, in order, up to a capsule that stops it. */
  function Offered(b: Bytes, valid: Bytes -> bool): seq<Entry>
    decreases |b|
  {
    var c := Decode(b);
    if c.None? || Stops(c.value, valid) then []
    else (if c.value.kind == 1 then Entries(c.value.payload) else []) + Offered(b[c.value.size..], valid)
  }

  /** Some capsule of the stream stops it. */
  predicate Stopped(b: Bytes, valid: Bytes -> bool)
    decreases |b|
  {
    var c := Decode(b);
    c.Some? && (Stops(c.value, valid) || Stopped(b[c.value.size..], valid))
  }

  /** a is the address of the first of these entries with the given IP version, None if there is none. */
  ghost predicate IsFirst(es: seq<Entry>, version: nat, a: Option<Address>) {
    if a.None? then forall i {:trigger es[i]} :: 0 <= i < |es| ==> es[i].version != version
    else exists i {:trigger es[i]} ::
      && 0 <= i < |es| && es[i].version == version && a.value == Address(es[i].address, es[i].prefix)
      && forall j {:trigger es[j]} :: 0 <= j < i ==> es[j].version != version
  }

  // ---- what the client keeps ----

  function Pick(es: seq<Entry>, version: nat): Option<Address> {
    if es == [] then None
    else if es[0].version == version then Some(Address(es[0].address, es[0].prefix))
    else Pick(es[1..], version)
  }

  function Or(a: Option<Address>, b: Option<Address>): Option<Address> { if a.Some? then a else b }

  lemma {:induction false} PickIsFirst(es: seq<Entry>, version: nat)
    ensures IsFirst(es, version, Pick(es, version))
    decreases es
  {
    if es != [] {
      var rest := es[1..];
      PickIsFirst(rest, version);
      var a := Pick(es, version);
      if es[0].version == version {
        assert es[0].version == version;
      } else if a.None? {
        forall i | 0 <= i < |es| ensures es[i].version != version { assert i > 0 ==> es[i] == rest[i - 1]; }
      } else {
        var i :| 0 <= i < |rest| && rest[i].version == version && a.value == Address(rest[i].address, rest[i].prefix)
                 && forall j {:trigger rest[j]} :: 0 <= j < i ==> rest[j].version != version;
        assert es[i + 1] == rest[i];
        forall j | 0 <= j < i + 1 ensures es[j].version != version { assert j > 0 ==> es[j] == rest[j - 1]; }
      }
    }
  }

  lemma {:induction false} PickSplit(a: seq<Entry>, b: seq<Entry>, version: nat)
    ensures Pick(a + b, version) == Or(Pick(a, version), Pick(b, version))
    decreases a
  {
    if a == [] {
      assert a + b == b;
    } else {
      assert (a + b)[0] == a[0] && (a + b)[1..] == a[1..] + b;
      PickSplit(a[1..], b, version);
    }
  }

  lemma {:induction false} AssignPicks(s: Learned, payload: Bytes)
    ensures AssignAll(s, payload) == Learned(Or(s.v4, Pick(Entries(payload), 4)), Or(s.v6, Pick(Entries(payload), 6)), s.closed)
    decreases |payload|
  {
    var e := ReadEntry(payload);
    if payload != [] && e.Some? {
      var es := Entries(payload);
      assert es[0] == e.value && es[1..] == Entries(payload[e.value.size..]);
      AssignPicks(Assign(s, e.value), payload[e.value.size..]);
    }
  }

  lemma {:induction false} DrainPicks(s: Learned, b: Bytes, valid: Bytes -> bool)
    ensures var l, es := Drain(s, b, valid).learned, Offered(b, valid);
            l == Learned(Or(s.v4, Pick(es, 4)), Or(s.v6, Pick(es, 6)), s.closed || Stopped(b, valid))
    decreases |b|
  {
    hide Decode, AssignAll, Entries;
    var c := Decode(b);
    if c.Some? && !Stops(c.value, valid) {
      var rest := b[c.value.size..];
      var here := if c.value.kind == 1 then Entries(c.value.payload) else [];
      AssignPicks(s, c.value.payload);
      DrainPicks(Absorb(s, c.value), rest, valid);
      PickSplit(here, Offered(rest, valid), 4);
      PickSplit(here, Offered(rest, valid), 6);
    }
  }

  /** However the stream is cut into reads that fit the buffer, the client's IPv4 address is that of the
      first version-4 entry the stream offers and its IPv6 address that of the first version-6 entry, none
      if there is none; and it asks to close if and only if a capsule stopped the stream. */
  lemma AddressesExactly(chunks: seq<Bytes>, valid: Bytes -> bool)
    requires FeedAll(START, chunks, valid).Parser?
    ensures var l, es := FeedAll(START, chunks, valid).learned, Offered(Join(chunks), valid);
            IsFirst(es, 4, l.v4) && IsFirst(es, 6, l.v6) && (l.closed <==> Stopped(Join(chunks), valid))
  {
    hide FeedAll, Drain, IsFirst, Pick;
    ChunkingIndependent(chunks, chunks, valid);
    DrainPicks(NOTHING, Join(chunks), valid);
    var es := Offered(Join(chunks), valid);
    PickIsFirst(es, 4);
    PickIsFirst(es, 6);
  }

  // ---- written entries are read back ----

  /** An address to assign: 4 octets of IPv4 or 16 of IPv6, and a prefix length. */
  predicate Assignable(id: nat, a: Address) { id < VARINT_LIMIT && (|a.octets| == 4 || |a.octets| == 16) }

  function VersionOf(a: Address): Byte { if |a.octets| == 4 then 4 else 6 }

  /** Section 4.7.1 of RFC 9484: request id, IP version, address, prefix length. */
  function WriteEntry(id: nat, a: Address): Bytes
    requires Assignable(id, a)
  {
    WriteVarint(id) + ([VersionOf(a)] + (a.octets + [a.prefix]))
  }

  lemma EntryRoundTrip(id: nat, a: Address, tail: Bytes)
    requires Assignable(id, a)
    ensures ReadEntry(WriteEntry(id, a) + tail) == Some(Entry(VersionOf(a), a.octets, a.prefix, |WriteEntry(id, a)|))
  {
    hide ReadVarint, WriteVarint;
    var k, n := WriteVarint(id), |a.octets|;
    var b := WriteEntry(id, a) + tail;
    assert b == k + (([VersionOf(a)] + (a.octets + [a.prefix])) + tail);
    VarintRoundTrip(id, ([VersionOf(a)] + (a.octets + [a.prefix])) + tail);
    assert b[|k|] == VersionOf(a) && b[|k| + 1..|k| + 1 + n] == a.octets && b[|k| + 1 + n] == a.prefix;
  }

  /** A capsule that assigns one address and nothing else. */
  lemma AssignedIsLearned(id: nat, a: Address, valid: Bytes -> bool)
    requires Assignable(id, a)
    ensures |WriteEntry(id, a)| < VARINT_LIMIT
    ensures Drain(NOTHING, Encode(1, WriteEntry(id, a)), valid) ==
            Drained(if |a.octets| == 4 then Learned(Some(a), None, false) else Learned(None, Some(a), false), [])
  {
    hide ReadVarint, WriteVarint, Decode, ReadEntry;
    VarintShort(id);
    var p := WriteEntry(id, a);
    EntryRoundTrip(id, a, []);
    assert p + [] == p;
    assert p[|p|..] == [];
    var b := Encode(1, p);
    CapsuleRoundTrip(1, p, []);
    assert b + [] == b;
    assert b[|b|..] == [];
    assert Decode([]).None? by { NothingDecodes(); }
    var e := Entry(VersionOf(a), a.octets, a.prefix, |p|);
    assert AssignAll(NOTHING, p) == AssignAll(Assign(NOTHING, e), []);
    assert Drain(NOTHING, b, valid) == Drain(AssignAll(NOTHING, p), [], valid);
  }

  lemma VarintShort(v: nat)
    requires v < VARINT_LIMIT
    ensures |WriteVarint(v)| <= 8
  {
  }

  lemma NothingDecodes()
    ensures Decode([]).None?
  {
  }

  /** 10.0.0.2/24, on the wire. */
  lemma AssignExample(valid: Bytes -> bool)
    ensures Drain(NOTHING, [1, 7, 0, 4, 10, 0, 0, 2, 24], valid).learned == Learned(Some(Address([10, 0, 0, 2], 24)), None, false)
  {
    hide Drain, Decode, ReadEntry, ReadVarint, AssignAll, Marked;
    var a := Address([10, 0, 0, 2], 24);
    var b: Bytes := [1, 7, 0, 4, 10, 0, 0, 2, 24];
    AssignedIsLearned(0, a, valid);
    var p: Bytes := [0, 4, 10, 0, 0, 2, 24];
    assert WriteVarint(0) == [0] && WriteVarint(1) == [1] && WriteVarint(7) == [7];
    assert WriteEntry(0, a) == p;
    assert Encode(1, p) == b;
  }
}

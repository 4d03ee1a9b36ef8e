/**
 Capsules on the CONNECT-IP stream: the TLV format (section 3.2 of RFC 9297,
 varints of section 16 of RFC 9000), ADDRESS_ASSIGN entries (section 4.7.1 of
 RFC 9484), and the client's incremental parser (src/mqvpn_client.c).
 */
module Capsules {
  import opened Common

  const ADDRESS_ASSIGN := 1
  const ROUTE_ADVERTISEMENT := 3
  const MAX_BUF := 65536
  const FIRST_CAP := 4096
  const READ_SIZE := 4096

  type Bytes = seq<Byte>

  // ---- varints ----

  /** x followed by n zero octets. */
  function Shifted(x: nat, n: nat): nat { if n == 0 then x else 256 * Shifted(x, n - 1) }

  function FromBytes(b: Bytes): (v: nat)
  {
    if b == [] then 0 else FromBytes(b[..|b| - 1]) * 256 + b[|b| - 1]
  }

  function ToBytes(v: nat, n: nat): (b: Bytes)
    ensures |b| == n
  {
    if n == 0 then [] else ToBytes(v / 256, n - 1) + [v % 256]
  }

  lemma {:induction false} FromTo(v: nat, n: nat)
    requires v < Shifted(1, n)
    ensures FromBytes(ToBytes(v, n)) == v
    decreases n
  {
    if n > 0 {
      var b := ToBytes(v / 256, n - 1) + [v % 256];
      assert b[..n - 1] == ToBytes(v / 256, n - 1);
      FromTo(v / 256, n - 1);
    }
  }

  function VarintSize(first: Byte): (n: nat)
    ensures 1 <= n <= 8
  {
    if first < 64 then 1 else if first < 128 then 2 else if first < 192 then 4 else 8
  }

  datatype Varint = Varint(value: nat, size: nat)

  function ReadVarint(b: Bytes): (r: Option<Varint>)
    ensures r.Some? ==> 1 <= r.value.size <= |b|
  {
    if b == [] || |b| < VarintSize(b[0]) then None
    else
      var n := VarintSize(b[0]);
      Some(Varint(Shifted(b[0] % 64, n - 1) + FromBytes(b[1..n]), n))
  }

  // ---- capsules ----

  /** `size` is the whole capsule: type, length and payload. */
  datatype Capsule = Capsule(kind: nat, payload: Bytes, size: nat)

  /** xqc_h3_ext_capsule_decode: a capsule at the front of b, or nothing while it is incomplete. */
  function Decode(b: Bytes): (r: Option<Capsule>)
    ensures r.Some? ==> 2 <= r.value.size <= |b|
  {
    var t := ReadVarint(b);
    if t.None? then None
    else
      var l := ReadVarint(b[t.value.size..]);
      if l.None? then None
      else
        var start := t.value.size + l.value.size;
        if |b| - start < l.value.value then None
        else Some(Capsule(t.value.value, b[start..start + l.value.value], start + l.value.value))
  }

  /** Bytes after a capsule do not matter, and no proper prefix of one decodes. */
  lemma DecodeLocal(a: Bytes, b: Bytes)
    ensures Decode(a).Some? ==> Decode(a + b) == Decode(a)
    ensures Decode(a + b).Some? && Decode(a + b).value.size <= |a| ==> Decode(a) == Decode(a + b)
  {
    VarintLocal(a, b);
    var t := ReadVarint(a);
    if t.Some? {
      var n := t.value.size;
      assert (a + b)[n..] == a[n..] + b;
      VarintLocal(a[n..], b);
      var l := ReadVarint(a[n..]);
      if l.Some? && n + l.value.size + l.value.value <= |a| {
        var start := n + l.value.size;
        assert (a + b)[start..start + l.value.value] == a[start..start + l.value.value];
      }
    }
  }

  lemma VarintLocal(a: Bytes, b: Bytes)
    ensures ReadVarint(a).Some? ==> ReadVarint(a + b) == ReadVarint(a)
    ensures ReadVarint(a + b).Some? && ReadVarint(a + b).value.size <= |a| ==> ReadVarint(a) == ReadVarint(a + b)
  {
    if a != [] && VarintSize(a[0]) <= |a| {
      assert (a + b)[1..VarintSize(a[0])] == a[1..VarintSize(a[0])];
    }
  }

  // ---- address entries ----

  datatype Entry = Entry(version: Byte, address: Bytes, prefix: Byte, size: nat)

  /** xqc_h3_ext_connectip_parse_address_assign: request id, version, address, prefix length. */
  function ReadEntry(b: Bytes): (r: Option<Entry>)
    ensures r.Some? ==> 1 <= r.value.size <= |b|
    ensures r.Some? ==> |r.value.address| == if r.value.version == 4 then 4 else 16
  {
    var id := ReadVarint(b);
    if id.None? || |b| <= id.value.size then None
    else
      var at := id.value.size + 1;
      var version := b[at - 1];
      if version != 4 && version != 6 then None
      else
        var width := if version == 4 then 4 else 16;
        if |b| < at + width + 1 then None
        else Some(Entry(version, b[at..at + width], b[at + width], at + width + 1))
  }

  datatype Address = Address(octets: Bytes, prefix: Byte)

  /** What the stream told the client: the first address of each family, and whether it asked to close. */
  datatype Learned = Learned(v4: Option<Address>, v6: Option<Address>, closed: bool)

  const NOTHING := Learned(None, None, false)

  function Assign(s: Learned, e: Entry): Learned {
    if e.version == 4 && s.v4.None? then s.(v4 := Some(Address(e.address, e.prefix)))
    else if e.version == 6 && s.v6.None? then s.(v6 := Some(Address(e.address, e.prefix)))
    else s
  }

  function AssignAll(s: Learned, payload: Bytes): Learned
    decreases |payload|
  {
    var e := ReadEntry(payload);
    if payload == [] || e.None? then s else AssignAll(Assign(s, e.value), payload[e.value.size..])
  }

  // ---- the whole stream at once ----

  datatype Drained = Drained(learned: Learned, rest: Bytes)

  predicate Refused(c: Capsule, valid: Bytes -> bool) { c.kind == ROUTE_ADVERTISEMENT && !valid(c.payload) }

  function Absorb(s: Learned, c: Capsule): Learned {
    if c.kind == ADDRESS_ASSIGN then AssignAll(s, c.payload) else s
  }

  /** process_capsules: consume whole capsules; an invalid route advertisement asks to close and stays. */
  function Drain(s: Learned, b: Bytes, valid: Bytes -> bool): Drained
    decreases |b|
  {
    var c := Decode(b);
    if c.None? then Drained(s, b)
    else if Refused(c.value, valid) then Drained(s.(closed := true), b)
    else Drain(Absorb(s, c.value), b[c.value.size..], valid)
  }

  /** Draining in two steps is draining once. */
  lemma {:induction false} DrainSplit(s: Learned, a: Bytes, b: Bytes, valid: Bytes -> bool)
    ensures var d := Drain(s, a, valid); Drain(d.learned, d.rest + b, valid) == Drain(s, a + b, valid)
    decreases |a|
  {
    var c := Decode(a);
    DecodeLocal(a, b);
    if c.Some? && !Refused(c.value, valid) {
      assert (a + b)[c.value.size..] == a[c.value.size..] + b;
      DrainSplit(Absorb(s, c.value), a[c.value.size..], b, valid);
    }
  }

  // ---- chunk by chunk ----

  /** One append-and-process; an append beyond MAX_BUF fails for good. */
  datatype Parser = Parser(learned: Learned, buffered: Bytes) | Overflow

  const START := Parser(NOTHING, [])

  function Feed(p: Parser, chunk: Bytes, valid: Bytes -> bool): Parser {
    if p.Overflow? || |p.buffered| + |chunk| > MAX_BUF then Overflow
    else
      var d := Drain(p.learned, p.buffered + chunk, valid);
      Parser(d.learned, d.rest)
  }

  function FeedAll(p: Parser, chunks: seq<Bytes>, valid: Bytes -> bool): Parser
    decreases chunks
  {
    if chunks == [] then p else FeedAll(Feed(p, chunks[0], valid), chunks[1..], valid)
  }

  function Join(chunks: seq<Bytes>): Bytes {
    if chunks == [] then [] else chunks[0] + Join(chunks[1..])
  }

  lemma {:induction false} FeedDrains(p: Parser, chunks: seq<Bytes>, valid: Bytes -> bool)
    requires p.Parser? && Drain(p.learned, p.buffered, valid) == Drained(p.learned, p.buffered)
    requires FeedAll(p, chunks, valid).Parser?
    ensures var d := Drain(p.learned, p.buffered + Join(chunks), valid);
            FeedAll(p, chunks, valid) == Parser(d.learned, d.rest)
    decreases chunks
  {
    hide Drain;
    if chunks == [] {
      assert p.buffered + [] == p.buffered;
    } else {
      var q := Feed(p, chunks[0], valid);
      OverflowStays(q, chunks[1..], valid);
      DrainIdle(p.learned, p.buffered + chunks[0], valid);
      FeedDrains(q, chunks[1..], valid);
      DrainSplit(p.learned, p.buffered + chunks[0], Join(chunks[1..]), valid);
      assert p.buffered + Join(chunks) == p.buffered + chunks[0] + Join(chunks[1..]);
    }
  }

  lemma {:induction false} OverflowStays(p: Parser, chunks: seq<Bytes>, valid: Bytes -> bool)
    ensures p.Overflow? ==> FeedAll(p, chunks, valid).Overflow?
    decreases chunks
  {
    if chunks != [] { OverflowStays(Feed(p, chunks[0], valid), chunks[1..], valid); }
  }

  /** What is left over does not drain any further. */
  lemma {:induction false} DrainIdle(s: Learned, b: Bytes, valid: Bytes -> bool)
    ensures var d := Drain(s, b, valid); Drain(d.learned, d.rest, valid) == d
    decreases |b|
  {
    var c := Decode(b);
    if c.Some? && !Refused(c.value, valid) { DrainIdle(Absorb(s, c.value), b[c.value.size..], valid); }
  }

  /** Chunking independence: however a stream is split, as long as the buffer did not overflow, the
      client learned the same addresses, holds the same leftover bytes, and asked to close or not. */
  lemma ChunkingIndependent(xs: seq<Bytes>, ys: seq<Bytes>, valid: Bytes -> bool)
    requires Join(xs) == Join(ys)
    requires FeedAll(START, xs, valid).Parser? && FeedAll(START, ys, valid).Parser?
    ensures FeedAll(START, xs, valid) == FeedAll(START, ys, valid)
    ensures var d := Drain(NOTHING, Join(xs), valid); FeedAll(START, xs, valid) == Parser(d.learned, d.rest)
  {
    FeedDrains(START, xs, valid);
    FeedDrains(START, ys, valid);
    assert [] + Join(xs) == Join(xs);
  }

  // ---- when the buffer cannot overflow ----

  /** Every capsule of the stream is at most max bytes, none is refused, and what follows is shorter. */
  predicate Fits(b: Bytes, max: nat, valid: Bytes -> bool)
    decreases |b|
  {
    var c := Decode(b);
    if c.None? then |b| < max else c.value.size <= max && !Refused(c.value, valid) && Fits(b[c.value.size..], max, valid)
  }

  /** After any prefix of such a stream, less than one capsule is left over. */
  lemma {:induction false} LeftoverSmall(s: Learned, a: Bytes, b: Bytes, max: nat, valid: Bytes -> bool)
    requires Fits(a + b, max, valid)
    ensures |Drain(s, a, valid).rest| < max
    ensures Fits(Drain(s, a, valid).rest + b, max, valid)
    decreases |a|
  {
    var c := Decode(a);
    DecodeLocal(a, b);
    if c.Some? {
      assert (a + b)[c.value.size..] == a[c.value.size..] + b;
      LeftoverSmall(Absorb(s, c.value), a[c.value.size..], b, max, valid);
    }
  }

  /** A peer that keeps each capsule within 61441 bytes never overflows the buffer, whatever way the
      stream is cut into reads of at most 4096 bytes. */
  lemma {:induction false} NeverOverflows(p: Parser, chunks: seq<Bytes>, valid: Bytes -> bool)
    requires p.Parser? && |p.buffered| < MAX_BUF - READ_SIZE + 1 && Fits(p.buffered + Join(chunks), MAX_BUF - READ_SIZE + 1, valid)
    requires forall i {:trigger chunks[i]} :: 0 <= i < |chunks| ==> |chunks[i]| <= READ_SIZE
    ensures FeedAll(p, chunks, valid).Parser?
    decreases chunks
  {
    if chunks != [] {
      var a, b := p.buffered + chunks[0], Join(chunks[1..]);
      assert p.buffered + Join(chunks) == a + b;
      LeftoverSmall(p.learned, a, b, MAX_BUF - READ_SIZE + 1, valid);
      NeverOverflows(Feed(p, chunks[0], valid), chunks[1..], valid);
    }
  }

  // ---- the first address of each family wins ----

  predicate Extends(s: Learned, t: Learned) {
    (s.v4.Some? ==> t.v4 == s.v4) && (s.v6.Some? ==> t.v6 == s.v6) && (s.closed ==> t.closed)
  }

  lemma {:induction false} AssignExtends(s: Learned, payload: Bytes)
    ensures Extends(s, AssignAll(s, payload))
    decreases |payload|
  {
    var e := ReadEntry(payload);
    if payload != [] && e.Some? { AssignExtends(Assign(s, e.value), payload[e.value.size..]); }
  }

  lemma {:induction false} FirstWins(s: Learned, b: Bytes, valid: Bytes -> bool)
    ensures Extends(s, Drain(s, b, valid).learned)
    decreases |b|
  {
    var c := Decode(b);
    if c.Some? && !Refused(c.value, valid) {
      if c.value.kind == ADDRESS_ASSIGN { AssignExtends(s, c.value.payload); }
      FirstWins(Absorb(s, c.value), b[c.value.size..], valid);
    }
  }

  // ---- writing: the decoder's inverse ----

  const VARINT_LIMIT := 0x4000_0000_0000_0000

  /** The sizes in use, written out. */
  lemma ShiftedSizes(x: nat)
    ensures Shifted(x, 1) == 0x100 * x && Shifted(x, 3) == 0x100_0000 * x && Shifted(x, 7) == 0x100_0000_0000_0000 * x
  {
    assert Shifted(x, 1) == 0x100 * x;
    assert Shifted(x, 2) == 0x1_0000 * x;
    assert Shifted(x, 3) == 0x100_0000 * x;
    assert Shifted(x, 4) == 0x1_0000_0000 * x;
    assert Shifted(x, 5) == 0x100_0000_0000 * x;
    assert Shifted(x, 6) == 0x1_0000_0000_0000 * x;
  }

  function Marked(mark: nat, high: nat, low: nat, n: nat): (b: Bytes)
    requires n >= 1 && mark <= 192 && high < 64
    ensures |b| == n
  {
    [mark + high] + ToBytes(low, n - 1)
  }

  function WriteVarint(v: nat): (b: Bytes)
    requires v < VARINT_LIMIT
  {
    if v < 0x40 then [v]
    else if v < 0x4000 then Marked(64, v / 0x100, v % 0x100, 2)
    else if v < 0x4000_0000 then Marked(128, v / 0x100_0000, v % 0x100_0000, 4)
    else Marked(192, v / 0x100_0000_0000_0000, v % 0x100_0000_0000_0000, 8)
  }

  lemma MarkedReads(mark: nat, high: nat, low: nat, n: nat, tail: Bytes)
    requires (mark == 64 && n == 2) || (mark == 128 && n == 4) || (mark == 192 && n == 8)
    requires high < 64 && low < Shifted(1, n - 1)
    ensures ReadVarint(Marked(mark, high, low, n) + tail) == Some(Varint(Shifted(high, n - 1) + low, n))
  {
    hide Shifted, FromBytes, ToBytes;
    var b := Marked(mark, high, low, n);
    assert b[0] == mark + high && VarintSize(b[0]) == n && b[0] % 64 == high;
    assert (b + tail)[1..n] == ToBytes(low, n - 1);
    FromTo(low, n - 1);
  }

  lemma VarintRoundTrip(v: nat, tail: Bytes)
    requires v < VARINT_LIMIT
    ensures ReadVarint(WriteVarint(v) + tail) == Some(Varint(v, |WriteVarint(v)|))
  {
    hide Shifted, FromBytes, ToBytes, Marked;
    ShiftedSizes(1);
    if v < 0x40 {
      ShortReads(v, tail);
    } else if v < 0x4000 {
      ShiftedSizes(v / 0x100);
      MarkedReads(64, v / 0x100, v % 0x100, 2, tail);
    } else if v < 0x4000_0000 {
      ShiftedSizes(v / 0x100_0000);
      MarkedReads(128, v / 0x100_0000, v % 0x100_0000, 4, tail);
    } else {
      ShiftedSizes(v / 0x100_0000_0000_0000);
      MarkedReads(192, v / 0x100_0000_0000_0000, v % 0x100_0000_0000_0000, 8, tail);
    }
  }

  lemma ShortReads(v: nat, tail: Bytes)
    requires v < 0x40
    ensures ReadVarint([v] + tail) == Some(Varint(v, 1))
  {
    assert ([v] + tail)[1..1] == [];
  }

  function Encode(kind: nat, payload: Bytes): Bytes
    requires kind < VARINT_LIMIT && |payload| < VARINT_LIMIT
  {
    WriteVarint(kind) + WriteVarint(|payload|) + payload
  }

  /** Decoding undoes encoding, whatever follows on the stream. */
  lemma CapsuleRoundTrip(kind: nat, payload: Bytes, tail: Bytes)
    requires kind < VARINT_LIMIT && |payload| < VARINT_LIMIT
    ensures Decode(Encode(kind, payload) + tail) == Some(Capsule(kind, payload, |Encode(kind, payload)|))
  {
    var k, l := WriteVarint(kind), WriteVarint(|payload|);
    var b := Encode(kind, payload) + tail;
    assert b == k + (l + payload + tail);
    VarintRoundTrip(kind, l + payload + tail);
    assert b[|k|..] == l + (payload + tail);
    VarintRoundTrip(|payload|, payload + tail);
    assert b[|k| + |l|..|k| + |l| + |payload|] == payload;
  }
}

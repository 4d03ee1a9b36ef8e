/**
 The flow-affinity hash of src/flow_sched.c: 32-bit FNV-1a over the fields
 that identify a flow, with two reserved values kept free.
 */
module FlowHash {
  import opened Common

  type Bytes = seq<Byte>

  const WORD := 0x1_0000_0000
  const FNV_OFFSET: U32 := 2166136261
  const FNV_PRIME := 16777619
  const FNV_INVERSE := 899433627
  const UNPINNED: U32 := 0xFFFF_FFFF
  const NO_HASH: U32 := 0

  type U32 = x: int | 0 <= x < WORD

  // ---- exclusive or on bits ----

  function Xor(a: nat, b: nat, bits: nat): nat {
    if bits == 0 then 0 else (a % 2 + b % 2) % 2 + 2 * Xor(a / 2, b / 2, bits - 1)
  }

  lemma {:induction false} XorBound(a: nat, b: nat, bits: nat)
    ensures Xor(a, b, bits) < Pow2(bits)
    decreases bits
  {
    if bits > 0 { XorBound(a / 2, b / 2, bits - 1); }
  }

  /** Xor undoes itself. */
  lemma {:induction false} XorTwice(a: nat, b: nat, bits: nat)
    requires a < Pow2(bits)
    ensures Xor(Xor(a, b, bits), b, bits) == a
    decreases bits
  {
    if bits > 0 {
      Halves((a % 2 + b % 2) % 2, Xor(a / 2, b / 2, bits - 1));
      XorTwice(a / 2, b / 2, bits - 1);
      BitTwice(a, b);
    }
  }

  lemma Halves(bit: nat, y: nat)
    requires bit < 2
    ensures (bit + 2 * y) % 2 == bit && (bit + 2 * y) / 2 == y
  {
  }

  lemma BitTwice(a: nat, b: nat)
    ensures ((a % 2 + b % 2) % 2 + b % 2) % 2 == a % 2 && a == a % 2 + 2 * (a / 2)
  {
  }

  lemma {:induction false} XorCommutes(a: nat, b: nat, bits: nat)
    ensures Xor(a, b, bits) == Xor(b, a, bits)
    decreases bits
  {
    if bits > 0 { XorCommutes(a / 2, b / 2, bits - 1); }
  }

  function XorByte(a: Byte, b: Byte): (r: Byte) {
    XorBound(a, b, 8);
    Eight();
    Xor(a, b, 8)
  }

  lemma Eight()
    ensures Pow2(8) == 256
  {
    assert Pow2(4) == 16;
  }

  /** For a fixed partner, Xor is one to one. */
  lemma XorInjective(a: Byte, a': Byte, b: Byte)
    requires XorByte(a, b) == XorByte(a', b)
    ensures a == a'
  {
    Eight();
    XorTwice(a, b, 8);
    XorTwice(a', b, 8);
  }

  lemma XorInjective2(a: Byte, b: Byte, b': Byte)
    requires XorByte(a, b) == XorByte(a, b')
    ensures b == b'
  {
    XorCommutes(a, b, 8);
    XorCommutes(a, b', 8);
    XorInjective(b, b', a);
  }

  // ---- the FNV step ----

  /** h ^ b: only the low byte changes. */
  function Mixed(h: U32, b: Byte): (m: U32) {
    h - h % 256 + XorByte(h % 256, b)
  }

  /** flow_hash_update_byte, modulo 2^32. */
  function Update(h: U32, b: Byte): (r: U32) { (Mixed(h, b) * FNV_PRIME) % WORD }

  /** Multiplying by the prime can be undone modulo 2^32. */
  lemma PrimeInvertible(x: U32)
    ensures (((x * FNV_PRIME) % WORD) * FNV_INVERSE) % WORD == x
  {
    var q, r := (x * FNV_PRIME) / WORD, (x * FNV_PRIME) % WORD;
    assert x * FNV_PRIME == q * WORD + r;
    assert FNV_PRIME * FNV_INVERSE == 1 + 3513497 * WORD;
    assert r * FNV_INVERSE == x + (3513497 * x - q * FNV_INVERSE) * WORD;
    Reduced(x, 3513497 * x - q * FNV_INVERSE);
  }

  lemma Reduced(x: U32, t: int)
    ensures (x + t * WORD) % WORD == x
  {
  }

  /** The step is one to one in the hash and in the byte. */
  lemma UpdateInjective(h: U32, h': U32, b: Byte)
    requires Update(h, b) == Update(h', b)
    ensures h == h'
  {
    PrimeInvertible(Mixed(h, b));
    PrimeInvertible(Mixed(h', b));
    LowByte(h, b);
    LowByte(h', b);
    XorInjective(h % 256, h' % 256, b);
  }

  lemma UpdateInjective2(h: U32, b: Byte, b': Byte)
    requires Update(h, b) == Update(h, b')
    ensures b == b'
  {
    PrimeInvertible(Mixed(h, b));
    PrimeInvertible(Mixed(h, b'));
    XorInjective2(h % 256, b, b');
  }

  lemma LowByte(h: U32, b: Byte)
    ensures Mixed(h, b) % 256 == XorByte(h % 256, b) && Mixed(h, b) - Mixed(h, b) % 256 == h - h % 256
  {
    var q := h / 256;
    assert h - h % 256 == q * 256;
    assert (q * 256 + XorByte(h % 256, b)) % 256 == XorByte(h % 256, b);
  }

  // ---- the hash of a key ----

  function Fold(h: U32, key: Bytes): U32
    decreases key
  {
    if key == [] then h else Fold(Update(h, key[0]), key[1..])
  }

  lemma {:induction false} FoldInjective(h: U32, h': U32, key: Bytes)
    requires Fold(h, key) == Fold(h', key)
    ensures h == h'
    decreases key
  {
    if key != [] {
      FoldInjective(Update(h, key[0]), Update(h', key[0]), key[1..]);
      UpdateInjective(h, h', key[0]);
    }
  }

  /** Keys of one length that differ in exactly one byte never collide. */
  lemma {:induction false} OneByteSeparates(h: U32, a: Bytes, b: Bytes, k: nat)
    requires k < |a| == |b| && a[k] != b[k] && (forall i :: 0 <= i < |a| && i != k ==> a[i] == b[i])
    ensures Fold(h, a) != Fold(h, b)
    decreases k
  {
    if k == 0 {
      assert a[1..] == b[1..];
      if Fold(h, a) == Fold(h, b) {
        FoldInjective(Update(h, a[0]), Update(h, b[0]), a[1..]);
        UpdateInjective2(h, a[0], b[0]);
      }
    } else {
      OneByteSeparates(Update(h, a[0]), a[1..], b[1..], k - 1);
    }
  }

  /** flow_hash_finish. */
  function Finish(h: U32): (r: U32)
    ensures r != NO_HASH && r != UNPINNED
  {
    if h == 0 then 1 else if h == UNPINNED then UNPINNED - 1 else h
  }

  /** The remap joins exactly two pairs of values. */
  lemma FinishCollides(a: U32, b: U32)
    ensures Finish(a) == Finish(b) && a != b <==>
            (a == 0 && b == 1) || (a == 1 && b == 0) || (a == UNPINNED && b == UNPINNED - 1) || (a == UNPINNED - 1 && b == UNPINNED)
  {
  }

  // ---- what identifies a flow ----

  /** No hash for what is not a sound IP packet; unpinned for what needs no affinity or has no ports;
      otherwise the key. */
  datatype Verdict = NoHash | Spread | Pinned(key: Bytes)

  predicate Pins(proto: Byte, udpPin: bool) { proto == 6 || (proto == 17 && udpPin) }

  function HeaderLen(p: Bytes): nat
    requires p != []
  {
    (p[0] as int % 16) * 4
  }

  /** More fragments, or a fragment offset. */
  predicate Fragment(p: Bytes)
    requires |p| >= 20
  {
    (p[6] as int * 256 + p[7] as int) % 0x4000 != 0
  }

  function Classify(p: Bytes, udpPin: bool): Verdict {
    if p == [] then NoHash
    else if p[0] as int / 16 == 4 then
      if |p| < 20 || HeaderLen(p) < 20 || HeaderLen(p) > |p| then NoHash
      else if !Pins(p[9], udpPin) then Spread
      else if Fragment(p) then Pinned(p[12..20] + [p[9]] + p[4..6])
      else if |p| < HeaderLen(p) + 4 then Spread
      else Pinned(p[12..20] + [p[9]] + p[HeaderLen(p)..HeaderLen(p) + 4])
    else if p[0] as int / 16 == 6 then
      if |p| < 40 then NoHash
      else if !Pins(p[6], udpPin) || |p| < 44 then Spread
      else Pinned(p[8..40] + [p[6]] + p[40..44])
    else NoHash
  }

  function HashOf(v: Verdict): U32 {
    match v
    case NoHash => NO_HASH
    case Spread => UNPINNED
    case Pinned(key) => Finish(Fold(FNV_OFFSET, key))
  }

  /** The value tells the three cases apart. */
  lemma SentinelsExactly(p: Bytes, udpPin: bool)
    ensures HashOf(Classify(p, udpPin)) == NO_HASH <==> Classify(p, udpPin) == NoHash
    ensures HashOf(Classify(p, udpPin)) == UNPINNED <==> Classify(p, udpPin) == Spread
  {
  }

  /** Two unfragmented IPv4 packets of one flow hash alike, whatever else differs: TTL, length, options,
      identification, payload. */
  lemma SameFlow4(p: Bytes, q: Bytes, udpPin: bool)
    requires |p| >= 20 && |q| >= 20 && p[0] as int / 16 == 4 && q[0] as int / 16 == 4
    requires 20 <= HeaderLen(p) && HeaderLen(p) + 4 <= |p| && 20 <= HeaderLen(q) && HeaderLen(q) + 4 <= |q|
    requires !Fragment(p) && !Fragment(q) && p[12..20] == q[12..20] && p[9] == q[9]
    requires p[HeaderLen(p)..HeaderLen(p) + 4] == q[HeaderLen(q)..HeaderLen(q) + 4]
    ensures HashOf(Classify(p, udpPin)) == HashOf(Classify(q, udpPin))
  {
  }

  /** All fragments of one datagram hash alike, first or not, with or without ports. */
  lemma SameDatagram4(p: Bytes, q: Bytes, udpPin: bool)
    requires |p| >= 20 && |q| >= 20 && p[0] as int / 16 == 4 && q[0] as int / 16 == 4
    requires 20 <= HeaderLen(p) <= |p| && 20 <= HeaderLen(q) <= |q|
    requires Fragment(p) && Fragment(q) && p[12..20] == q[12..20] && p[9] == q[9] && p[4..6] == q[4..6]
    ensures HashOf(Classify(p, udpPin)) == HashOf(Classify(q, udpPin))
  {
  }

  lemma SameFlow6(p: Bytes, q: Bytes, udpPin: bool)
    requires |p| >= 44 && |q| >= 44 && p[0] as int / 16 == 6 && q[0] as int / 16 == 6
    requires p[8..40] == q[8..40] && p[6] == q[6] && p[40..44] == q[40..44]
    ensures HashOf(Classify(p, udpPin)) == HashOf(Classify(q, udpPin))
  {
  }

  /** Pinned packets whose keys have one shape and differ in one byte hash apart, unless the raw hashes
      are one of the two remapped pairs. */
  lemma PinnedApart(p: Bytes, q: Bytes, udpPin: bool, k: nat)
    requires Classify(p, udpPin).Pinned? && Classify(q, udpPin).Pinned?
    requires var a, b := Classify(p, udpPin).key, Classify(q, udpPin).key;
             k < |a| == |b| && a[k] != b[k] && (forall i :: 0 <= i < |a| && i != k ==> a[i] == b[i])
    ensures var x, y := Fold(FNV_OFFSET, Classify(p, udpPin).key), Fold(FNV_OFFSET, Classify(q, udpPin).key);
            x != y
            && (HashOf(Classify(p, udpPin)) == HashOf(Classify(q, udpPin)) <==>
                {x, y} == {0, 1} || {x, y} == {UNPINNED, UNPINNED - 1})
  {
    var a, b := Classify(p, udpPin).key, Classify(q, udpPin).key;
    OneByteSeparates(FNV_OFFSET, a, b, k);
    FinishCollides(Fold(FNV_OFFSET, a), Fold(FNV_OFFSET, b));
  }

  // ---- different flows ----

  /** A pinned, unfragmented IPv4 packet with ports, or a pinned IPv6 one, or a pinned IPv4 fragment. */
  predicate Flow4(p: Bytes, udpPin: bool) {
    |p| >= 20 && p[0] as int / 16 == 4 && 20 <= (p[0] as int % 16) * 4 <= |p| - 4 && Pins(p[9], udpPin) && !Fragment(p)
  }

  predicate Flow6(p: Bytes, udpPin: bool) { |p| >= 44 && p[0] as int / 16 == 6 && Pins(p[6], udpPin) }

  predicate Piece4(p: Bytes, udpPin: bool) {
    |p| >= 20 && p[0] as int / 16 == 4 && 20 <= (p[0] as int % 16) * 4 <= |p| && Pins(p[9], udpPin) && Fragment(p)
  }

  /** Byte k of source address, destination address, protocol, source port, destination port. */
  function Tuple4(p: Bytes, k: nat): Byte
    requires |p| >= 20 && (p[0] as int % 16) * 4 <= |p| - 4 && k < 13
  {
    if k < 8 then p[12 + k] else if k == 8 then p[9] else p[(p[0] as int % 16) * 4 + k - 9]
  }

  function Tuple6(p: Bytes, k: nat): Byte
    requires |p| >= 44 && k < 37
  {
    if k < 32 then p[8 + k] else if k == 32 then p[6] else p[40 + k - 33]
  }

  /** Byte k of source address, destination address, protocol, Identification. */
  function Triple4(p: Bytes, k: nat): Byte
    requires |p| >= 20 && k < 11
  {
    if k < 8 then p[12 + k] else if k == 8 then p[9] else p[4 + k - 9]
  }

  /** Two hashes that may meet only at a value the reserved ones were moved to. */
  predicate Apart(x: U32, y: U32) { x == y ==> x == 1 || x == 0xFFFF_FFFE }

  lemma KeysApart(a: Bytes, b: Bytes, k: nat)
    requires k < |a| == |b| && a[k] != b[k] && (forall i :: 0 <= i < |a| && i != k ==> a[i] == b[i])
    ensures Apart(Finish(Fold(FNV_OFFSET, a)), Finish(Fold(FNV_OFFSET, b)))
  {
    hide Fold;
    OneByteSeparates(FNV_OFFSET, a, b, k);
  }

  /** Two IPv4 flows that differ in one byte of an address, the protocol or a port hash apart, however
      long their headers are and whatever else the packets hold. */
  lemma Flows4Apart(p: Bytes, q: Bytes, udpPin: bool, k: nat)
    requires Flow4(p, udpPin) && Flow4(q, udpPin) && k < 13
    requires Tuple4(p, k) != Tuple4(q, k) && forall i: nat :: i < 13 && i != k ==> Tuple4(p, i) == Tuple4(q, i)
    ensures Apart(HashOf(Classify(p, udpPin)), HashOf(Classify(q, udpPin)))
  {
    hide Fold, Finish, Apart;
    var a, b := Classify(p, udpPin).key, Classify(q, udpPin).key;
    assert forall i: nat :: i < 13 ==> a[i] == Tuple4(p, i) && b[i] == Tuple4(q, i);
    KeysApart(a, b, k);
  }

  lemma Flows6Apart(p: Bytes, q: Bytes, udpPin: bool, k: nat)
    requires Flow6(p, udpPin) && Flow6(q, udpPin) && k < 37
    requires Tuple6(p, k) != Tuple6(q, k) && forall i: nat :: i < 37 && i != k ==> Tuple6(p, i) == Tuple6(q, i)
    ensures Apart(HashOf(Classify(p, udpPin)), HashOf(Classify(q, udpPin)))
  {
    hide Fold, Finish, Apart;
    var a, b := Classify(p, udpPin).key, Classify(q, udpPin).key;
    assert forall i: nat :: i < 37 ==> a[i] == Tuple6(p, i) && b[i] == Tuple6(q, i);
    KeysApart(a, b, k);
  }

  /** Fragments of different datagrams, by one byte of address, protocol or Identification. */
  lemma Pieces4Apart(p: Bytes, q: Bytes, udpPin: bool, k: nat)
    requires Piece4(p, udpPin) && Piece4(q, udpPin) && k < 11
    requires Triple4(p, k) != Triple4(q, k) && forall i: nat :: i < 11 && i != k ==> Triple4(p, i) == Triple4(q, i)
    ensures Apart(HashOf(Classify(p, udpPin)), HashOf(Classify(q, udpPin)))
  {
    hide Fold, Finish, Apart;
    var a, b := Classify(p, udpPin).key, Classify(q, udpPin).key;
    assert forall i: nat :: i < 11 ==> a[i] == Triple4(p, i) && b[i] == Triple4(q, i);
    KeysApart(a, b, k);
  }

  /** The header says it is an IP packet and fits in it. */
  predicate SoundIp(p: Bytes) {
    (|p| >= 20 && p[0] as int / 16 == 4 && 20 <= (p[0] as int % 16) * 4 <= |p|) || (|p| >= 40 && p[0] as int / 16 == 6)
  }

  /** On packets: no hash exactly for what is not a sound IP packet; a hash exactly for TCP, and for UDP if
      it is to be pinned, with ports or as an IPv4 fragment; unpinned for the rest. */
  lemma HashedExactly(p: Bytes, udpPin: bool)
    ensures HashOf(Classify(p, udpPin)) == 0 <==> !SoundIp(p)
    ensures HashOf(Classify(p, udpPin)) !in {0, 0xFFFF_FFFF} <==> Flow4(p, udpPin) || Flow6(p, udpPin) || Piece4(p, udpPin)
  {
    hide Fold;
  }

  /** The published FNV-1a value of the one-byte key 0x61. */
  lemma KnownAnswer()
    ensures Fold(FNV_OFFSET, [0x61]) == 0xE40C292C
  {
    hide Fold, XorByte;
    XorKnown();
    assert FNV_OFFSET % 256 == 0xC5;
    assert Mixed(FNV_OFFSET, 0x61) == 0x811C9DA4;
    FoldOne(FNV_OFFSET, [], 0x61);
    assert [] + [0x61] == [0x61];
    FoldNone(FNV_OFFSET);
  }

  lemma FoldNone(h: U32)
    ensures Fold(h, []) == h
  {
  }

  lemma XorKnown()
    ensures XorByte(0xC5, 0x61) == 0xA4
  {
    hide Xor;
    XorStep(0xC5, 0x61, 8);
    XorStep(0x62, 0x30, 7);
    XorStep(0x31, 0x18, 6);
    XorStep(0x18, 0x0C, 5);
    XorStep(0x0C, 0x06, 4);
    XorStep(0x06, 0x03, 3);
    XorStep(0x03, 0x01, 2);
    XorStep(0x01, 0x00, 1);
    XorStep(0x00, 0x00, 0);
  }

  lemma XorStep(a: nat, b: nat, bits: nat)
    ensures Xor(a, b, bits) == if bits == 0 then 0 else (a % 2 + b % 2) % 2 + 2 * Xor(a / 2, b / 2, bits - 1)
  {
  }

  // ---- the loops ----

  lemma {:induction false} FoldSplit(h: U32, a: Bytes, b: Bytes)
    ensures Fold(h, a + b) == Fold(Fold(h, a), b)
    decreases a
  {
    if a == [] {
      assert a + b == b;
    } else {
      assert (a + b)[0] == a[0] && (a + b)[1..] == a[1..] + b;
      FoldSplit(Update(h, a[0]), a[1..], b);
    }
  }

  /** One of the byte loops of flow_hash_pkt. */
  method FoldRange(p: Bytes, lo: nat, hi: nat, start: U32) returns (h: U32)
    requires lo <= hi <= |p|
    ensures h == Fold(start, p[lo..hi])
  {
    hide Update;
    h := start;
    var i := lo;
    while i < hi
      invariant lo <= i <= hi && Fold(h, p[i..hi]) == Fold(start, p[lo..hi])
    {
      assert p[i..hi][0] == p[i] && p[i..hi][1..] == p[i + 1..hi];
      h := Update(h, p[i]);
      i := i + 1;
    }
    assert p[i..hi] == [];
  }

  /** flow_hash_pkt. */
  method HashPacket(p: Bytes, udpPin: bool) returns (h: U32)
    ensures h == HashOf(Classify(p, udpPin))
  {
    hide Update, Fold;
    if |p| < 1 { return NO_HASH; }
    var version := p[0] as int / 16;
    if version == 4 {
      if |p| < 20 { return NO_HASH; }
      var proto, ihl := p[9], (p[0] as int % 16) * 4;
      if ihl < 20 || ihl > |p| { return NO_HASH; }
      var frag := p[6] as int * 256 + p[7] as int;
      if !(proto == 6 || (proto == 17 && udpPin)) { return UNPINNED; }
      h := FoldRange(p, 12, 20, FNV_OFFSET);
      h := Update(h, proto);
      FoldOne(FNV_OFFSET, p[12..20], proto);
      if frag % 0x4000 != 0 {
        h := Update(h, p[4]);
        h := Update(h, p[5]);
        FoldTwo(FNV_OFFSET, p[12..20] + [proto], p[4], p[5]);
        assert p[4..6] == [p[4], p[5]];
        return Finish(h);
      }
      if |p| < ihl + 4 { return UNPINNED; }
      h := FoldRange(p, ihl, ihl + 4, h);
      FoldSplit(FNV_OFFSET, p[12..20] + [proto], p[ihl..ihl + 4]);
      return Finish(h);
    } else if version == 6 {
      if |p| < 40 { return NO_HASH; }
      var next := p[6];
      if !(next == 6 || (next == 17 && udpPin)) { return UNPINNED; }
      if |p| < 44 { return UNPINNED; }
      h := FoldRange(p, 8, 40, FNV_OFFSET);
      h := Update(h, next);
      FoldOne(FNV_OFFSET, p[8..40], next);
      h := FoldRange(p, 40, 44, h);
      FoldSplit(FNV_OFFSET, p[8..40] + [next], p[40..44]);
      return Finish(h);
    }
    return NO_HASH;
  }

  lemma FoldOne(h: U32, a: Bytes, x: Byte)
    ensures Fold(h, a + [x]) == Update(Fold(h, a), x)
  {
    FoldSplit(h, a, [x]);
    assert [x][1..] == [];
  }

  lemma FoldTwo(h: U32, a: Bytes, x: Byte, y: Byte)
    ensures Fold(h, a + [x, y]) == Update(Update(Fold(h, a), x), y)
  {
    FoldOne(h, a, x);
    FoldOne(h, a + [x], y);
    assert a + [x] + [y] == a + [x, y];
  }
}

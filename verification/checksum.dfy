/**
 The Internet checksum (RFC 1071): the one's-complement sum of 16-bit words,
 with the folding loop and the 32-bit accumulator the code uses, and the
 incremental update for a decremented TTL (section 3 of RFC 1624).
 */
module Checksum {
  import opened Common

  type Bytes = seq<Byte>

  newtype U32 = x: int | 0 <= x < 0x1_0000_0000

  /** A big-endian 16-bit word. */
  function Word(hi: Byte, lo: Byte): (w: nat)
    ensures w <= 0xFFFF
  {
    hi as int * 256 + lo as int
  }

  function High(w: nat): (b: Byte)
    requires w <= 0xFFFF
  {
    w / 256
  }

  function Low(w: nat): (b: Byte)
    requires w <= 0xFFFF
  {
    w % 256
  }

  lemma WordOf(w: nat)
    requires w <= 0xFFFF
    ensures Word(High(w), Low(w)) == w
  {
  }

  /** The sum of the big-endian 16-bit words of b, an odd last byte padded with zero. */
  function WordSum(b: Bytes): (s: nat)
    ensures s <= 0xFFFF * ((|b| + 1) / 2)
  {
    if |b| == 0 then 0
    else if |b| == 1 then Word(b[0], 0)
    else Word(b[0], b[1]) + WordSum(b[2..])
  }

  /** One's-complement addition over many words: sums are taken modulo 0xFFFF, and a nonzero sum is
      never represented by zero. */
  function OnesSum(s: nat): (r: nat)
    ensures r <= 0xFFFF
  {
    if s == 0 then 0 else (s - 1) % 0xFFFF + 1
  }

  /** The words of b, checksum included, sum to all ones. */
  predicate Verifies(b: Bytes) { OnesSum(WordSum(b)) == 0xFFFF }

  lemma {:induction false} WordSumSplit(a: Bytes, b: Bytes)
    requires |a| % 2 == 0
    ensures WordSum(a + b) == WordSum(a) + WordSum(b)
    decreases |a|
  {
    if a == [] {
      assert a + b == b;
    } else {
      assert (a + b)[2..] == a[2..] + b;
      WordSumSplit(a[2..], b);
    }
  }

  /** Replacing the word at an even offset. */
  lemma {:induction false} WordSumPut(b: Bytes, k: nat, hi: Byte, lo: Byte)
    requires k % 2 == 0 && k + 1 < |b|
    ensures WordSum(b[k := hi][k + 1 := lo]) + Word(b[k], b[k + 1]) == WordSum(b) + Word(hi, lo)
    decreases |b|
  {
    var after := b[k := hi][k + 1 := lo];
    if k == 0 {
      assert after[2..] == b[2..];
    } else {
      assert after[2..] == b[2..][k - 2 := hi][k - 1 := lo];
      WordSumPut(b[2..], k - 2, hi, lo);
    }
  }

  // ---- folding ----

  lemma FoldStep(s: nat)
    requires s >= 0x10000
    ensures var t := s % 0x10000 + s / 0x10000; 0 < t < s && OnesSum(t) == OnesSum(s)
  {
    var q, r := s / 0x10000, s % 0x10000;
    assert s == q * 0x10000 + r && q >= 1;
    assert s - 1 == (r + q - 1) + q * 0xFFFF;
    AddMultiple(r + q - 1, q);
  }

  lemma AddMultiple(x: nat, q: nat)
    ensures (x + q * 0xFFFF) % 0xFFFF == x % 0xFFFF
  {
  }

  /** The `while (cksum >> 16)` loop. */
  method Fold(start: U32) returns (sum: U32)
    ensures sum as nat == OnesSum(start as nat)
    ensures sum <= 0xFFFF
  {
    sum := start;
    while sum / 0x10000 != 0
      invariant OnesSum(sum as nat) == OnesSum(start as nat)
      decreases sum
    {
      FoldStep(sum as nat);
      sum := sum % 0x10000 + sum / 0x10000;
    }
  }

  /** Add the words of a[lo..hi] to an accumulator; the accumulator never wraps. */
  method AddWords(a: array<Byte>, lo: nat, hi: nat, start: U32) returns (sum: U32)
    requires lo <= hi <= a.Length && hi - lo <= 0xFFFF && start <= 0x12_0000
    ensures sum as nat == start as nat + WordSum(a[lo..hi])
  {
    hide WordSum;
    sum := start;
    ghost var total := start as nat + WordSum(a[lo..hi]);
    var i := lo;
    while i < hi
      invariant lo <= i <= hi + 1
      invariant sum as nat + WordSum(a[Min(i, hi)..hi]) == total
    {
      NextWord(a[i..hi]);
      sum := sum + a[i] as U32 * 256;
      if i + 1 < hi {
        sum := sum + a[i + 1] as U32;
        assert a[i..hi][2..] == a[i + 2..hi];
      }
      i := i + 2;
    }
    NoWords(a[hi..hi]);
  }

  lemma NextWord(b: Bytes)
    requires b != []
    ensures WordSum(b) == if |b| == 1 then Word(b[0], 0) else Word(b[0], b[1]) + WordSum(b[2..])
    ensures |b| == 1 ==> WordSum([]) == 0
  {
  }

  lemma NoWords(b: Bytes)
    requires b == []
    ensures WordSum(b) == 0
  {
  }

  // ---- filling in a checksum ----

  function Complement(sum: nat): (c: nat)
    requires sum <= 0xFFFF
    ensures c <= 0xFFFF
  {
    0xFFFF - sum
  }

  function Sealed(b: Bytes, k: nat, extra: nat): (r: Bytes)
    requires k + 1 < |b|
    ensures |r| == |b|
  {
    var c := Complement(OnesSum(extra + WordSum(b)));
    b[k := High(c)][k + 1 := Low(c)]
  }

  /** Sealing a packet whose checksum field is zero makes it verify, together with whatever else is
      summed with it. */
  lemma SealedVerifies(b: Bytes, k: nat, extra: nat)
    requires k % 2 == 0 && k + 1 < |b| && b[k] == 0 && b[k + 1] == 0
    ensures OnesSum(extra + WordSum(Sealed(b, k, extra))) == 0xFFFF
  {
    hide WordSum, OnesSum, High, Low;
    var s := extra + WordSum(b);
    var c := Complement(OnesSum(s));
    WordSumPut(b, k, High(c), Low(c));
    WordOf(c);
    assert Word(0, 0) == 0;
    assert extra + WordSum(Sealed(b, k, extra)) == s + c;
    ComplementFills(s);
  }

  lemma ComplementFills(s: nat)
    ensures OnesSum(s + Complement(OnesSum(s))) == 0xFFFF
  {
    if s > 0 {
      var q, r := (s - 1) / 0xFFFF, (s - 1) % 0xFFFF;
      assert s - 1 == q * 0xFFFF + r;
      assert s + 0xFFFF - (r + 1) - 1 == 0xFFFE + q * 0xFFFF;
      AddMultiple(0xFFFE, q);
    }
  }

  // ---- the TTL update ----

  /** forward_inner_ip on an IPv4 packet: TTL down by one, checksum up by 0x0100 with one fold. */
  method DecrementTtl(pkt: array<Byte>)
    requires pkt.Length >= 20 && pkt[8] >= 1
    modifies pkt
    ensures pkt[..] == TtlDown(old(pkt[..]))
  {
    ghost var was := pkt[..];
    pkt[8] := pkt[8] - 1;
    var sum := UpdatedSum(pkt[10], pkt[11]);
    pkt[10], pkt[11] := High(sum), Low(sum);
    assert pkt[..] == was[8 := was[8] - 1][10 := High(sum)][11 := Low(sum)];
  }

  method UpdatedSum(hi: Byte, lo: Byte) returns (w: nat)
    ensures w == FoldOnce(Word(hi, lo) + 0x0100) <= 0xFFFF
  {
    FoldOnceIs(Word(hi, lo));
    var sum: U32 := hi as U32 * 256 + lo as U32 + 0x0100;
    sum := sum % 0x10000 + sum / 0x10000;
    w := sum as int;
  }

  function FoldOnce(s: nat): nat { s % 0x10000 + s / 0x10000 }

  function TtlDown(h: Bytes): (r: Bytes)
    requires |h| >= 20 && h[8] >= 1
    ensures |r| == |h|
  {
    FoldOnceIs(Word(h[10], h[11]));
    var sum := FoldOnce(Word(h[10], h[11]) + 0x0100);
    h[8 := h[8] - 1][10 := High(sum)][11 := Low(sum)]
  }

  lemma FoldOnceIs(ck: nat)
    requires ck <= 0xFFFF
    ensures FoldOnce(ck + 0x0100) == if ck < 0xFF00 then ck + 0x0100 else ck + 0x0100 - 0xFFFF
    ensures FoldOnce(ck + 0x0100) <= 0xFFFF
  {
  }

  lemma TtlWord(ttl: Byte, proto: Byte)
    requires ttl >= 1
    ensures Word(ttl, proto) == Word(ttl - 1, proto) + 0x0100
  {
  }

  lemma TtlSum(h: Bytes, n: nat)
    requires |h| >= 20 && h[8] >= 1 && 20 <= n <= |h|
    ensures WordSum(TtlDown(h)[..n]) + 0x0100 + Word(h[10], h[11]) == WordSum(h[..n]) + FoldOnce(Word(h[10], h[11]) + 0x0100)
  {
    hide FoldOnce, WordSum, Word, High, Low;
    FoldOnceIs(Word(h[10], h[11]));
    var sum := FoldOnce(Word(h[10], h[11]) + 0x0100);
    var a := h[..n];
    var b: Bytes := a[8 := h[8] - 1][9 := h[9]];
    WordSumPut(a, 8, h[8] - 1, h[9]);
    var c: Bytes := b[10 := High(sum)][11 := Low(sum)];
    WordSumPut(b, 10, High(sum), Low(sum));
    WordOf(sum);
    TtlWord(h[8], h[9]);
    assert TtlDown(h)[..n] == c;
  }

  /** The updated header verifies exactly if the original did, however much of the packet the header
      length covers; nothing but the TTL and the checksum changes, and one fold is always enough. */
  lemma TtlKeepsChecksum(h: Bytes, n: nat)
    requires |h| >= 20 && h[8] >= 1 && 20 <= n <= |h|
    ensures Verifies(TtlDown(h)[..n]) <==> Verifies(h[..n])
    ensures FoldOnce(Word(h[10], h[11]) + 0x0100) <= 0xFFFF
    ensures TtlDown(h)[8] == h[8] - 1
    ensures forall i :: 0 <= i < |h| && i != 8 && i != 10 && i != 11 ==> TtlDown(h)[i] == h[i]
  {
    hide FoldOnce, OnesSum, WordSum;
    var ck := Word(h[10], h[11]);
    FoldOnceIs(ck);
    TtlSum(h, n);
    if ck >= 0xFF00 {
      WordsAt(h[..n]);
      Shifted(WordSum(TtlDown(h)[..n]));
    }
  }

  lemma Shifted(s: nat)
    requires s > 0
    ensures OnesSum(s + 0xFFFF) == OnesSum(s)
  {
    AddMultiple(s - 1, 1);
  }

  /** The TTL word and the checksum word are counted separately. */
  lemma WordsAt(b: Bytes)
    requires |b| >= 20
    ensures WordSum(b) >= Word(b[8], b[9]) + Word(b[10], b[11])
  {
    assert b == b[..8] + b[8..];
    WordSumSplit(b[..8], b[8..]);
    assert b[8..][2..] == b[10..];
    assert b[10..][2..] == b[12..];
  }
}

/**
 ICMP errors built in a packet buffer (src/icmp.c). Each builder is proved to
 leave exactly the packet described here, and that packet's checksums verify.
 */
module Icmp {
  import opened Common
  import opened Checksum

  const IPV4_MIN_HDR := 20
  const IPV6_MIN_HDR := 40
  const IPV6_MIN_MTU := 1280
  const TTL: Byte := 64
  const V4_BUFFER := 128

  // ---- what is sent ----

  /** How much of the offending IPv4 packet is quoted: its header and eight bytes, if there are so many. */
  function Quoted(orig: Bytes): (n: nat)
    requires orig != []
    ensures n <= |orig| && n <= 68
  {
    var ihl := (orig[0] as int % 16) * 4;
    Min(ihl + 8, |orig|)
  }

  /** The packets mqvpn_icmp_send_v4 answers at all. */
  predicate Answerable4(orig: Bytes) {
    |orig| >= IPV4_MIN_HDR && IPV4_MIN_HDR <= (orig[0] as int % 16) * 4 <= |orig|
  }

  function Header4(total: nat, src: Bytes, dst: Bytes): (h: Bytes)
    requires total <= 0xFFFF && |src| == 4 && |dst| == 4
    ensures |h| == 20
  {
    [0x45, 0xC0, High(total), Low(total), 0, 0, 0, 0, TTL, 1, 0, 0] + src + dst
  }

  function Body4(kind: Byte, code: Byte, mtu: nat, quote: Bytes): (b: Bytes)
    requires mtu <= 0xFFFF
    ensures |b| == 8 + |quote|
  {
    [kind, code, 0, 0, 0, 0, High(mtu), Low(mtu)] + quote
  }

  function Packet4(src: Bytes, kind: Byte, code: Byte, mtu: nat, orig: Bytes): (p: Bytes)
    requires |src| == 4 && mtu <= 0xFFFF && Answerable4(orig)
    ensures |p| == 28 + Quoted(orig)
  {
    Sealed(Header4(28 + Quoted(orig), src, orig[12..16]), 10, 0) + Sealed(Body4(kind, code, mtu, orig[..Quoted(orig)]), 2, 0)
  }

  function Quoted6(orig: Bytes): (n: nat)
    ensures n <= |orig| && 48 + n <= IPV6_MIN_MTU
  {
    Min(|orig|, IPV6_MIN_MTU - IPV6_MIN_HDR - 8)
  }

  function Header6(length: nat, src: Bytes, dst: Bytes): (h: Bytes)
    requires length <= 0xFFFF && |src| == 16 && |dst| == 16
    ensures |h| == 40
  {
    [0x60, 0, 0, 0, High(length), Low(length), 58, TTL] + src + dst
  }

  function Body6(kind: Byte, code: Byte, mtu: nat, quote: Bytes): (b: Bytes)
    requires mtu <= 0xFFFF_FFFF
    ensures |b| == 8 + |quote|
  {
    [kind, code, 0, 0, High(mtu / 0x10000), Low(mtu / 0x10000), High(mtu % 0x10000), Low(mtu % 0x10000)] + quote
  }

  /** The pseudo-header of section 8.1 of RFC 8200. */
  function Pseudo6(src: Bytes, dst: Bytes, length: nat): (b: Bytes)
    requires length <= 0xFFFF && |src| == 16 && |dst| == 16
    ensures |b| == 40
  {
    src + dst + [0, 0, High(length), Low(length), 0, 0, 0, 58]
  }

  function Packet6(src: Bytes, kind: Byte, code: Byte, mtu: nat, orig: Bytes): (p: Bytes)
    requires |src| == 16 && mtu <= 0xFFFF_FFFF && |orig| >= IPV6_MIN_HDR
    ensures |p| == 48 + Quoted6(orig)
  {
    var body := Body6(kind, code, mtu, orig[..Quoted6(orig)]);
    Header6(|body|, src, orig[8..24]) + Sealed(body, 2, WordSum(Pseudo6(src, orig[8..24], |body|)))
  }

  // ---- both checksums of an ICMPv4 error verify ----

  lemma Packet4Verifies(src: Bytes, kind: Byte, code: Byte, mtu: nat, orig: Bytes)
    requires |src| == 4 && mtu <= 0xFFFF && Answerable4(orig)
    ensures var p := Packet4(src, kind, code, mtu, orig);
            && 48 <= |p| <= 96 && p[0] == 0x45 && p[8] == 64 && p[9] == 1 && p[20] == kind && p[21] == code
            && |p| - 28 == (if |orig| < (orig[0] % 16) * 4 + 8 then |orig| else (orig[0] % 16) * 4 + 8)
            && Word(p[2], p[3]) == |p|
            && Verifies(p[..20]) && Verifies(p[20..])
            && p[16..20] == orig[12..16] && p[12..16] == src
            && p[28..] == orig[..|p| - 28] && Word(p[26], p[27]) == mtu
  {
    hide WordSum, OnesSum, Word;
    var n := Quoted(orig);
    var h, b := Header4(28 + n, src, orig[12..16]), Body4(kind, code, mtu, orig[..n]);
    var p := Packet4(src, kind, code, mtu, orig);
    SealedVerifies(h, 10, 0);
    SealedVerifies(b, 2, 0);
    assert p[..20] == Sealed(h, 10, 0) && p[20..] == Sealed(b, 2, 0);
    assert p[12..16] == h[12..16] == src && p[16..20] == h[16..20] == orig[12..16];
    assert p[28..] == b[8..] == orig[..n];
    assert p[0] == h[0] && p[2] == h[2] && p[3] == h[3] && p[8] == h[8] && p[9] == h[9];
    assert p[20] == b[0] && p[21] == b[1] && p[26] == b[6] && p[27] == b[7];
    WordOf(28 + n);
    WordOf(mtu);
  }

  /** The ICMPv6 checksum verifies over the pseudo-header followed by the message. */
  lemma Packet6Verifies(src: Bytes, kind: Byte, code: Byte, mtu: nat, orig: Bytes)
    requires |src| == 16 && mtu <= 0xFFFF_FFFF && |orig| >= IPV6_MIN_HDR
    ensures var p := Packet6(src, kind, code, mtu, orig);
            && 88 <= |p| <= IPV6_MIN_MTU && p[0] == 0x60 && p[6] == 58 && p[7] == 64 && p[40] == kind && p[41] == code
            && Word(p[4], p[5]) == |p| - 40
            && Verifies(Pseudo6(p[8..24], p[24..40], |p| - 40) + p[40..])
            && p[8..24] == src && p[24..40] == orig[8..24]
            && |p| == (if |orig| + 48 < 1280 then |orig| + 48 else 1280) && p[48..] == orig[..|p| - 48]
            && Word(p[44], p[45]) * 0x10000 + Word(p[46], p[47]) == mtu
  {
    hide WordSum, OnesSum, Word, Sealed, Pseudo6;
    var dst, b := orig[8..24], Body6(kind, code, mtu, orig[..Quoted6(orig)]);
    var h := Header6(|b|, src, dst);
    var extra := WordSum(Pseudo6(src, dst, |b|));
    var s := Sealed(b, 2, extra);
    var p := Packet6(src, kind, code, mtu, orig);
    PseudoVerifies(src, dst, b);
    SealedKeeps(b, 2, extra);
    assert p[..40] == h && p[40..] == s;
    assert p[8..24] == h[8..24] == src && p[24..40] == h[24..40] == dst;
    assert p[48..] == s[8..] == b[8..] == orig[..Quoted6(orig)];
    assert p[0] == h[0] && p[4] == h[4] && p[5] == h[5] && p[6] == h[6] && p[7] == h[7] && p[40] == s[0] && p[41] == s[1];
    assert p[44] == s[4] && p[45] == s[5] && p[46] == s[6] && p[47] == s[7];
    WordOf(|b|);
    MtuWords(mtu);
  }

  lemma MtuWords(mtu: nat)
    requires mtu <= 0xFFFF_FFFF
    ensures Word(High(mtu / 0x10000), Low(mtu / 0x10000)) * 0x10000 + Word(High(mtu % 0x10000), Low(mtu % 0x10000)) == mtu
  {
    hide Word, High, Low;
    WordOf(mtu / 0x10000);
    WordOf(mtu % 0x10000);
  }

  /** Sealing writes the two checksum bytes and nothing else. */
  lemma SealedKeeps(b: Bytes, k: nat, extra: nat)
    requires k + 1 < |b|
    ensures var s := Sealed(b, k, extra); forall i :: 0 <= i < |b| && i != k && i != k + 1 ==> s[i] == b[i]
  {
  }

  /** A message sealed with its pseudo-header's sum verifies after the pseudo-header. */
  lemma PseudoVerifies(src: Bytes, dst: Bytes, b: Bytes)
    requires |src| == 16 && |dst| == 16 && 4 <= |b| <= 0xFFFF && b[2] == 0 && b[3] == 0
    ensures Verifies(Pseudo6(src, dst, |b|) + Sealed(b, 2, WordSum(Pseudo6(src, dst, |b|))))
  {
    hide WordSum, OnesSum, Sealed, Pseudo6;
    var pseudo := Pseudo6(src, dst, |b|);
    SealedVerifies(b, 2, WordSum(pseudo));
    WordSumSplit(pseudo, Sealed(b, 2, WordSum(pseudo)));
  }

  /** The sum the code starts from is the pseudo-header's. */
  lemma PseudoSum(src: Bytes, dst: Bytes, length: nat)
    requires length <= 0xFFFF && |src| == 16 && |dst| == 16
    ensures WordSum(Pseudo6(src, dst, length)) == WordSum(src) + WordSum(dst) + length + 58
  {
    var tail: Bytes := [0, 0, High(length), Low(length), 0, 0, 0, 58];
    assert Pseudo6(src, dst, length) == src + (dst + tail);
    WordSumSplit(src, dst + tail);
    WordSumSplit(dst, tail);
    TailSum(length);
  }

  lemma TailSum(length: nat)
    requires length <= 0xFFFF
    ensures WordSum([0, 0, High(length), Low(length), 0, 0, 0, 58]) == length + 58
  {
    var t: Bytes := [0, 0, High(length), Low(length), 0, 0, 0, 58];
    assert t[2..] == [High(length), Low(length), 0, 0, 0, 58];
    assert t[4..] == [0, 0, 0, 58] && t[6..] == [0, 58] && t[8..] == [];
    assert t[2..][2..] == t[4..] && t[4..][2..] == t[6..] && t[6..][2..] == t[8..];
    assert WordSum(t[6..]) == 58;
    assert WordSum(t[4..]) == 58;
    assert WordSum(t[2..]) == Word(High(length), Low(length)) + 58;
    WordOf(length);
  }

  // ---- building in place ----

  /** memcpy into the packet buffer. */
  method Copy(pkt: array<Byte>, at: nat, data: Bytes)
    requires at + |data| <= pkt.Length
    modifies pkt
    ensures pkt[at..at + |data|] == data
    ensures pkt[..at] == old(pkt[..at]) && pkt[at + |data|..] == old(pkt[at + |data|..])
  {
    ghost var was := pkt[..];
    var i := 0;
    while i < |data|
      invariant 0 <= i <= |data|
      invariant forall k :: 0 <= k < i ==> pkt[at + k] == data[k]
      invariant forall k :: 0 <= k < at || at + i <= k < pkt.Length ==> pkt[k] == was[k]
    {
      pkt[at + i] := data[i];
      i := i + 1;
    }
    assert pkt[..at] == was[..at] && pkt[at + |data|..] == was[at + |data|..];
  }

  /** Sum pkt[lo..hi] from `extra`, fold, complement, and store the result at offset k. */
  method Seal(pkt: array<Byte>, lo: nat, hi: nat, k: nat, extra: U32)
    requires lo + k + 1 < hi <= pkt.Length && hi - lo <= 0xFFFF && extra <= 0x12_0000
    modifies pkt
    ensures pkt[lo..hi] == Sealed(old(pkt[lo..hi]), k, extra as nat)
    ensures pkt[..lo] == old(pkt[..lo]) && pkt[hi..] == old(pkt[hi..])
  {
    hide WordSum, OnesSum;
    ghost var was: Bytes := pkt[lo..hi];
    var sum := AddWords(pkt, lo, hi, extra);
    sum := Fold(sum);
    var c := 0xFFFF - sum as int;
    pkt[lo + k] := c / 256;
    pkt[lo + k + 1] := c % 256;
    ghost var put: Bytes := was[k := High(c)];
    assert pkt[lo..hi] == put[k + 1 := Low(c)];
  }

  predicate Zero(b: Bytes) { forall i {:trigger b[i]} :: 0 <= i < |b| ==> b[i] == 0 }

  method FillFixed4(pkt: array<Byte>, total: nat)
    requires pkt.Length >= 20 && Zero(pkt[..20]) && total <= 0xFFFF
    modifies pkt
    ensures pkt[..12] == [0x45, 0xC0, High(total), Low(total), 0, 0, 0, 0, TTL, 1, 0, 0]
    ensures pkt[12..] == old(pkt[12..])
  {
    hide High, Low;
    assert forall i :: 0 <= i < 20 ==> pkt[i] == pkt[..20][i] == 0;
    pkt[0], pkt[1], pkt[2], pkt[3] := 0x45, 0xC0, High(total), Low(total);
    pkt[8], pkt[9] := TTL, 1;
  }

  method FillHeader4(pkt: array<Byte>, total: nat, src: Bytes, dst: Bytes)
    requires pkt.Length >= 20 && Zero(pkt[..20]) && total <= 0xFFFF && |src| == 4 && |dst| == 4
    modifies pkt
    ensures pkt[..20] == Header4(total, src, dst) && pkt[20..] == old(pkt[20..])
  {
    FillFixed4(pkt, total);
    ghost var head := pkt[..12];
    Copy(pkt, 12, src);
    assert pkt[..12] == head;
    Copy(pkt, 16, dst);
    assert pkt[..12] == pkt[..16][..12] == head && pkt[12..16] == pkt[..16][12..16] == src;
    assert pkt[..20] == pkt[..12] + pkt[12..16] + pkt[16..20];
    assert pkt[20..] == pkt[16..][4..];
  }

  method FillBody4(pkt: array<Byte>, kind: Byte, code: Byte, mtu: nat, quote: Bytes)
    requires pkt.Length >= 28 + |quote| && Zero(pkt[20..28]) && mtu <= 0xFFFF
    modifies pkt
    ensures pkt[20..28 + |quote|] == Body4(kind, code, mtu, quote) && pkt[..20] == old(pkt[..20])
  {
    assert forall i :: 20 <= i < 28 ==> pkt[i] == pkt[20..28][i - 20] == 0;
    ghost var before := pkt[..20];
    pkt[20], pkt[21] := kind, code;
    pkt[26], pkt[27] := High(mtu), Low(mtu);
    ghost var head := pkt[20..28];
    assert pkt[..20] == before;
    Copy(pkt, 28, quote);
    assert pkt[..20] == pkt[..28][..20] == before && pkt[20..28] == pkt[..28][20..28] == head;
    assert pkt[20..28 + |quote|] == pkt[20..28] + pkt[28..28 + |quote|];
  }

  /** The 128-byte packet of mqvpn_icmp_send_v4. */
  method Build4(src: Bytes, kind: Byte, code: Byte, mtu: nat, orig: Bytes, quote: nat) returns (sent: Bytes)
    requires |src| == 4 && mtu <= 0xFFFF && Answerable4(orig) && quote == Quoted(orig)
    ensures sent == Packet4(src, kind, code, mtu, orig)
  {
    hide Header4, Body4, Sealed;
    var total := 28 + quote;
    var pkt := new Byte[V4_BUFFER](_ => 0);
    FillHeader4(pkt, total, src, orig[12..16]);
    ghost var body := pkt[20..];
    Seal(pkt, 0, 20, 10, 0);
    ghost var head := pkt[..20];
    assert Zero(pkt[20..28]) by { assert pkt[20..] == body; assert pkt[20..28] == body[..8]; }
    FillBody4(pkt, kind, code, mtu, orig[..quote]);
    Seal(pkt, 20, total, 2, 0);
    assert pkt[..total] == pkt[..20] + pkt[20..total];
    return pkt[..total];
  }

  /** mqvpn_icmp_send_v4: nothing for a packet without a sound header, else exactly Packet4. The
      check against the 128-byte buffer never fires. */
  method SendV4(src: Bytes, kind: Byte, code: Byte, mtu: nat, orig: Bytes) returns (sent: Option<Bytes>)
    requires |src| == 4 && mtu <= 0xFFFF
    ensures sent == if Answerable4(orig) then Some(Packet4(src, kind, code, mtu, orig)) else None
    ensures sent.Some? <==> |orig| >= 20 && 20 <= (orig[0] % 16) * 4 <= |orig|
  {
    hide Packet4;
    if |orig| < IPV4_MIN_HDR { return None; }
    var ihl := (orig[0] as int % 16) * 4;
    if ihl < IPV4_MIN_HDR || ihl > |orig| { return None; }
    var quote := ihl + 8;
    if quote > |orig| { quote := |orig|; }
    if IPV4_MIN_HDR + 8 + quote > V4_BUFFER { return None; }
    var pkt := Build4(src, kind, code, mtu, orig, quote);
    return Some(pkt);
  }

  method FillHeader6(pkt: array<Byte>, length: nat, src: Bytes, dst: Bytes)
    requires pkt.Length >= 40 && Zero(pkt[..40]) && length <= 0xFFFF && |src| == 16 && |dst| == 16
    modifies pkt
    ensures pkt[..40] == Header6(length, src, dst) && pkt[40..] == old(pkt[40..])
    ensures pkt[8..24] == src && pkt[24..40] == dst
  {
    assert forall i :: 0 <= i < 40 ==> pkt[i] == pkt[..40][i] == 0;
    pkt[0], pkt[4], pkt[5], pkt[6], pkt[7] := 0x60, High(length), Low(length), 58, TTL;
    ghost var head := pkt[..8];
    Copy(pkt, 8, src);
    assert pkt[..8] == head;
    Copy(pkt, 24, dst);
    assert pkt[..8] == pkt[..24][..8] == head && pkt[8..24] == pkt[..24][8..24] == src;
    assert pkt[..40] == pkt[..8] + pkt[8..24] + pkt[24..40];
  }

  method FillBody6(pkt: array<Byte>, kind: Byte, code: Byte, mtu: nat, quote: Bytes)
    requires pkt.Length >= 48 + |quote| && Zero(pkt[40..48]) && mtu <= 0xFFFF_FFFF
    modifies pkt
    ensures pkt[40..48 + |quote|] == Body6(kind, code, mtu, quote) && pkt[..40] == old(pkt[..40])
  {
    assert forall i :: 40 <= i < 48 ==> pkt[i] == pkt[40..48][i - 40] == 0;
    ghost var before := pkt[..40];
    var hi, lo := mtu / 0x10000, mtu % 0x10000;
    pkt[40], pkt[41] := kind, code;
    pkt[44], pkt[45], pkt[46], pkt[47] := High(hi), Low(hi), High(lo), Low(lo);
    ghost var head := pkt[40..48];
    assert pkt[..40] == before;
    Copy(pkt, 48, quote);
    assert pkt[..40] == pkt[..48][..40] == before && pkt[40..48] == pkt[..48][40..48] == head;
    assert pkt[40..48 + |quote|] == pkt[40..48] + pkt[48..48 + |quote|];
  }

  /** icmpv6_checksum's accumulator before the message: the pseudo-header. */
  method SumPseudo(pkt: array<Byte>, length: nat) returns (sum: U32)
    requires pkt.Length >= 40 && length <= 0xFFFF
    ensures sum as nat == WordSum(Pseudo6(pkt[8..24], pkt[24..40], length)) && sum <= 0x12_0000
  {
    sum := AddWords(pkt, 8, 24, 0);
    sum := AddWords(pkt, 24, 40, sum);
    sum := sum + (length / 0x10000) as U32 + (length % 0x10000) as U32 + 58;
    PseudoSum(pkt[8..24], pkt[24..40], length);
  }

  /** The packet of mqvpn_icmp_send_v6. */
  method Build6(src: Bytes, kind: Byte, code: Byte, mtu: nat, orig: Bytes, quote: nat) returns (sent: Bytes)
    requires |src| == 16 && mtu <= 0xFFFF_FFFF && |orig| >= IPV6_MIN_HDR && quote == Quoted6(orig)
    ensures sent == Packet6(src, kind, code, mtu, orig)
  {
    hide Header6, Body6, Sealed, Pseudo6, WordSum;
    var length := 8 + quote;
    var pkt := new Byte[IPV6_MIN_MTU](_ => 0);
    ghost var dst := orig[8..24];
    FillHeader6(pkt, length, src, orig[8..24]);
    assert Zero(pkt[40..48]) by { assert pkt[40..48] == pkt[40..][..8]; }
    ghost var head := pkt[..40];
    FillBody6(pkt, kind, code, mtu, orig[..quote]);
    assert pkt[8..24] == pkt[..40][8..24] == src && pkt[24..40] == pkt[..40][24..40] == dst;
    var sum := SumPseudo(pkt, length);
    Seal(pkt, 40, 40 + length, 2, sum);
    assert pkt[..40 + length] == pkt[..40] + pkt[40..40 + length];
    return pkt[..40 + length];
  }

  /** mqvpn_icmp_send_v6. */
  method SendV6(src: Bytes, kind: Byte, code: Byte, mtu: nat, orig: Bytes) returns (sent: Option<Bytes>)
    requires |src| == 16 && mtu <= 0xFFFF_FFFF
    ensures sent == if |orig| >= IPV6_MIN_HDR then Some(Packet6(src, kind, code, mtu, orig)) else None
  {
    hide Packet6;
    if |orig| < IPV6_MIN_HDR { return None; }
    var quote := |orig|;
    if IPV6_MIN_HDR + 8 + quote > IPV6_MIN_MTU { quote := IPV6_MIN_MTU - IPV6_MIN_HDR - 8; }
    var pkt := Build6(src, kind, code, mtu, orig, quote);
    return Some(pkt);
  }
}

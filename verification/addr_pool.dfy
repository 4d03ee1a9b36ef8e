/**
 The dual-stack address pool (src/addr_pool.c): offsets into an IPv4 subnet,
 handed out in cyclic order, and the IPv6 address that goes with each.
 */
module AddrPool {
  import opened Common

  const POOL_MAX := 254
  const WORD := 0x1_0000_0000

  type Addr = x: int | 0 <= x < WORD

  /** x % n and x / n, by repeated subtraction: linear, and equal to them by DivMod. */
  function Mod(x: nat, n: nat): (r: nat)
    requires n >= 1
    ensures r < n
    decreases x
  {
    if x < n then x else Mod(x - n, n)
  }

  function Div(x: nat, n: nat): nat
    requires n >= 1
    decreases x
  {
    if x < n then 0 else 1 + Div(x - n, n)
  }

  lemma {:induction false} DivMod(x: nat, n: nat)
    requires n >= 1
    ensures Div(x, n) == x / n && Mod(x, n) == x % n
    decreases x
  {
    if x >= n {
      DivMod(x - n, n);
      OneMore(x - n, n);
    }
  }

  lemma OneMore(x: nat, n: nat)
    requires n >= 1
    ensures (x + n) / n == x / n + 1 && (x + n) % n == x % n
  {
    var d := (x + n) / n - x / n - 1;
    assert d * n == x % n - (x + n) % n;
    assert d >= 1 ==> d * n >= n;
    assert d <= -1 ==> d * n <= 0 - n;
  }

  /** mqvpn_addr_pool_init after the CIDR text is parsed: how many offsets the pool has. */
  function PoolSize(prefix: nat): (n: nat)
    requires 16 <= prefix <= 30
    ensures 2 <= n <= POOL_MAX && n + 2 <= Pow2(32 - prefix)
  {
    Pow2Ends();
    if prefix < 24 then POOL_MAX else Min(Pow2(32 - prefix) - 2, POOL_MAX)
  }

  /** All hosts of the subnet but the network and broadcast addresses, at most 254. */
  lemma PoolSizeIs(prefix: nat)
    requires 16 <= prefix <= 30
    ensures PoolSize(prefix) == if Pow2(32 - prefix) - 2 > 254 then 254 else Pow2(32 - prefix) - 2
  {
    hide Pow2;
    Pow2Ends();
  }

  lemma Pow2Ends()
    ensures Pow2(2) == 4 && Pow2(8) == 256
    ensures forall n: nat {:trigger Pow2(n)} :: 8 <= n <= 32 ==> Pow2(n) >= 256
    ensures forall n: nat {:trigger Pow2(n)} :: 2 <= n <= 32 ==> Pow2(n) >= 4
  {
    assert Pow2(4) == 16 && Pow2(6) == 64;
    forall n: nat | 8 <= n <= 32 ensures Pow2(n) >= 256 { Pow2Grows(8, n); }
    forall n: nat | 2 <= n <= 32 ensures Pow2(n) >= 4 { Pow2Grows(2, n); }
  }

  lemma {:induction false} Pow2Grows(a: nat, b: nat)
    requires a <= b
    ensures Pow2(a) <= Pow2(b)
    decreases b
  {
    if a < b { Pow2Grows(a, b - 1); }
  }

  /** used: the offsets handed out; out: history, the addresses the server holds and did not give back. */
  datatype Pool = Pool(base: Addr, size: nat, next: nat, used: set<nat>, out: seq<Addr>)

  /** The pool mqvpn_addr_pool_init accepts: the prefix in range and the last address not wrapped. */
  predicate Accepts(base: Addr, prefix: int) { 16 <= prefix <= 30 && base + PoolSize(prefix) < WORD }

  function Fresh(base: Addr, prefix: nat): Pool
    requires Accepts(base, prefix)
  {
    Pool(base, PoolSize(prefix), 2, {}, [])
  }

  // ---- cyclic order ----

  /** The offset tried at step i of a scan that starts at `next`. */
  function Tried(size: nat, next: nat, i: nat): (off: nat)
    requires size >= 1 && next >= 1
    ensures 1 <= off <= size
  {
    Mod(next - 1 + i, size) + 1
  }

  predicate Free(p: Pool, off: nat) { off != 1 && off !in p.used }

  /** The first free offset from step i on. */
  function Scan(p: Pool, i: nat): (r: Option<nat>)
    requires p.size >= 1 && p.next >= 1 && i <= p.size
    ensures r.Some? ==> 1 <= r.value <= p.size && Free(p, r.value)
    decreases p.size - i
  {
    if i == p.size then None
    else if Free(p, Tried(p.size, p.next, i)) then Some(Tried(p.size, p.next, i))
    else Scan(p, i + 1)
  }

  /** Step m of the scan is the first from step i on to try a free offset, namely off. */
  predicate FirstAt(p: Pool, i: nat, m: nat, off: nat)
    requires p.size >= 1 && p.next >= 1
  {
    i <= m < p.size && Tried(p.size, p.next, m) == off && Free(p, off)
    && (forall k {:trigger Tried(p.size, p.next, k)} :: i <= k < m ==> !Free(p, Tried(p.size, p.next, k)))
  }

  lemma {:induction false} ScanHits(p: Pool, i: nat) returns (m: nat)
    requires p.size >= 1 && p.next >= 1 && i <= p.size && Scan(p, i).Some?
    ensures FirstAt(p, i, m, Scan(p, i).value)
    decreases p.size - i
  {
    hide Tried;
    m := i;
    if !Free(p, Tried(p.size, p.next, i)) { m := ScanHits(p, i + 1); }
  }

  lemma {:induction false} ScanMisses(p: Pool, i: nat, k: nat)
    requires p.size >= 1 && p.next >= 1 && i <= k < p.size && Scan(p, i).None?
    ensures !Free(p, Tried(p.size, p.next, k))
    decreases p.size - i
  {
    hide Tried;
    if i < k { ScanMisses(p, i + 1, k); }
  }

  /** One scan tries every offset. */
  lemma EveryOffsetTried(size: nat, next: nat, off: nat) returns (i: nat)
    requires 2 <= next <= size + 1 && 1 <= off <= size
    ensures i < size && Tried(size, next, i) == off
  {
    i := if off >= next then off - next else off - next + size;
    assert Mod(off - 1, size) == off - 1 && Mod(off - 1 + size, size) == off - 1;
  }

  // ---- operations ----

  datatype Op = Alloc | Release(addr: Addr)

  /** mqvpn_addr_pool_alloc. */
  function Allocated(p: Pool): Pool
    requires p.size >= 1 && p.next >= 1
  {
    match Scan(p, 0)
    case None => p
    case Some(off) =>
      p.(used := p.used + {off}, next := off + 1, out := if p.base + off < WORD then p.out + [p.base + off] else p.out)
  }

  /** mqvpn_addr_pool_release. */
  function Released(p: Pool, addr: Addr): Pool {
    var p' := p.(out := Without(p.out, addr));
    if addr < p.base || addr - p.base < 1 || addr - p.base > p.size then p' else p'.(used := p.used - {addr - p.base})
  }

  function Without(q: seq<Addr>, a: Addr): seq<Addr> {
    if q == [] then [] else (if q[0] == a then [] else [q[0]]) + Without(q[1..], a)
  }

  function Step(p: Pool, op: Op): Pool
    requires p.size >= 1 && p.next >= 1
  {
    match op case Alloc => Allocated(p) case Release(a) => Released(p, a)
  }

  // ---- what every run keeps ----

  predicate NoRepeat(q: seq<Addr>) { forall i, j {:trigger q[i], q[j]} :: 0 <= i < j < |q| ==> q[i] != q[j] }

  /** Outstanding addresses are distinct and are exactly the used offsets, none of which is the network
      address (offset 0) or the server's (offset 1), and none wraps. */
  predicate Inv(p: Pool) {
    && 2 <= p.size <= POOL_MAX && 2 <= p.next <= p.size + 1 && p.base + p.size < WORD
    && (forall off {:trigger off in p.used} :: off in p.used ==> 2 <= off <= p.size)
    && NoRepeat(p.out)
    && (forall a: Addr {:trigger a in p.out} :: a in p.out <==> a >= p.base && (a - p.base) as nat in p.used)
  }

  lemma {:induction false} WithoutIs(q: seq<Addr>, a: Addr)
    ensures forall x: Addr {:trigger x in Without(q, a)} :: x in Without(q, a) <==> x in q && x != a
    ensures NoRepeat(q) ==> NoRepeat(Without(q, a))
    decreases q
  {
    if q != [] {
      var rest := Without(q[1..], a);
      WithoutIs(q[1..], a);
      assert q == [q[0]] + q[1..];
      if NoRepeat(q) {
        assert NoRepeat(q[1..]);
        assert q[0] !in q[1..];
        assert q[0] !in rest;
        assert NoRepeat([q[0]] + rest) by { Prepended(q[0], rest); }
      }
    }
  }

  lemma Prepended(a: Addr, q: seq<Addr>)
    requires NoRepeat(q) && a !in q
    ensures NoRepeat([a] + q)
  {
    var r := [a] + q;
    forall i, j | 0 <= i < j < |r| ensures r[i] != r[j] {
      assert r[j] == q[j - 1];
      if i > 0 { assert r[i] == q[i - 1]; }
    }
  }

  lemma AllocKeeps(p: Pool)
    requires Inv(p)
    ensures Inv(Allocated(p))
  {
    var r := Scan(p, 0);
    if r.Some? {
      var off := r.value;
      var a: Addr := p.base + off;
      assert a !in p.out;
      var out' := p.out + [a];
      forall i, j | 0 <= i < j < |out'| ensures out'[i] != out'[j] { assert out'[i] in p.out; }
    }
  }

  lemma ReleaseKeeps(p: Pool, a: Addr)
    requires Inv(p)
    ensures Inv(Released(p, a))
  {
    WithoutIs(p.out, a);
  }

  function Run(p: Pool, ops: seq<Op>): Pool
    requires Inv(p)
    decreases ops
  {
    if ops == [] then p
    else
      StepKeeps(p, ops[0]);
      Run(Step(p, ops[0]), ops[1..])
  }

  lemma StepKeeps(p: Pool, op: Op)
    requires Inv(p)
    ensures Inv(Step(p, op))
  {
    match op case Alloc => AllocKeeps(p); case Release(a) => ReleaseKeeps(p, a);
  }

  lemma {:induction false} RunKeeps(p: Pool, ops: seq<Op>)
    requires Inv(p)
    ensures Inv(Run(p, ops))
    decreases ops
  {
    if ops != [] {
      StepKeeps(p, ops[0]);
      RunKeeps(Step(p, ops[0]), ops[1..]);
    }
  }

  /** Over every run of allocations and releases, of any addresses whatever: what is outstanding is
      pairwise distinct, never the network or the server address, never wrapped. */
  lemma OutstandingDistinct(base: Addr, prefix: nat, ops: seq<Op>)
    requires Accepts(base, prefix)
    ensures Inv(Fresh(base, prefix))
    ensures var p := Run(Fresh(base, prefix), ops);
            && p.base == base && p.size == PoolSize(prefix)
            && NoRepeat(p.out)
            && forall a {:trigger a in p.out} :: a in p.out ==> base + 2 <= a <= base + PoolSize(prefix) < WORD
  {
    RunKeeps(Fresh(base, prefix), ops);
    RunFixed(Fresh(base, prefix), ops);
    var p := Run(Fresh(base, prefix), ops);
    forall a | a in p.out ensures base + 2 <= a <= base + PoolSize(prefix) { assert (a - p.base) as nat in p.used; }
  }

  lemma {:induction false} RunFixed(p: Pool, ops: seq<Op>)
    requires Inv(p)
    ensures Run(p, ops).base == p.base && Run(p, ops).size == p.size
    decreases ops
  {
    if ops != [] {
      StepKeeps(p, ops[0]);
      RunFixed(Step(p, ops[0]), ops[1..]);
    }
  }

  /** Allocation fails exactly when offsets 2..size are all taken; otherwise it takes the first free
      offset in cyclic order from `next` and returns an address nobody holds. */
  lemma AllocExactly(p: Pool)
    requires Inv(p)
    ensures Scan(p, 0).None? <==> forall off :: 2 <= off <= p.size ==> off in p.used
    ensures Scan(p, 0).Some? ==> var off := Scan(p, 0).value;
              2 <= off <= p.size && off !in p.used && (p.base + off) as Addr !in p.out && (exists m :: FirstAt(p, 0, m, off))
  {
    hide Tried;
    if Scan(p, 0).None? {
      forall off | 2 <= off <= p.size ensures off in p.used {
        var i := EveryOffsetTried(p.size, p.next, off);
        ScanMisses(p, 0, i);
      }
    } else {
      var m := ScanHits(p, 0);
      assert FirstAt(p, 0, m, Scan(p, 0).value);
    }
  }

  /** A released address can be allocated again, and nothing else changes hands. */
  lemma ReleaseFrees(p: Pool, a: Addr)
    requires Inv(p) && a in p.out
    ensures var q := Released(p, a);
            Free(q, a - p.base) && Scan(q, 0).Some? && forall b: Addr {:trigger b in q.out} :: b in q.out <==> b in p.out && b != a
  {
    WithoutIs(p.out, a);
    ReleaseKeeps(p, a);
    AllocExactly(Released(p, a));
    var off: nat := a - p.base;
    assert off in p.used && off !in Released(p, a).used;
  }

  lemma {:induction false} WithoutNone(q: seq<Addr>, a: Addr)
    requires a !in q
    ensures Without(q, a) == q
    decreases q
  {
    if q != [] {
      assert q == [q[0]] + q[1..];
      WithoutNone(q[1..], a);
    }
  }

  /** Releasing an address nobody holds changes nothing. */
  lemma StrangerHarmless(p: Pool, a: Addr)
    requires Inv(p) && a !in p.out
    ensures Released(p, a) == p
  {
    WithoutNone(p.out, a);
    if a >= p.base {
      var off: nat := a - p.base;
      assert off !in p.used;
      assert p.used - {off} == p.used;
    }
  }

  /** The order of a scan that starts behind off: off itself is tried last. */
  lemma TriedFrom(size: nat, off: nat, i: nat)
    requires 1 <= off <= size && i < size
    ensures Tried(size, off + 1, i) == if off + i < size then off + i + 1 else off + i - size + 1
  {
    if off + i >= size { assert Mod(off + i, size) == Mod(off + i - size, size); }
  }

  /** An address that was just given back is the last to be given out again: while any other is free, the
      next client gets another one. */
  lemma ReissuedLast(p: Pool, other: nat)
    requires Inv(p) && Scan(p, 0).Some? && 2 <= other <= p.size && other !in p.used && other != Scan(p, 0).value
    ensures var off := Scan(p, 0).value; var q := Released(Allocated(p), p.base + off);
            Inv(q) && Scan(q, 0).Some? && Scan(q, 0).value != off
  {
    hide Mod;
    var off := Scan(p, 0).value;
    var p1 := Allocated(p);
    AllocKeeps(p);
    ReleaseKeeps(p1, p.base + off);
    var q := Released(p1, p.base + off);
    AllocExactly(q);
    assert Free(q, other);
    var m := ScanHits(q, 0);
    var i := EveryOffsetTried(q.size, q.next, other);
    assert m <= i by { assert Tried(q.size, q.next, i) == other; }
    TriedFrom(q.size, off, i);
    TriedFrom(q.size, off, m);
  }

  // ---- the IPv4 subnet ----

  /** a lies in the subnet of base. */
  predicate SameSubnet(base: nat, a: nat, width: nat) { Div(a, Pow2(width)) == Div(base, Pow2(width)) }

  /** An offset stays in the subnet exactly if it fits above the host part of the base. Only a base that
      is not aligned can fail: the code accepts such bases. */
  lemma InSubnetExactly(base: nat, off: nat, width: nat)
    ensures SameSubnet(base, base + off, width) <==> Mod(base, Pow2(width)) + off < Pow2(width)
  {
    Carry(base, off, Pow2(width));
  }

  lemma {:induction false} Carry(base: nat, off: nat, n: nat)
    requires n >= 1
    ensures Div(base + off, n) == Div(base, n) <==> Mod(base, n) + off < n
    decreases base
  {
    if base >= n {
      Carry(base - n, off, n);
    } else if base + off >= n {
      assert Div(base + off, n) == 1 + Div(base + off - n, n);
    }
  }

  predicate Inside(base: Addr, prefix: nat, off: nat)
    requires prefix <= 32
  {
    SameSubnet(base, base + off, 32 - prefix)
  }

  /** The whole pool is inside its subnet if and only if the base leaves room for it. */
  lemma PoolInSubnetExactly(base: Addr, prefix: nat)
    requires Accepts(base, prefix)
    ensures (forall off :: 1 <= off <= PoolSize(prefix) ==> Inside(base, prefix, off))
       <==> Mod(base, Pow2(32 - prefix)) + PoolSize(prefix) < Pow2(32 - prefix)
  {
    hide Pow2;
    var n := PoolSize(prefix);
    forall off | 1 <= off <= n ensures Inside(base, prefix, off) <==> Mod(base, Pow2(32 - prefix)) + off < Pow2(32 - prefix) {
      InSubnetExactly(base, off, 32 - prefix);
    }
    assert Inside(base, prefix, n) <==> Mod(base, Pow2(32 - prefix)) + n < Pow2(32 - prefix);
  }

  /** 0.0.0.250/24 is accepted, and its tenth address is 0.0.1.4. */
  lemma UnalignedLeaves()
    ensures Accepts(250, 24) && PoolSize(24) >= 10
    ensures !SameSubnet(250, 250 + 10, 8)
  {
    Pow2Ends();
    assert Div(250, 256) == 0 && Div(260, 256) == 1 + Div(4, 256);
  }

  // ---- IPv6 ----

  /** An IPv6 address: the upper 96 bits and the lower 32. */
  datatype Addr6 = Addr6(high: nat, low: Addr)

  /** mqvpn_addr_pool_init6 after the text is parsed. */
  predicate Accepts6(base6: Addr6, prefix6: int, size: nat) {
    96 <= prefix6 <= 126 && Mod(base6.low, Pow2(128 - prefix6)) + size <= Pow2(128 - prefix6) - 1
  }

  /** mqvpn_addr_pool_get6: 32-bit addition in the lower word. */
  function Get6(base6: Addr6, off: Addr): Addr6 {
    Addr6(base6.high, (base6.low + off) % WORD)
  }

  /** mqvpn_addr_pool_offset6. */
  function Offset6(base6: Addr6, a: Addr6): Addr {
    if a.high != base6.high || a.low < base6.low then 0 else a.low - base6.low
  }

  predicate SameSubnet6(base6: Addr6, a: Addr6, prefix6: nat)
    requires 96 <= prefix6 <= 126
  {
    a.high == base6.high && SameSubnet(base6.low, a.low, 128 - prefix6)
  }

  /** The low word never overflows below an accepted bound: a multiple of the block size ends the word. */
  lemma LowHasRoom(low: Addr, width: nat, off: nat)
    requires width <= 32 && Mod(low, Pow2(width)) + off < Pow2(width)
    ensures low + off < WORD
  {
    Pow2Word();
    WordDivides(width, 32);
    Room(low, Pow2(width), WORD, off);
  }

  lemma {:induction false} Pow2Word()
    ensures Pow2(32) == WORD
  {
    assert Pow2(4) == 16;
    assert Pow2(8) == 256;
    assert Pow2(12) == 4096;
    assert Pow2(16) == 65536;
    assert Pow2(20) == 0x10_0000;
    assert Pow2(24) == 0x100_0000;
    assert Pow2(28) == 0x1000_0000;
  }

  /** The smaller power divides the larger. */
  lemma {:induction false} WordDivides(a: nat, b: nat)
    requires a <= b
    ensures Mod(Pow2(b), Pow2(a)) == 0
    decreases b
  {
    if a == b {
      assert Mod(0, Pow2(a)) == 0;
    } else {
      WordDivides(a, b - 1);
      Twice(Pow2(b - 1), Pow2(b - 1), Pow2(a));
    }
  }

  lemma {:induction false} Twice(x: nat, y: nat, n: nat)
    requires n >= 1 && Mod(x, n) == 0 && Mod(y, n) == 0
    ensures Mod(x + y, n) == 0
    decreases x
  {
    if x >= n { Twice(x - n, y, n); }
  }

  /** Below a multiple m of n, a number is at least its distance to the next multiple away from m. */
  lemma {:induction false} Room(low: nat, n: nat, m: nat, off: nat)
    requires n >= 1 && low < m && Mod(m, n) == 0 && Mod(low, n) + off < n
    ensures low + off < m
    decreases low
  {
    if low >= n { Room(low - n, n, m - n, off); }
  }

  /** Every address paired with an offset of the pool is inside Subnet6, and the offset can be read
      back from it. */
  lemma Paired6(base6: Addr6, prefix6: nat, size: nat, off: nat)
    requires Accepts6(base6, prefix6, size) && off <= size && off < WORD
    ensures SameSubnet6(base6, Get6(base6, off), prefix6)
    ensures Offset6(base6, Get6(base6, off)) == off
  {
    LowHasRoom(base6.low, 128 - prefix6, off);
    InSubnetExactly(base6.low, off, 128 - prefix6);
    assert (base6.low + off) % WORD == base6.low + off;
  }

  /** The offset, added to the base without wrapping, stays in Subnet6. */
  predicate Inside6(base6: Addr6, prefix6: nat, off: nat)
    requires 96 <= prefix6 <= 126
  {
    SameSubnet(base6.low, base6.low + off, 128 - prefix6)
  }

  /** A prefix in range is refused exactly when some offset of the pool would leave Subnet6, whatever the
      size of the pool. */
  lemma RefusedExactly(base6: Addr6, prefix6: nat, size: nat)
    requires 96 <= prefix6 <= 126
    ensures Accepts6(base6, prefix6, size) <==> forall off: nat :: off <= size ==> Inside6(base6, prefix6, off)
  {
    hide Pow2, Mod;
    forall off: nat | off <= size
      ensures Inside6(base6, prefix6, off) <==> Mod(base6.low, Pow2(128 - prefix6)) + off < Pow2(128 - prefix6)
    {
      InSubnetExactly(base6.low, off, 128 - prefix6);
    }
    assert Inside6(base6, prefix6, size) <==> Accepts6(base6, prefix6, size);
  }

  /** Distinct offsets get distinct IPv6 addresses. */
  lemma Paired6Distinct(base6: Addr6, a: Addr, b: Addr)
    ensures Get6(base6, a) == Get6(base6, b) <==> a == b
  {
    var low := base6.low;
    if a != b {
      assert (low + a) % WORD == if low + a < WORD then low + a else low + a - WORD;
      assert (low + b) % WORD == if low + b < WORD then low + b else low + b - WORD;
    }
  }

  /** What offset6 answers, exactly. The header promises 0 for an address out of range; that holds if
      and only if the address is not above the pool's last one. */
  lemma Offset6Exactly(base6: Addr6, size: nat, a: Addr6)
    requires base6.low + size < WORD
    ensures Offset6(base6, a) > 0 ==> Get6(base6, Offset6(base6, a)) == a
    ensures var off := Offset6(base6, a);
            off > size <==> a.high == base6.high && a.low > base6.low + size
  {
  }

  /** fd00::1:0 in a pool of six: not an address of the pool, and offset6 answers 65536. */
  lemma Offset6OutOfRange()
    ensures Accepts6(Addr6(0xFD00, 0), 112, 6) && Offset6(Addr6(0xFD00, 0), Addr6(0xFD00, 0x1_0000)) == 0x1_0000
  {
    Pow2Ends();
  }

  // ---- in place ----

  /** The offset the scan looks at in its step i. */
  method CandidateAt(size: nat, next: nat, i: nat) returns (off: nat)
    requires size >= 1 && next >= 1
    ensures off == Tried(size, next, i)
  {
    DivMod(next - 1 + i, size);
    off := (next - 1 + i) % size + 1;
  }

  class AddressPool {
    var base: Addr
    var size: nat
    var next: nat
    const used: array<bool>
    ghost var out: seq<Addr>
    var base6: Addr6
    var prefix6: nat
    var hasV6: bool

    ghost function Taken(): set<nat>
      reads this, used
    {
      set off: nat | 1 <= off < used.Length && used[off]
    }

    ghost function View(): Pool
      reads this, used
    {
      Pool(base, size, next, Taken(), out)
    }

    ghost predicate Valid()
      reads this, used
    {
      used.Length == POOL_MAX + 1 && Inv(View())
    }

    constructor ()
      ensures used.Length == POOL_MAX + 1 && fresh(used)
    {
      base, size, next := 0, 0, 0;
      used := new bool[POOL_MAX + 1](_ => false);
      out := [];
      base6, prefix6, hasV6 := Addr6(0, 0), 0, false;
    }

    /** mqvpn_addr_pool_init on a CIDR whose text parses: refused exactly if the prefix is out of range or
        the last address would wrap, else an empty pool, whatever was there before. */
    method Init(b: Addr, prefix: int) returns (ok: bool)
      requires used.Length == POOL_MAX + 1
      modifies this, used
      ensures ok == Accepts(b, prefix)
      ensures ok ==> Valid() && View() == Fresh(b, prefix) && !hasV6
    {
      var i := 0;
      while i < used.Length
        invariant 0 <= i <= used.Length && forall k :: 0 <= k < i ==> !used[k]
        modifies used
      {
        used[i] := false;
        i := i + 1;
      }
      next, out, hasV6 := 0, [], false;
      if prefix < 16 || prefix > 30 { return false; }
      base, size, next := b, PoolSize(prefix), 2;
      if (b + size) % WORD < b { return false; }
      assert Taken() == {};
      return true;
    }

    /** mqvpn_addr_pool_alloc. */
    method Allocate() returns (r: Option<Addr>)
      requires Valid()
      modifies `next, `out, used
      ensures Valid() && View() == Step(old(View()), Alloc)
      ensures r == match Scan(old(View()), 0) case None => None case Some(off) => Some(base + off)
    {
      hide Tried, NoRepeat, Without;
      AllocKeeps(View());
      ghost var p := View();
      var i: nat := 0;
      while i < size
        invariant i <= size && Scan(p, 0) == Scan(p, i)
        invariant View() == p && Valid()
      {
        var off := CandidateAt(size, next, i);
        assert off in p.used <==> used[off];
        if off != 1 && !used[off] {
          used[off] := true;
          next := off + 1;
          out := out + [base + off];
          assert Taken() == p.used + {off};
          return Some(base + off);
        }
        i := i + 1;
      }
      return None;
    }

    /** mqvpn_addr_pool_release. */
    method Release(addr: Addr)
      requires Valid()
      modifies `out, used
      ensures Valid() && View() == Step(old(View()), Op.Release(addr))
    {
      ReleaseKeeps(View(), addr);
      ghost var p := View();
      out := Without(out, addr);
      assert Taken() == p.used;
      if addr < base { return; }
      var off := addr - base;
      if off >= 1 && off <= size {
        used[off] := false;
        assert Taken() == p.used - {off};
      }
    }

    /** mqvpn_addr_pool_init6 on a CIDR whose text parses. */
    method InitV6(b6: Addr6, prefix: int) returns (ok: bool)
      requires Valid()
      modifies `base6, `prefix6, `hasV6
      ensures Valid() && View() == old(View())
      ensures ok == Accepts6(b6, prefix, size)
      ensures if ok then hasV6 && base6 == b6 && prefix6 == prefix else hasV6 == old(hasV6) && prefix6 == old(prefix6)
    {
      ghost var p := View();
      if prefix < 96 || prefix > 126 { return false; }
      base6 := b6;
      assert Taken() == p.used;
      var n := Pow2(128 - prefix);
      DivMod(b6.low, n);
      if b6.low % n + size > n - 1 { return false; }
      prefix6, hasV6 := prefix, true;
      assert Taken() == p.used;
      return true;
    }
  }
}

/**
 The client's capsule buffer, grown by doubling and compacted in place
 (stream_append_capsules and process_capsules in src/mqvpn_client.c).
 */
module CapsuleStream {
  import opened Common
  import opened Capsules

  /** The capacities doubling from 4096 can reach below the 65536-byte limit. */
  predicate Capacity(n: nat) { n == 4096 || n == 8192 || n == 16384 || n == 32768 || n == 65536 }

  class Stream {
    var buf: array<Byte>
    var len: nat
    var v4: Option<Address>
    var v6: Option<Address>
    var closed: bool

    ghost predicate Valid()
      reads this
    {
      len <= buf.Length && (buf.Length == 0 || Capacity(buf.Length))
    }

    ghost function Buffered(): Bytes
      requires Valid()
      reads this, buf
    {
      buf[..len]
    }

    ghost function Known(): Learned
      reads this
    {
      Learned(v4, v6, closed)
    }

    ghost function View(): Parser
      requires Valid()
      reads this, buf
    {
      Parser(Known(), Buffered())
    }

    constructor ()
      ensures Valid() && fresh(buf) && View() == START
    {
      buf := new Byte[0];
      len, v4, v6, closed := 0, None, None, false;
    }

    /** The doubling loop: the smallest doubling that holds `need`. */
    method Grown(need: nat) returns (cap: nat)
      requires Valid() && buf.Length < need <= MAX_BUF
      ensures Capacity(cap) && need <= cap
      ensures buf.Length < cap && (cap > FIRST_CAP && cap > 2 * buf.Length ==> cap / 2 < need)
    {
      cap := if buf.Length != 0 then 2 * buf.Length else FIRST_CAP;
      while cap < need
        invariant Capacity(cap) && cap > buf.Length
        invariant cap > FIRST_CAP && cap > 2 * buf.Length ==> cap / 2 < need
        decreases MAX_BUF - cap
      {
        cap := cap * 2;
      }
    }

    /** stream_append_capsules: refused exactly when the buffer would exceed 65536 bytes. */
    method Append(chunk: Bytes) returns (ok: bool)
      requires Valid()
      modifies this, buf
      ensures Valid() && (buf == old(buf) || fresh(buf))
      ensures Known() == old(Known())
      ensures ok == (old(len) + |chunk| <= MAX_BUF)
      ensures Buffered() == if ok then old(Buffered()) + chunk else old(Buffered())
      ensures buf.Length <= MAX_BUF
    {
      if |chunk| == 0 {
        assert buf[..len] + chunk == buf[..len];
        return true;
      }
      var need := len + |chunk|;
      if need > MAX_BUF { return false; }
      Reserve(need);
      Store(buf, len, chunk);
      len := need;
      return true;
    }

    /** Make room for `need` bytes, keeping the contents. */
    method Reserve(need: nat)
      requires Valid() && need <= MAX_BUF
      modifies `buf
      ensures Valid() && need <= buf.Length && (buf == old(buf) || fresh(buf))
      ensures buf[..len] == old(buf[..len])
    {
      if need > buf.Length {
        var cap := Grown(need);
        var bigger := new Byte[cap];
        Copy(buf, len, bigger);
        buf := bigger;
      }
    }

    static method Store(to: array<Byte>, at: nat, chunk: Bytes)
      requires at + |chunk| <= to.Length
      modifies to
      ensures to[..at + |chunk|] == old(to[..at]) + chunk
    {
      var i := 0;
      while i < |chunk|
        invariant 0 <= i <= |chunk|
        invariant to[..at] == old(to[..at])
        invariant to[at..at + i] == chunk[..i]
      {
        to[at + i] := chunk[i];
        i := i + 1;
      }
      assert to[..at + |chunk|] == to[..at] + to[at..at + |chunk|];
    }

    static method Copy(from: array<Byte>, n: nat, to: array<Byte>)
      requires n <= from.Length && n <= to.Length && from != to
      modifies to
      ensures to[..n] == from[..n]
    {
      var i := 0;
      while i < n
        invariant 0 <= i <= n && to[..i] == from[..i]
      {
        to[i] := from[i];
        i := i + 1;
      }
    }

    /** The memmove after a capsule: drop the first `consumed` bytes in place. */
    method Discard(consumed: nat)
      requires Valid() && consumed <= len
      modifies buf, `len
      ensures Valid() && buf == old(buf)
      ensures Buffered() == old(Buffered())[consumed..]
    {
      ghost var was := buf[..];
      var n := len - consumed;
      var i := 0;
      while i < n
        invariant 0 <= i <= n
        invariant forall k :: 0 <= k < i ==> buf[k] == was[consumed + k]
        invariant forall k :: i <= k < buf.Length ==> buf[k] == was[k]
      {
        buf[i] := buf[consumed + i];
        i := i + 1;
      }
      len := n;
      assert buf[..n] == was[consumed..consumed + n];
      assert was[..consumed + n][consumed..] == was[consumed..consumed + n];
    }

    /** The ADDRESS_ASSIGN loop: the first address of each family is kept. */
    method AssignEntries(payload: Bytes)
      modifies `v4, `v6
      ensures Known() == AssignAll(old(Known()), payload)
    {
      var rest := payload;
      var bad := false;
      while rest != [] && !bad
        invariant AssignAll(Known(), rest) == AssignAll(old(Known()), payload) || bad
        invariant bad ==> Known() == AssignAll(old(Known()), payload)
        decreases |rest|, !bad
      {
        var e := ReadEntry(rest);
        if e.None? {
          bad := true;
        } else {
          if e.value.version == 4 && v4.None? {
            v4 := Some(Address(e.value.address, e.value.prefix));
          } else if e.value.version == 6 && v6.None? {
            v6 := Some(Address(e.value.address, e.value.prefix));
          }
          rest := rest[e.value.size..];
        }
      }
    }

    /** process_capsules. */
    method Process(valid: Bytes -> bool)
      requires Valid()
      modifies this, buf
      ensures Valid() && buf == old(buf)
      ensures var d := Drain(old(Known()), old(Buffered()), valid); Known() == d.learned && Buffered() == d.rest
    {
      while len > 0
        invariant Valid() && buf == old(buf)
        invariant Drain(Known(), Buffered(), valid) == Drain(old(Known()), old(Buffered()), valid)
        decreases len
      {
        var c := Decode(buf[..len]);
        if c.None? { return; }
        if c.value.kind == ADDRESS_ASSIGN {
          AssignEntries(c.value.payload);
        } else if c.value.kind == ROUTE_ADVERTISEMENT && !valid(c.value.payload) {
          closed := true;
          return;
        }
        Discard(c.value.size);
      }
    }

    /** One read of cli_connect_ip_on_body. */
    method Receive(chunk: Bytes, valid: Bytes -> bool) returns (ok: bool)
      requires Valid()
      modifies this, buf
      ensures Valid() && (buf == old(buf) || fresh(buf)) && buf.Length <= MAX_BUF && len <= buf.Length
      ensures ok == Feed(old(View()), chunk, valid).Parser?
      ensures View() == if ok then Feed(old(View()), chunk, valid) else old(View())
    {
      ok := Append(chunk);
      if ok { Process(valid); }
    }
  }
}

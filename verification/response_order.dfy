/**
 One HTTP response as a stream of tokens: header blocks, body octets, end of
 stream. The same token stream describes what the h2c backend delivered and
 what the HTTP/3 request accepted, so the relay can be compared against it.
 */
module ResponseOrder {
  import opened Common

  datatype Header = Header(name: string, value: string)
  type Block = seq<Header>

  datatype Token = Head(block: Block) | Octet(b: Byte) | Fin

  datatype Kind = Interim | Final | Trailers

  /** The value of the first `:status` field of a block. */
  function StatusOf(block: Block): Option<string> {
    if block == [] then None
    else if block[0].name == ":status" then Some(block[0].value)
    else StatusOf(block[1..])
  }

  function KindOf(block: Block): Kind {
    match StatusOf(block)
    case None => Trailers
    case Some(v) => if |v| > 0 && v[0] == '1' then Interim else Final
  }

  lemma {:induction false} StatusOfAppend(block: Block, h: Header)
    ensures StatusOf(block + [h]) ==
            if StatusOf(block).Some? then StatusOf(block)
            else if h.name == ":status" then Some(h.value) else None
  {
    if block == [] {
      assert block + [h] == [h];
    } else {
      assert (block + [h])[1..] == block[1..] + [h];
      StatusOfAppend(block[1..], h);
    }
  }

  /** Where a response stands after some tokens; `Broken` is absorbing.
      The order is that of section 8.1 of RFC 9113 and section 4.1 of RFC 9114:
      interim blocks, one final block, octets, optional trailers, end. */
  datatype Phase = AwaitFinal | Body | Trailed | Ended | Broken

  function Advance(ph: Phase, t: Token): Phase {
    match t
    case Head(b) =>
      (match KindOf(b)
       case Interim => if ph == AwaitFinal then AwaitFinal else Broken
       case Final => if ph == AwaitFinal then Body else Broken
       case Trailers => if ph == Body then Trailed else Broken)
    case Octet(_) => if ph == Body then Body else Broken
    case Fin => if ph == Body || ph == Trailed then Ended else Broken
  }

  function PhaseFrom(ph: Phase, ts: seq<Token>): Phase
    decreases ts
  {
    if ts == [] then ph else PhaseFrom(Advance(ph, ts[0]), ts[1..])
  }

  function PhaseOf(ts: seq<Token>): Phase { PhaseFrom(AwaitFinal, ts) }

  lemma {:induction false} PhaseSplit(ph: Phase, a: seq<Token>, b: seq<Token>)
    ensures PhaseFrom(ph, a + b) == PhaseFrom(PhaseFrom(ph, a), b)
    decreases a
  {
    if a == [] {
      assert a + b == b;
    } else {
      assert (a + b)[0] == a[0] && (a + b)[1..] == a[1..] + b;
      PhaseSplit(Advance(ph, a[0]), a[1..], b);
    }
  }

  lemma {:induction false} BrokenStays(ts: seq<Token>)
    ensures PhaseFrom(Broken, ts) == Broken
  {
    if ts != [] {
      BrokenStays(ts[1..]);
    }
  }

  /** Nothing may follow the end of a response. */
  lemma {:induction false} EndedIsLast(ts: seq<Token>)
    ensures PhaseFrom(Ended, ts) == if ts == [] then Ended else Broken
  {
    if ts != [] {
      BrokenStays(ts[1..]);
    }
  }

  /** A prefix of a correctly ordered response is correctly ordered. */
  lemma {:induction false} PrefixIsOrdered(a: seq<Token>, b: seq<Token>)
    requires a <= b
    requires PhaseOf(b) != Broken
    ensures PhaseOf(a) != Broken
    ensures PhaseOf(a) == Ended ==> a == b
  {
    assert b == a + b[|a|..];
    PhaseSplit(AwaitFinal, a, b[|a|..]);
    if PhaseOf(a) == Broken {
      BrokenStays(b[|a|..]);
    }
    if PhaseOf(a) == Ended {
      EndedIsLast(b[|a|..]);
    }
  }

  /** What the order means position by position: the end of stream is the last
      token, an octet has a final block before it, and no octet follows trailers. */
  lemma {:induction false} OrderedPositions(ts: seq<Token>, i: nat)
    requires PhaseOf(ts) != Broken
    requires i < |ts|
    ensures ts[i] == Fin ==> i == |ts| - 1
    ensures ts[i].Octet? ==> exists k :: 0 <= k < i && ts[k].Head? && KindOf(ts[k].block) == Final
    ensures ts[i].Octet? ==> forall k :: 0 <= k < i && ts[k].Head? ==> KindOf(ts[k].block) != Trailers
  {
    PrefixIsOrdered(ts[..i + 1], ts);
    PhaseSplit(AwaitFinal, ts[..i], [ts[i]]);
    assert ts[..i + 1] == ts[..i] + [ts[i]];
    assert PhaseFrom(PhaseOf(ts[..i]), [ts[i]]) == Advance(PhaseOf(ts[..i]), ts[i]);
    if ts[i].Octet? {
      BodyHasFinal(ts[..i]);
    }
  }

  lemma {:induction false} BodyHasFinal(ts: seq<Token>)
    requires PhaseOf(ts) == Body || PhaseOf(ts) == AwaitFinal
    ensures forall k :: 0 <= k < |ts| && ts[k].Head? ==> KindOf(ts[k].block) != Trailers
    ensures PhaseOf(ts) == Body ==> exists k :: 0 <= k < |ts| && ts[k].Head? && KindOf(ts[k].block) == Final
  {
    if ts != [] {
      var n := |ts| - 1;
      assert ts == ts[..n] + [ts[n]];
      PhaseSplit(AwaitFinal, ts[..n], [ts[n]]);
      assert PhaseFrom(PhaseOf(ts[..n]), [ts[n]]) == Advance(PhaseOf(ts[..n]), ts[n]);
      BodyHasFinal(ts[..n]);
      if PhaseOf(ts[..n]) == Body {
        var k :| 0 <= k < n && ts[..n][k].Head? && KindOf(ts[..n][k].block) == Final;
        assert ts[k] == ts[..n][k];
      }
    }
  }

  function Octets(bytes: seq<Byte>): seq<Token> {
    seq(|bytes|, i requires 0 <= i < |bytes| => Octet(bytes[i]))
  }

  lemma OctetsConcat(a: seq<Byte>, b: seq<Byte>)
    ensures Octets(a + b) == Octets(a) + Octets(b)
  {
  }

  lemma {:induction false} OctetsPhase(ph: Phase, bytes: seq<Byte>)
    ensures PhaseFrom(ph, Octets(bytes)) ==
            if bytes == [] then ph else if ph == Body then Body else Broken
    decreases bytes
  {
    if bytes != [] {
      assert Octets(bytes)[1..] == Octets(bytes[1..]);
      OctetsPhase(Advance(ph, Octet(bytes[0])), bytes[1..]);
    }
  }

  /** The body bytes carried by a token stream, in order. */
  function BodyOf(ts: seq<Token>): seq<Byte> {
    if ts == [] then []
    else (if ts[0].Octet? then [ts[0].b] else []) + BodyOf(ts[1..])
  }

  lemma {:induction false} BodyOfConcat(a: seq<Token>, b: seq<Token>)
    ensures BodyOf(a + b) == BodyOf(a) + BodyOf(b)
  {
    if a == [] {
      assert a + b == b;
    } else {
      assert (a + b)[0] == a[0] && (a + b)[1..] == a[1..] + b;
      BodyOfConcat(a[1..], b);
      Joined(if a[0].Octet? then [a[0].b] else [], BodyOf(a[1..]), BodyOf(b));
    }
  }

  lemma Joined(x: seq<Byte>, y: seq<Byte>, z: seq<Byte>)
    ensures x + (y + z) == (x + y) + z
  {
  }

  lemma {:induction false} BodyOfOctets(bytes: seq<Byte>)
    ensures BodyOf(Octets(bytes)) == bytes
  {
    if bytes != [] {
      assert Octets(bytes)[1..] == Octets(bytes[1..]);
      BodyOfOctets(bytes[1..]);
    }
  }
}

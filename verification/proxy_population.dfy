/**
 Population invariants of the proxy over every run: stream counts, limits,
 rotation groups, and the per-stream invariant of every stream in the list.
 */
module ProxyPopulation {
  import opened Common
  import opened ResponseOrder
  import opened Relay
  import opened RelayProofs
  import opened RelayInvariant
  import opened RelayCallbacks
  import opened ProxyState

  /** How many streams are attached to a connection. */
  function Attached(ss: seq<Stream>, cid: nat): nat {
    if ss == [] then 0 else (if ss[0].backend == Some(cid) then 1 else 0) + Attached(ss[1..], cid)
  }

  /** The streams of one rotation group, in list order. */
  function Members(ss: seq<Stream>, key: nat): seq<nat> {
    if ss == [] then [] else (if ss[0].key == key then [ss[0].id] else []) + Members(ss[1..], key)
  }

  lemma {:induction false} AttachedConcat(a: seq<Stream>, b: seq<Stream>, cid: nat)
    ensures Attached(a + b, cid) == Attached(a, cid) + Attached(b, cid)
  {
    if a == [] {
      assert a + b == b;
    } else {
      assert (a + b)[1..] == a[1..] + b;
      AttachedConcat(a[1..], b, cid);
    }
  }

  lemma {:induction false} MembersConcat(a: seq<Stream>, b: seq<Stream>, key: nat)
    ensures Members(a + b, key) == Members(a, key) + Members(b, key)
  {
    if a == [] {
      assert a + b == b;
    } else {
      assert (a + b)[0] == a[0] && (a + b)[1..] == a[1..] + b;
      MembersConcat(a[1..], b, key);
      Regroup(if a[0].key == key then [a[0].id] else [], Members(a[1..], key), Members(b, key));
    }
  }

  lemma Regroup(x: seq<nat>, y: seq<nat>, z: seq<nat>)
    ensures x + (y + z) == (x + y) + z
  {
  }

  function Hit(b: bool): nat { if b then 1 else 0 }

  lemma AttachedAt(ss: seq<Stream>, i: nat, cid: nat)
    requires i < |ss|
    ensures Attached(ss, cid) == Attached(ss[..i], cid) + Hit(ss[i].backend == Some(cid)) + Attached(ss[i + 1..], cid)
    ensures Attached(Remove(ss, i), cid) == Attached(ss, cid) - Hit(ss[i].backend == Some(cid))
  {
    assert ss == ss[..i] + ([ss[i]] + ss[i + 1..]);
    assert ([ss[i]] + ss[i + 1..])[1..] == ss[i + 1..];
    AttachedConcat(ss[..i], [ss[i]] + ss[i + 1..], cid);
    AttachedConcat(ss[..i], ss[i + 1..], cid);
  }

  lemma AttachedPut(ss: seq<Stream>, i: nat, s: Stream, cid: nat)
    requires i < |ss|
    ensures Attached(ss[i := s], cid) ==
            Attached(ss, cid) - Hit(ss[i].backend == Some(cid)) + Hit(s.backend == Some(cid))
  {
    AttachedAt(ss, i, cid);
    AttachedAt(ss[i := s], i, cid);
    assert ss[i := s][..i] == ss[..i] && ss[i := s][i + 1..] == ss[i + 1..];
  }

  lemma MembersAt(ss: seq<Stream>, i: nat, key: nat)
    requires i < |ss|
    ensures Members(ss, key) ==
            Members(ss[..i], key) + (if ss[i].key == key then [ss[i].id] else []) + Members(ss[i + 1..], key)
    ensures Members(Remove(ss, i), key) == Members(ss[..i], key) + Members(ss[i + 1..], key)
    ensures |Members(Remove(ss, i), key)| == |Members(ss, key)| - Hit(ss[i].key == key)
  {
    assert ss == ss[..i] + ([ss[i]] + ss[i + 1..]);
    assert ([ss[i]] + ss[i + 1..])[1..] == ss[i + 1..];
    MembersConcat(ss[..i], [ss[i]] + ss[i + 1..], key);
    MembersConcat(ss[..i], ss[i + 1..], key);
  }

  /** Same streams in the same order, whatever their records hold. */
  ghost predicate SameRoster(a: seq<Stream>, b: seq<Stream>) {
    |a| == |b| && forall i :: 0 <= i < |a| ==> a[i].id == b[i].id && a[i].key == b[i].key
  }

  lemma {:induction false} RosterMembers(a: seq<Stream>, b: seq<Stream>, key: nat)
    requires SameRoster(a, b)
    ensures Members(a, key) == Members(b, key)
  {
    if a != [] {
      assert a[0].id == b[0].id && a[0].key == b[0].key;
      assert SameRoster(a[1..], b[1..]) by {
        forall i | 0 <= i < |a| - 1
          ensures a[1..][i].id == b[1..][i].id && a[1..][i].key == b[1..][i].key
        {
          assert a[i + 1].id == b[i + 1].id;
        }
      }
      RosterMembers(a[1..], b[1..], key);
    }
  }

  // ---- the invariant, in three independent parts ----

  ghost predicate ListOk(p: State) {
    && (forall i, j :: 0 <= i < j < |p.streams| ==> p.streams[i].id != p.streams[j].id)
    && (forall i :: 0 <= i < |p.streams| ==> p.streams[i].id < p.nextStream)
  }

  /** Every connection counts exactly the streams attached to it, within both limits, and every
      attached stream's connection is listed. */
  ghost predicate ConnsOk(p: State) {
    && (forall i, j :: 0 <= i < j < |p.conns| ==> p.conns[i].id != p.conns[j].id)
    && (forall i :: 0 <= i < |p.conns| ==> p.conns[i].id < p.nextConn)
    && p.connCount == |p.conns| <= p.cfg.maxConns && p.cfg.maxStreams > 0
    && (forall i :: 0 <= i < |p.conns| ==> p.conns[i].count == Attached(p.streams, p.conns[i].id) <= p.cfg.maxStreams)
    && (forall i {:trigger Backed(p.conns, p.streams[i].backend)} :: 0 <= i < |p.streams| ==> Backed(p.conns, p.streams[i].backend))
  }

  ghost predicate Backed(cs: seq<Conn>, b: Option<nat>) {
    b.Some? ==> exists j :: 0 <= j < |cs| && cs[j].id == b.value
  }

  /** Rotation groups have distinct keys, count exactly their members, and are never empty. */
  ghost predicate GroupsOk(p: State) {
    && (forall i, j :: 0 <= i < j < |p.groups| ==> p.groups[i].key != p.groups[j].key)
    && (forall i :: 0 <= i < |p.groups| ==> p.groups[i].count == |Members(p.streams, p.groups[i].key)| > 0)
    && (forall i {:trigger HasGroup(p.groups, p.streams[i].key)} :: 0 <= i < |p.streams| ==> HasGroup(p.groups, p.streams[i].key))
  }

  ghost predicate HasGroup(gs: seq<Group>, key: nat) { exists j :: 0 <= j < |gs| && gs[j].key == key }

  ghost predicate StreamsOk(p: State) {
    forall i {:trigger StreamInv(p.streams[i], p.cfg.maxBuffer)} ::
      0 <= i < |p.streams| ==> StreamInv(p.streams[i], p.cfg.maxBuffer)
  }

  ghost predicate Pop(p: State) { ListOk(p) && ConnsOk(p) && GroupsOk(p) }

  ghost predicate Inv(p: State) { Pop(p) && StreamsOk(p) }

  lemma FoundConn(cs: seq<Conn>, j: nat)
    requires j < |cs|
    requires forall i, k :: 0 <= i < k < |cs| ==> cs[i].id != cs[k].id
    ensures FindConn(cs, cs[j].id) == j
  {
  }

  lemma {:induction false} AttachedSome(ss: seq<Stream>, i: nat)
    requires i < |ss| && ss[i].backend.Some?
    ensures Attached(ss, ss[i].backend.value) > 0
  {
    AttachedAt(ss, i, ss[i].backend.value);
  }

  // ---- replacing a record ----

  lemma PutConns(p: State, i: nat, s: Stream)
    requires ConnsOk(p) && i < |p.streams|
    requires s.backend == p.streams[i].backend || s.backend == None
    ensures ConnsOk(Put(p, i, s))
  {
    var q := Put(p, i, s);
    var b := p.streams[i].backend;
    forall j | 0 <= j < |q.conns|
      ensures q.conns[j].id == p.conns[j].id
      ensures q.conns[j].count == Attached(q.streams, q.conns[j].id) <= p.cfg.maxStreams
    {
      AttachedPut(p.streams, i, s, p.conns[j].id);
      FoundConn(p.conns, j);
      if b.Some? {
        AttachedSome(p.streams, i);
      }
    }
    forall k | 0 <= k < |q.streams|
      ensures Backed(q.conns, q.streams[k].backend)
    {
      assert Backed(p.conns, p.streams[k].backend);
      if q.streams[k].backend.Some? {
        var j :| 0 <= j < |p.conns| && p.conns[j].id == q.streams[k].backend.value;
        assert q.conns[j].id == p.conns[j].id;
      }
    }
  }

  lemma RosterGroups(p: State, q: State)
    requires GroupsOk(p) && SameRoster(p.streams, q.streams)
    requires |q.groups| == |p.groups|
    requires forall g :: 0 <= g < |p.groups| ==>
               q.groups[g].key == p.groups[g].key && q.groups[g].count == p.groups[g].count
    ensures GroupsOk(q)
  {
    forall g | 0 <= g < |q.groups|
      ensures q.groups[g].count == |Members(q.streams, q.groups[g].key)| > 0
    {
      RosterMembers(p.streams, q.streams, p.groups[g].key);
    }
    forall i | 0 <= i < |q.streams|
      ensures HasGroup(q.groups, q.streams[i].key)
    {
      assert HasGroup(p.groups, p.streams[i].key);
      var g :| 0 <= g < |p.groups| && p.groups[g].key == p.streams[i].key;
      assert q.groups[g].key == q.streams[i].key;
    }
  }

  lemma PutKeeps(p: State, i: nat, s: Stream)
    requires Pop(p) && i < |p.streams|
    requires s.id == p.streams[i].id && s.key == p.streams[i].key
    requires s.backend == p.streams[i].backend || s.backend == None
    ensures Pop(Put(p, i, s)) && SameRoster(p.streams, Put(p, i, s).streams)
  {
    PutConns(p, i, s);
    RosterGroups(p, Put(p, i, s));
  }

  lemma CursorKeeps(p: State, key: nat, cursor: Option<nat>)
    requires Pop(p)
    ensures Pop(SetCursor(p, key, cursor)) && SetCursor(p, key, cursor).streams == p.streams
    ensures SetCursor(p, key, cursor).cfg == p.cfg
  {
    RosterGroups(p, SetCursor(p, key, cursor));
  }

  // ---- creating and destroying ----

  lemma CreateKeeps(p: State, key: nat)
    requires Pop(p)
    ensures Pop(CreateStream(p, key))
  {
    CreateList(p, key);
    CreateConns(p, key);
    NewMembers(p, key);
    NewHasGroup(p, key);
    NewKeys(p, key);
  }

  lemma CreateList(p: State, key: nat)
    requires ListOk(p)
    ensures ListOk(CreateStream(p, key))
  {
    var q := CreateStream(p, key);
    assert forall i :: 0 < i < |q.streams| ==> q.streams[i] == p.streams[i - 1];
  }

  lemma CreateConns(p: State, key: nat)
    requires ConnsOk(p)
    ensures ConnsOk(CreateStream(p, key))
  {
    var q := CreateStream(p, key);
    assert q.streams[1..] == p.streams;
    forall i | 0 <= i < |q.streams|
      ensures Backed(q.conns, q.streams[i].backend)
    {
      if i > 0 {
        assert q.streams[i] == p.streams[i - 1];
      }
    }
  }

  lemma NewKeys(p: State, key: nat)
    requires GroupsOk(p)
    ensures var q := CreateStream(p, key); forall i, j :: 0 <= i < j < |q.groups| ==> q.groups[i].key != q.groups[j].key
  {
    var q := CreateStream(p, key);
    var g0 := FindGroup(p.groups, key);
    if g0 == |p.groups| {
      assert forall g :: 0 < g < |q.groups| ==> q.groups[g] == p.groups[g - 1];
    } else {
      assert forall g :: 0 <= g < |q.groups| ==> q.groups[g].key == p.groups[g].key;
    }
  }

  lemma NewHasGroup(p: State, key: nat)
    requires GroupsOk(p)
    ensures var q := CreateStream(p, key);
            forall i :: 0 <= i < |q.streams| ==> HasGroup(q.groups, q.streams[i].key)
  {
    var q := CreateStream(p, key);
    var g0 := FindGroup(p.groups, key);
    forall i | 0 <= i < |q.streams|
      ensures HasGroup(q.groups, q.streams[i].key)
    {
      if i == 0 {
        assert q.groups[if g0 == |p.groups| then 0 else g0].key == key;
      } else {
        assert q.streams[i] == p.streams[i - 1];
        assert HasGroup(p.groups, p.streams[i - 1].key);
        var g :| 0 <= g < |p.groups| && p.groups[g].key == p.streams[i - 1].key;
        assert q.groups[if g0 == |p.groups| then g + 1 else g].key == q.streams[i].key;
      }
    }
  }

  lemma NewMembers(p: State, key: nat)
    requires GroupsOk(p)
    ensures var q := CreateStream(p, key);
            forall g :: 0 <= g < |q.groups| ==> q.groups[g].count == |Members(q.streams, q.groups[g].key)| > 0
  {
    var q := CreateStream(p, key);
    assert q.streams[1..] == p.streams;
    var g0 := FindGroup(p.groups, key);
    if g0 == |p.groups| {
      NoMembers(p, key);
    }
    forall g | 0 <= g < |q.groups|
      ensures q.groups[g].count == |Members(q.streams, q.groups[g].key)| > 0
    {
      if g0 == |p.groups| && g > 0 {
        assert q.groups[g] == p.groups[g - 1];
      }
    }
  }

  lemma NoMembers(p: State, key: nat)
    requires GroupsOk(p) && FindGroup(p.groups, key) == |p.groups|
    ensures Members(p.streams, key) == []
  {
    forall i | 0 <= i < |p.streams|
      ensures p.streams[i].key != key
    {
      assert HasGroup(p.groups, p.streams[i].key);
    }
    NoneWithKey(p.streams, key);
  }

  lemma {:induction false} NoneWithKey(ss: seq<Stream>, key: nat)
    requires forall i :: 0 <= i < |ss| ==> ss[i].key != key
    ensures Members(ss, key) == []
  {
    if ss != [] {
      NoneWithKey(ss[1..], key);
    }
  }

  lemma DestroyConns(p: State, i: nat)
    requires ConnsOk(p) && i < |p.streams|
    ensures ConnsOk(DestroyStream(p, i))
  {
    var q := DestroyStream(p, i);
    var b := p.streams[i].backend;
    forall j | 0 <= j < |q.conns|
      ensures q.conns[j].id == p.conns[j].id
      ensures q.conns[j].count == Attached(q.streams, q.conns[j].id) <= p.cfg.maxStreams
    {
      AttachedAt(p.streams, i, p.conns[j].id);
      FoundConn(p.conns, j);
      if b.Some? {
        AttachedSome(p.streams, i);
      }
    }
    forall k | 0 <= k < |q.streams|
      ensures Backed(q.conns, q.streams[k].backend)
    {
      var k' := if k < i then k else k + 1;
      assert q.streams[k] == p.streams[k'];
      assert Backed(p.conns, p.streams[k'].backend);
      if q.streams[k].backend.Some? {
        var j :| 0 <= j < |p.conns| && p.conns[j].id == q.streams[k].backend.value;
        assert q.conns[j].id == p.conns[j].id;
      }
    }
  }

  /** Where a group of the old list sits after a member left group g0. */
  function Shifted(p: State, i: nat, g: nat): nat
    requires i < |p.streams|
  {
    var g0 := FindGroup(p.groups, p.streams[i].key);
    if g0 < |p.groups| && p.groups[g0].count <= 1 && g >= g0 then g + 1 else g
  }

  lemma LeftCounts(p: State, i: nat)
    requires GroupsOk(p) && i < |p.streams|
    ensures var q := DestroyStream(p, i);
            forall g :: 0 <= g < |q.groups| ==>
              && Shifted(p, i, g) < |p.groups| && q.groups[g].key == p.groups[Shifted(p, i, g)].key
              && q.groups[g].count == |Members(q.streams, q.groups[g].key)| > 0
  {
    var q := DestroyStream(p, i);
    assert HasGroup(p.groups, p.streams[i].key);
    var g0 := FindGroup(p.groups, p.streams[i].key);
    forall g | 0 <= g < |q.groups|
      ensures Shifted(p, i, g) < |p.groups| && q.groups[g].key == p.groups[Shifted(p, i, g)].key
      ensures q.groups[g].count == |Members(q.streams, q.groups[g].key)| > 0
    {
      var g' := Shifted(p, i, g);
      MembersAt(p.streams, i, p.groups[g'].key);
      assert g' != g0 ==> p.groups[g'].key != p.groups[g0].key;
    }
  }

  lemma LeftHasGroup(p: State, i: nat, k: nat)
    requires GroupsOk(p) && i < |p.streams| && k < |p.streams| && k != i
    ensures HasGroup(DestroyStream(p, i).groups, p.streams[k].key)
  {
    var q := DestroyStream(p, i);
    var key := p.streams[i].key;
    assert HasGroup(p.groups, key) && HasGroup(p.groups, p.streams[k].key);
    var g0 := FindGroup(p.groups, key);
    var g := FindGroup(p.groups, p.streams[k].key);
    if p.groups[g0].count > 1 {
      assert q.groups[g].key == p.streams[k].key;
    } else if g == g0 {
      TwoMembers(p.streams, i, k);
    } else {
      assert q.groups[if g > g0 then g - 1 else g] == p.groups[g];
    }
  }

  lemma TwoMembers(ss: seq<Stream>, i: nat, k: nat)
    requires i < |ss| && k < |ss| && k != i && ss[k].key == ss[i].key
    ensures |Members(ss, ss[i].key)| >= 2
  {
    MembersAt(ss, i, ss[i].key);
    MembersAt(Remove(ss, i), if k < i then k else k - 1, ss[i].key);
  }

  lemma LeftKeys(p: State, i: nat)
    requires GroupsOk(p) && i < |p.streams|
    ensures var q := DestroyStream(p, i); forall g, h :: 0 <= g < h < |q.groups| ==> q.groups[g].key != q.groups[h].key
  {
    hide Members, HasGroup, DestroyStream, FindGroup;
    LeftCounts(p, i);
    var q := DestroyStream(p, i);
    forall g, h | 0 <= g < h < |q.groups| ensures q.groups[g].key != q.groups[h].key {
      assert Shifted(p, i, g) < Shifted(p, i, h);
    }
  }

  lemma DestroyGroups(p: State, i: nat)
    requires GroupsOk(p) && i < |p.streams|
    ensures GroupsOk(DestroyStream(p, i))
  {
    hide Members, HasGroup, LeaveGroup, FindGroup;
    LeftCounts(p, i);
    LeftKeys(p, i);
    var q := DestroyStream(p, i);
    forall k | 0 <= k < |q.streams|
      ensures HasGroup(q.groups, q.streams[k].key)
    {
      LeftHasGroup(p, i, if k < i then k else k + 1);
    }
  }

  /** Destroying a stream keeps every count, and its group vanishes with its last member. */
  lemma DestroyKeeps(p: State, i: nat)
    requires Pop(p) && i < |p.streams|
    ensures Pop(DestroyStream(p, i))
  {
    DestroyConns(p, i);
    DestroyGroups(p, i);
    var q := DestroyStream(p, i);
    assert forall k :: 0 <= k < |q.streams| ==> q.streams[k] == p.streams[if k < i then k else k + 1];
  }

  // ---- backend connections ----

  lemma {:induction false} AttachedSame(a: seq<Stream>, b: seq<Stream>, cid: nat)
    requires |a| == |b|
    requires forall i :: 0 <= i < |a| ==> (a[i].backend == Some(cid) <==> b[i].backend == Some(cid))
    ensures Attached(a, cid) == Attached(b, cid)
  {
    if a != [] {
      assert a[0].backend == Some(cid) <==> b[0].backend == Some(cid);
      AttachedSame(a[1..], b[1..], cid);
    }
  }

  lemma {:induction false} AttachedNone(ss: seq<Stream>, cid: nat)
    requires forall i :: 0 <= i < |ss| ==> ss[i].backend != Some(cid)
    ensures Attached(ss, cid) == 0
  {
    if ss != [] {
      AttachedNone(ss[1..], cid);
    }
  }

  lemma OpenKeeps(p: State, now: nat)
    requires Pop(p) && p.connCount < p.cfg.maxConns
    ensures Pop(OpenBackend(p, now))
  {
    var q := OpenBackend(p, now);
    forall i | 0 <= i < |p.streams|
      ensures p.streams[i].backend != Some(p.nextConn)
      ensures Backed(q.conns, q.streams[i].backend)
    {
      assert Backed(p.conns, p.streams[i].backend);
      if p.streams[i].backend.Some? {
        var j :| 0 <= j < |p.conns| && p.conns[j].id == p.streams[i].backend.value;
        assert q.conns[j + 1] == p.conns[j];
      }
    }
    AttachedNone(p.streams, p.nextConn);
    assert forall j :: 0 < j < |q.conns| ==> q.conns[j] == p.conns[j - 1];
    RosterGroups(p, q);
  }

  function Attached0(p: State, c: nat): State
    requires |p.streams| > 0 && c < |p.conns|
  {
    p.(streams := p.streams[0 := p.streams[0].(backend := Some(p.conns[c].id))],
       conns := p.conns[c := p.conns[c].(count := p.conns[c].count + 1)])
  }

  lemma AttachKeeps(p: State, c: nat)
    requires Pop(p) && |p.streams| > 0 && c < |p.conns|
    requires p.streams[0].backend == None && p.conns[c].count < p.cfg.maxStreams
    ensures Pop(Attached0(p, c))
  {
    var q := Attached0(p, c);
    forall j | 0 <= j < |q.conns|
      ensures q.conns[j].id == p.conns[j].id
      ensures q.conns[j].count == Attached(q.streams, q.conns[j].id) <= p.cfg.maxStreams
    {
      AttachedPut(p.streams, 0, q.streams[0], p.conns[j].id);
    }
    forall k | 0 <= k < |q.streams|
      ensures Backed(q.conns, q.streams[k].backend)
    {
      if k == 0 {
        assert q.conns[c].id == p.conns[c].id;
      } else {
        assert Backed(p.conns, p.streams[k].backend);
        if q.streams[k].backend.Some? {
          var j :| 0 <= j < |p.conns| && p.conns[j].id == q.streams[k].backend.value;
          assert q.conns[j].id == p.conns[j].id;
        }
      }
    }
    RosterGroups(p, q);
  }

  /** The stream list after a connection is lost: nobody else moved. */
  ghost predicate Lost(a: seq<Stream>, b: seq<Stream>, cid: nat) {
    && SameRoster(a, b)
    && forall i :: 0 <= i < |a| ==> b[i].backend == if a[i].backend == Some(cid) then None else a[i].backend
  }

  lemma LoseShape(ss: seq<Stream>, cid: nat, gateway: seq<Reply>)
    ensures Lost(ss, LoseBackend(ss, cid, gateway), cid)
  {
  }

  lemma LoseCounts(p: State, q: State, cid: nat)
    requires ConnsOk(p) && FindConn(p.conns, cid) < |p.conns|
    requires Lost(p.streams, q.streams, cid)
    requires q.conns == Remove(p.conns, FindConn(p.conns, cid))
    ensures forall j :: 0 <= j < |q.conns| ==> q.conns[j].count == Attached(q.streams, q.conns[j].id)
  {
    var c := FindConn(p.conns, cid);
    forall j | 0 <= j < |q.conns|
      ensures q.conns[j].count == Attached(q.streams, q.conns[j].id)
    {
      var j' := if j < c then j else j + 1;
      assert q.conns[j] == p.conns[j'] && p.conns[j'].id != cid;
      AttachedSame(p.streams, q.streams, p.conns[j'].id);
    }
  }

  lemma LoseBacked(p: State, q: State, cid: nat, k: nat)
    requires ConnsOk(p) && FindConn(p.conns, cid) < |p.conns|
    requires Lost(p.streams, q.streams, cid) && k < |q.streams|
    requires q.conns == Remove(p.conns, FindConn(p.conns, cid))
    ensures Backed(q.conns, q.streams[k].backend)
  {
    var c := FindConn(p.conns, cid);
    assert Backed(p.conns, p.streams[k].backend);
    if q.streams[k].backend.Some? {
      var j :| 0 <= j < |p.conns| && p.conns[j].id == q.streams[k].backend.value;
      assert q.conns[if j < c then j else j - 1] == p.conns[j];
    }
  }

  lemma FewerConns(cs: seq<Conn>, c: nat, next: nat)
    requires c < |cs| && (forall i, j :: 0 <= i < j < |cs| ==> cs[i].id != cs[j].id)
    requires (forall i :: 0 <= i < |cs| ==> cs[i].id < next)
    ensures var ds := Remove(cs, c);
            |ds| == |cs| - 1 && (forall i, j :: 0 <= i < j < |ds| ==> ds[i].id != ds[j].id)
            && (forall i :: 0 <= i < |ds| ==> ds[i].id < next)
            && (forall i :: 0 <= i < |ds| ==> ds[i] == cs[if i < c then i else i + 1])
  {
  }

  lemma LoseConns(p: State, q: State, cid: nat)
    requires ConnsOk(p) && FindConn(p.conns, cid) < |p.conns|
    requires Lost(p.streams, q.streams, cid)
    requires q == p.(streams := q.streams, conns := Remove(p.conns, FindConn(p.conns, cid)), connCount := p.connCount - 1)
    ensures ConnsOk(q)
  {
    hide Attached, Backed, FindConn;
    FewerConns(p.conns, FindConn(p.conns, cid), p.nextConn);
    LoseCounts(p, q, cid);
    forall k | 0 <= k < |q.streams|
      ensures Backed(q.conns, q.streams[k].backend)
    {
      LoseBacked(p, q, cid, k);
    }
  }

  lemma LoseStreams(p: State, cid: nat, gateway: seq<Reply>, i: nat)
    requires i < |p.streams|
    requires StreamInv(p.streams[i], p.cfg.maxBuffer) || (p.streams[i].backend == Some(cid) && Failing(p.streams[i]))
    ensures StreamInv(LoseBackend(p.streams, cid, gateway)[i], p.cfg.maxBuffer)
  {
    var s := p.streams[i];
    if s.backend == Some(cid) {
      if StreamInv(s, p.cfg.maxBuffer) {
        FailingNow(s, p.cfg.maxBuffer);
      }
      BackendGoneKeeps(s, ReplyAt(gateway, i), p.cfg.maxBuffer);
    }
  }

  /** Losing a backend connection keeps the population, and answers or closes its streams. */
  lemma DestroyBackendKeeps(p: State, cid: nat, gateway: seq<Reply>)
    requires Pop(p)
    requires forall i :: 0 <= i < |p.streams| ==>
               StreamInv(p.streams[i], p.cfg.maxBuffer) || (p.streams[i].backend == Some(cid) && Failing(p.streams[i]))
    requires FindConn(p.conns, cid) == |p.conns| ==> StreamsOk(p)
    ensures Inv(DestroyBackend(p, cid, gateway))
    ensures SameRoster(p.streams, DestroyBackend(p, cid, gateway).streams)
  {
    var q := DestroyBackend(p, cid, gateway);
    if FindConn(p.conns, cid) < |p.conns| {
      LoseShape(p.streams, cid, gateway);
      LoseConns(p, q, cid);
      RosterGroups(p, q);
      forall i | 0 <= i < |q.streams|
        ensures StreamInv(q.streams[i], q.cfg.maxBuffer)
      {
        LoseStreams(p, cid, gateway, i);
      }
    }
  }

  lemma HasConn(p: State, i: nat)
    requires ConnsOk(p) && i < |p.streams| && p.streams[i].backend.Some?
    ensures FindConn(p.conns, p.streams[i].backend.value) < |p.conns|
  {
    assert Backed(p.conns, p.streams[i].backend);
  }

  /** A callback on one stream, and the loss of its connection if it fails, keep the invariant. */
  lemma FinishKeeps(p: State, i: nat, f: Flow, cid: nat, gateway: seq<Reply>)
    requires Inv(p) && i < |p.streams| && p.streams[i].backend == Some(cid)
    requires SameStream(p.streams[i], f) && Handled(f, p.cfg.maxBuffer)
    ensures Inv(Finish(p, i, f, cid, gateway)) && SameRoster(p.streams, Finish(p, i, f, cid, gateway).streams)
  {
    PutKeeps(p, i, f.s);
    var q := Put(p, i, f.s);
    if f.out == Fail {
      HasConn(q, i);
      DestroyBackendKeeps(q, cid, gateway);
    }
  }

  // ---- rounds ----

  /** A round or an eviction leaves the list and the groups' keys and counts alone. */
  ghost predicate SameShape(p: State, q: State) {
    && q.cfg == p.cfg && SameRoster(p.streams, q.streams) && |q.groups| == |p.groups|
    && forall g :: 0 <= g < |p.groups| ==> q.groups[g].key == p.groups[g].key && q.groups[g].count == p.groups[g].count
  }

  lemma ValveKeeps(s: Stream, limit: nat)
    requires StreamInv(s, limit)
    ensures StreamInv(SetBlocked(s, true), limit)
  {
    var t := SetBlocked(s, true);
    if s.life.fate == Relaying {
      WakeKeeps(s, limit);
    } else if s.life.fate == Closing && s.backend.Some? {
      SameAborted(s, t);
    }
  }

  lemma PutInv(p: State, i: nat, s: Stream)
    requires Inv(p) && i < |p.streams| && StreamInv(s, p.cfg.maxBuffer)
    requires s.id == p.streams[i].id && s.key == p.streams[i].key
    requires s.backend == p.streams[i].backend || s.backend == None
    ensures Inv(Put(p, i, s)) && SameShape(p, Put(p, i, s))
  {
    PutKeeps(p, i, s);
  }

  lemma CursorInv(p: State, key: nat, cursor: Option<nat>)
    requires Inv(p)
    ensures Inv(SetCursor(p, key, cursor)) && SameShape(p, SetCursor(p, key, cursor))
  {
    CursorKeeps(p, key, cursor);
  }

  lemma HoldInv(p: State, key: nat, i: nat)
    requires Inv(p) && i < |p.streams|
    ensures Inv(HoldAt(p, key, i)) && SameShape(p, HoldAt(p, key, i))
  {
    var s := SetBlocked(p.streams[i], true);
    ValveKeeps(p.streams[i], p.cfg.maxBuffer);
    PutInv(p, i, s);
    CursorInv(Put(p, i, s), key, Some(s.id));
  }

  lemma TurnInv(p: State, key: nat, i: nat, replies: seq<Reply>)
    requires Inv(p) && i < |p.streams|
    ensures Inv(TakeTurn(p, key, i, replies)) && SameShape(p, TakeTurn(p, key, i, replies))
  {
    var s := Turn(p.streams[i], replies);
    TurnKeeps(p.streams[i], replies, p.cfg.maxBuffer);
    FlushSame(p.streams[i], replies);
    PutInv(p, i, s);
    CursorInv(Put(p, i, s), key, IdAt(p.streams, NextMember(p.streams, key, i)));
  }

  lemma ShapeRefl(p: State)
    ensures SameShape(p, p)
  {
  }

  lemma ShapeTrans(p: State, q: State, r: State)
    requires SameShape(p, q) && SameShape(q, r)
    ensures SameShape(p, r)
  {
    forall g | 0 <= g < |p.groups|
      ensures r.groups[g].key == p.groups[g].key && r.groups[g].count == p.groups[g].count
    {
      assert q.groups[g].key == p.groups[g].key;
    }
    forall i | 0 <= i < |p.streams|
      ensures p.streams[i].id == r.streams[i].id && p.streams[i].key == r.streams[i].key
    {
      assert p.streams[i].id == q.streams[i].id;
    }
  }

  lemma {:induction false} RoundKeeps(p: State, key: nat, i: nat, remaining: nat, offers: seq<Offer>)
    requires Inv(p)
    ensures var q := RoundFrom(p, key, i, remaining, offers).0; Inv(q) && SameShape(p, q)
    decreases remaining, 1
  {
    hide Inv, SameShape, TakeTurn, HoldAt;
    ShapeRefl(p);
    if i < |p.streams| && remaining > 0 {
      if NextOffer(offers).unsent >= UNSENT_MAX {
        HoldInv(p, key, i);
      } else {
        TurnInv(p, key, i, NextOffer(offers).replies);
        RoundContinues(p, TakeTurn(p, key, i, NextOffer(offers).replies), key,
                       NextMember(p.streams, key, i), remaining - 1, Later(offers));
      }
    }
  }

  lemma RoundContinues(p: State, p1: State, key: nat, i: nat, remaining: nat, offers: seq<Offer>)
    requires Inv(p1) && SameShape(p, p1)
    ensures var q := RoundFrom(p1, key, i, remaining, offers).0; Inv(q) && SameShape(p, q)
    decreases remaining, 2
  {
    RoundKeeps(p1, key, i, remaining, offers);
    ShapeTrans(p, p1, RoundFrom(p1, key, i, remaining, offers).0);
  }

  lemma {:induction false} RoundsKeep(p: State, keys: seq<nat>, offers: seq<seq<Offer>>)
    requires Inv(p)
    ensures Inv(RunRounds(p, keys, offers)) && SameShape(p, RunRounds(p, keys, offers))
    decreases keys
  {
    if keys != [] {
      var os := if offers == [] then [] else offers[0];
      var g := FindGroup(p.groups, keys[0]);
      if g < |p.groups| {
        RoundKeeps(p, keys[0], StartAt(p, keys[0]), p.groups[g].count, os);
      }
      var p1 := RunRound(p, keys[0], os).0;
      RoundsKeep(p1, keys[1..], Later(offers));
      ShapeTrans(p, p1, RunRounds(p1, keys[1..], Later(offers)));
    }
  }

  // ---- idle eviction ----

  /** An idle connection has nobody attached, so evicting it changes no stream. */
  lemma {:induction false} EvictKeeps(p: State, ids: seq<nat>, cutoff: nat)
    requires Inv(p)
    ensures Inv(Evict(p, ids, cutoff)) && Evict(p, ids, cutoff).streams == p.streams
    ensures Evict(p, ids, cutoff).groups == p.groups
    decreases ids
  {
    if ids != [] {
      var c := FindConn(p.conns, ids[0]);
      if c < |p.conns| && Idle(p.conns[c], cutoff) {
        DestroyBackendKeeps(p, ids[0], []);
        forall i | 0 <= i < |p.streams|
          ensures p.streams[i].backend != Some(ids[0])
        {
          if p.streams[i].backend == Some(ids[0]) {
            AttachedSome(p.streams, i);
          }
        }
        assert DestroyBackend(p, ids[0], []).streams == p.streams;
        EvictKeeps(DestroyBackend(p, ids[0], []), ids[1..], cutoff);
      } else {
        EvictKeeps(p, ids[1..], cutoff);
      }
    }
  }

  // ---- one event, and every run ----

  lemma NewStreamInv(id: nat, key: nat, cid: nat, limit: nat)
    ensures StreamInv(NewStream(id, key, Some(cid)), limit)
  {
    var s := NewStream(id, key, Some(cid));
    assert Pending(s) == [];
  }

  lemma AttachInv(p: State, c: nat, submitted: bool, rest: seq<Stream>)
    requires Pop(p) && |p.streams| > 0 && c < |p.conns|
    requires p.streams[0] == NewStream(p.streams[0].id, p.streams[0].key, None) && p.conns[c].count < p.cfg.maxStreams
    requires p.streams[1..] == rest && forall i :: 0 <= i < |rest| ==> StreamInv(rest[i], p.cfg.maxBuffer)
    ensures Inv(Attach(p, c, submitted))
  {
    hide StreamInv, Attached, Members;
    var q := Attached0(p, c);
    AttachKeeps(p, c);
    NewStreamInv(p.streams[0].id, p.streams[0].key, p.conns[c].id, p.cfg.maxBuffer);
    assert forall i :: 0 < i < |q.streams| ==> q.streams[i] == rest[i - 1];
    if !submitted {
      DestroyKeeps(q, 0);
      assert Remove(q.streams, 0) == rest;
    }
  }

  lemma RequestKeeps(p: State, key: nat, dialed: bool, submitted: bool, now: nat)
    requires Inv(p)
    ensures Inv(HandleRequest(p, key, dialed, submitted, now))
  {
    CreateKeeps(p, key);
    var p1 := CreateStream(p, key);
    assert p1.streams[1..] == p.streams;
    var c := FreeConn(p1.conns, p1.cfg.maxStreams);
    if c < |p1.conns| {
      AttachInv(p1, c, submitted, p.streams);
    } else if p1.connCount < p1.cfg.maxConns && dialed {
      OpenKeeps(p1, now);
      AttachInv(OpenBackend(p1, now), 0, submitted, p.streams);
    } else {
      DestroyKeeps(p1, 0);
      assert Remove(p1.streams, 0) == p.streams;
    }
  }

  lemma CreditKeeps(p: State, cid: nat, n: nat)
    requires Inv(p)
    ensures Inv(Credit(p, cid, n))
    ensures Credit(p, cid, n).streams == p.streams
    ensures Credit(p, cid, n).cfg == p.cfg
    ensures Credit(p, cid, n).groups == p.groups
  {
    ConnFieldKeeps(p, Credit(p, cid, n));
  }

  lemma ConnFieldKeeps(p: State, q: State)
    requires Inv(p) && q == p.(conns := q.conns) && |q.conns| == |p.conns|
    requires forall j :: 0 <= j < |p.conns| ==> q.conns[j].id == p.conns[j].id && q.conns[j].count == p.conns[j].count
    ensures Inv(q)
  {
    forall k | 0 <= k < |q.streams|
      ensures Backed(q.conns, q.streams[k].backend)
    {
      assert Backed(p.conns, p.streams[k].backend);
      if q.streams[k].backend.Some? {
        var j :| 0 <= j < |p.conns| && p.conns[j].id == q.streams[k].backend.value;
        assert q.conns[j].id == p.conns[j].id;
      }
    }
    assert GroupsOk(q);
    assert StreamsOk(q);
  }

  lemma DataKeepsInv(p: State, cid: nat, sid: nat, data: seq<Byte>, credit: bool,
                     replies: seq<Reply>, gateway: seq<Reply>)
    requires Inv(p)
    ensures Inv(DataChunk(p, cid, sid, data, credit, replies, gateway))
  {
    var i := FindStream(p.streams, sid);
    if Owns(p, i, cid) && AdmitsData(p.streams[i]) {
      var s := p.streams[i];
      assert StreamInv(s, p.cfg.maxBuffer);
      OnChunkKeeps(s, data, credit, replies, p.cfg.maxBuffer);
      CallbacksSame(s, [], data, credit, p.cfg.maxBuffer, replies);
      var taken := Fits(s.buf, data, p.cfg.maxBuffer) && credit;
      CreditKeeps(p, cid, |data|);
      FinishKeeps(if taken then Credit(p, cid, |data|) else p, i,
                  OnChunk(s, data, p.cfg.maxBuffer, credit, replies), cid, gateway);
    }
  }

  lemma HeadersKeepInv(p: State, cid: nat, i: nat, fields: seq<Header>, end: bool, replies: seq<Reply>, gateway: seq<Reply>)
    requires Inv(p) && Owns(p, i, cid) && AdmitsHeaders(p.streams[i], end)
    ensures Inv(Finish(p, i, OnHeaders(p.streams[i], fields, end, replies), cid, gateway))
  {
    assert StreamInv(p.streams[i], p.cfg.maxBuffer);
    OnHeadersKeeps(p.streams[i], fields, end, replies, p.cfg.maxBuffer);
    CallbacksSame(p.streams[i], fields, [], end, p.cfg.maxBuffer, replies);
    FinishKeeps(p, i, OnHeaders(p.streams[i], fields, end, replies), cid, gateway);
  }

  lemma EndKeepsInv(p: State, cid: nat, i: nat, replies: seq<Reply>, gateway: seq<Reply>)
    requires Inv(p) && Owns(p, i, cid) && AdmitsData(p.streams[i])
    ensures Inv(Finish(p, i, OnDataEnd(p.streams[i], replies), cid, gateway))
  {
    assert StreamInv(p.streams[i], p.cfg.maxBuffer);
    OnDataEndKeeps(p.streams[i], replies, p.cfg.maxBuffer);
    CallbacksSame(p.streams[i], [], [], false, p.cfg.maxBuffer, replies);
    FinishKeeps(p, i, OnDataEnd(p.streams[i], replies), cid, gateway);
  }

  lemma CloseKeepsInv(p: State, cid: nat, i: nat, error: bool)
    requires Inv(p) && Owns(p, i, cid)
    ensures Inv(Put(p, i, OnStreamClose(p.streams[i], error)))
  {
    assert StreamInv(p.streams[i], p.cfg.maxBuffer);
    OnStreamCloseKeeps(p.streams[i], error, p.cfg.maxBuffer);
    PutInv(p, i, OnStreamClose(p.streams[i], error));
  }

  lemma DestroyKeepsInv(p: State, i: nat)
    requires Inv(p) && i < |p.streams|
    ensures Inv(DestroyStream(p, i))
  {
    DestroyKeeps(p, i);
    var q := DestroyStream(p, i);
    forall k | 0 <= k < |q.streams|
      ensures StreamInv(q.streams[k], q.cfg.maxBuffer)
    {
      assert StreamInv(p.streams[if k < i then k else k + 1], p.cfg.maxBuffer);
    }
  }

  lemma RunRoundKeeps(p: State, key: nat, offers: seq<Offer>)
    requires Inv(p)
    ensures Inv(RunRound(p, key, offers).0) && SameShape(p, RunRound(p, key, offers).0)
  {
    var g := FindGroup(p.groups, key);
    if g < |p.groups| {
      RoundKeeps(p, key, StartAt(p, key), p.groups[g].count, offers);
    }
  }

  lemma TickKeepsInv(p: State, now: nat, rounds: seq<seq<Offer>>)
    requires Inv(p)
    ensures Inv(Tick(p, now, rounds))
  {
    hide Inv, SameShape;
    RoundsKeep(p, Keys(p.groups), rounds);
    var p1 := RunRounds(p, Keys(p.groups), rounds);
    EvictKeeps(p1, ConnIds(p1.conns), if now > p.cfg.timeoutSec then now - p.cfg.timeoutSec else 0);
  }

  lemma LostKeeps(p: State, cid: nat, gateway: seq<Reply>)
    requires Inv(p)
    ensures Inv(DestroyBackend(p, cid, gateway))
  {
    DestroyBackendKeeps(p, cid, gateway);
  }

  lemma ActiveKeeps(p: State, cid: nat, now: nat)
    requires Inv(p)
    ensures Inv(Step(p, BackendActive(cid, now)))
  {
    ConnFieldKeeps(p, Step(p, BackendActive(cid, now)));
  }

  /** Every event keeps the whole invariant. */
  lemma StepKeeps(p: State, e: Event)
    requires Inv(p)
    ensures Inv(Step(p, e))
  {
    hide Inv, HandleRequest, DestroyBackend, DestroyStream, Finish, Flush, OnHeaders, OnChunk, AdmitsHeaders, AdmitsData;
    match e {
      case Request(key, dialed, submitted, now) => RequestKeeps(p, key, dialed, submitted, now);
      case Headers(cid, sid, fields, end, replies, gateway) =>
        var i := FindStream(p.streams, sid);
        if Owns(p, i, cid) && AdmitsHeaders(p.streams[i], end) {
          HeadersKeepInv(p, cid, i, fields, end, replies, gateway);
        }
      case Data(cid, sid, data, credit, replies, gateway) =>
        DataKeepsInv(p, cid, sid, data, credit, replies, gateway);
      case DataEnd(cid, sid, replies, gateway) =>
        var i := FindStream(p.streams, sid);
        if Owns(p, i, cid) && AdmitsData(p.streams[i]) {
          EndKeepsInv(p, cid, i, replies, gateway);
        }
      case StreamClose(cid, sid, error) =>
        var i := FindStream(p.streams, sid);
        if Owns(p, i, cid) {
          CloseKeepsInv(p, cid, i, error);
        }
      case BackendLost(cid, gateway) => LostKeeps(p, cid, gateway);
      case BackendActive(cid, now) => ActiveKeeps(p, cid, now);
      case Writable(sid, offers) =>
        var i := FindStream(p.streams, sid);
        if i < |p.streams| {
          RunRoundKeeps(p, p.streams[i].key, offers);
        }
      case RequestClose(sid) =>
        var i := FindStream(p.streams, sid);
        if i < |p.streams| {
          DestroyKeepsInv(p, i);
        }
      case TickAt(now, rounds) => TickKeepsInv(p, now, rounds);
    }
  }

  lemma InitInv(cfg: Config)
    ensures Inv(Init(cfg))
  {
  }

  lemma {:induction false} RunFromKeeps(p: State, es: seq<Event>)
    requires Inv(p)
    ensures Inv(Run(p, es))
    decreases es
  {
    hide Inv, Step;
    if es != [] {
      StepKeeps(p, es[0]);
      RunFromKeeps(Step(p, es[0]), es[1..]);
    }
  }

  /** After every run from the initial state, for every configuration and every transport. */
  lemma RunKeeps(cfg: Config, es: seq<Event>)
    ensures Inv(Run(Init(cfg), es))
  {
    InitInv(cfg);
    RunFromKeeps(Init(cfg), es);
  }
}

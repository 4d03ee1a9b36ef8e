/**
 The process clock of src/mqvpn_clock.c: every reading is the boot clock plus
 one offset that the threads of the process agree on without a lock, and the
 clock xquic's engines share.
 */
module Clock {
  const WORD := 0x1_0000_0000_0000_0000

  type U64 = x: int | 0 <= x < WORD

  function Plus(a: U64, b: U64): U64 { (a + b) % WORD }
  function Minus(a: U64, b: U64): U64 { (a - b) % WORD }

  // ---- the threads ----

  /** Where a thread is inside mqvpn_clock_us. */
  datatype Point =
    | Outside
    | GotBoot(boot: U64)
    | MustInit(boot: U64)
    | Computed(boot: U64, mine: U64)
    | HasOffset(boot: U64, off: U64, from: nat)

  /** A finished reading: its thread, the boot time it read, the offset it added, and the result;
      `from` is the step of the run in which the thread got that offset. */
  datatype Reading = Reading(t: nat, boot: U64, off: U64, value: U64, from: nat)

  /** `offset` is the shared word, 0 until set. History: the steps taken, the readings, and whether a
      thread ever computed the offset zero. */
  datatype World = World(offset: U64, at: map<nat, Point>, taken: nat, readings: seq<Reading>, zero: bool)

  const START := World(0, map[], 0, [], false)

  /** One atomic step of one thread; the clocks it reads are arguments. */
  datatype Step =
    | ReadBoot(t: nat, boot: U64)
    | Load(t: nat)
    | ReadWall(t: nat, wall: U64)
    | CompareAndSwap(t: nat)
    | Return(t: nat)

  function At(w: World, t: nat): Point { if t in w.at then w.at[t] else Outside }

  function Put(w: World, t: nat, p: Point): World { w.(at := w.at[t := p]) }

  function Do(w: World, s: Step): World { Take(w, s).(taken := w.taken + 1) }

  function Take(w: World, s: Step): World {
    match s
    case ReadBoot(t, boot) => if At(w, t).Outside? then Put(w, t, GotBoot(boot)) else w
    case Load(t) =>
      (match At(w, t)
       case GotBoot(boot) => Put(w, t, if w.offset == 0 then MustInit(boot) else HasOffset(boot, w.offset, w.taken))
       case _ => w)
    case ReadWall(t, wall) =>
      (match At(w, t)
       case MustInit(boot) => Put(w, t, Computed(boot, Minus(wall, boot))).(zero := w.zero || Minus(wall, boot) == 0)
       case _ => w)
    case CompareAndSwap(t) =>
      (match At(w, t)
       case Computed(boot, mine) =>
         if w.offset == 0 then Put(w, t, HasOffset(boot, mine, w.taken)).(offset := mine)
         else Put(w, t, HasOffset(boot, w.offset, w.taken))
       case _ => w)
    case Return(t) =>
      (match At(w, t)
       case HasOffset(boot, off, from) =>
         Put(w, t, Outside).(readings := w.readings + [Reading(t, boot, off, Plus(boot, off), from)])
       case _ => w)
  }

  function Run(w: World, steps: seq<Step>): World
    decreases steps
  {
    if steps == [] then w else Run(Do(w, steps[0]), steps[1..])
  }

  // ---- what every interleaving keeps ----

  predicate Agrees(w: World, off: U64) { off == w.offset || (off == 0 && w.zero) }

  predicate PointOk(w: World, p: Point) {
    match p
    case HasOffset(_, off, _) => Agrees(w, off) && (off == 0 ==> w.zero)
    case Computed(_, mine) => mine == 0 ==> w.zero
    case _ => true
  }

  predicate ReadingOk(w: World, r: Reading) {
    r.value == Plus(r.boot, r.off) && Agrees(w, r.off) && (r.off == 0 ==> w.zero)
  }

  ghost predicate Inv(w: World) {
    && (forall t {:trigger At(w, t)} :: PointOk(w, At(w, t)))
    && (forall i {:trigger w.readings[i]} :: 0 <= i < |w.readings| ==> ReadingOk(w, w.readings[i]))
  }

  lemma DoKeeps(w: World, s: Step)
    requires Inv(w)
    ensures Inv(Do(w, s))
    ensures w.offset != 0 ==> Do(w, s).offset == w.offset
    ensures w.zero ==> Do(w, s).zero
    ensures w.readings <= Do(w, s).readings
  {
    var w' := Do(w, s);
    assert PointOk(w, At(w, s.t));
    forall t: nat {:trigger At(w', t)} ensures PointOk(w', At(w', t)) {
      if t != s.t { assert At(w', t) == At(w, t); }
    }
    forall i | 0 <= i < |w'.readings| ensures ReadingOk(w', w'.readings[i]) {
      if i < |w.readings| { assert w'.readings[i] == w.readings[i]; }
    }
  }

  lemma {:induction false} RunKeeps(w: World, steps: seq<Step>)
    requires Inv(w)
    ensures Inv(Run(w, steps))
    ensures w.offset != 0 ==> Run(w, steps).offset == w.offset
    ensures w.zero ==> Run(w, steps).zero
    ensures w.readings <= Run(w, steps).readings
    decreases steps
  {
    if steps != [] {
      DoKeeps(w, steps[0]);
      RunKeeps(Do(w, steps[0]), steps[1..]);
    }
  }

  /** Once set, the shared offset never changes, and every reading of the process, of any thread, used
      it; a reading used zero instead only if some thread computed zero. */
  lemma OneOffset(steps: seq<Step>, i: nat)
    requires i < |Run(START, steps).readings|
    ensures var w := Run(START, steps); var r := w.readings[i];
            && r.value == Plus(r.boot, r.off)
            && (r.off == w.offset || (r.off == 0 && w.zero))
            && (!w.zero ==> r.off == w.offset != 0)
  {
    RunKeeps(START, steps);
    assert ReadingOk(Run(START, steps), Run(START, steps).readings[i]);
  }

  /** If no thread computes a zero offset, any two readings share one offset: they differ by exactly
      what the boot clock advanced, so they are in the boot clock's order as long as neither sum wraps.
      Later steps of the wall clock do not show. */
  lemma OneClock(steps: seq<Step>, i: nat, j: nat)
    requires var w := Run(START, steps); !w.zero && i < |w.readings| && j < |w.readings|
    ensures var w := Run(START, steps); var a, b := w.readings[i], w.readings[j];
            && a.off == b.off
            && Minus(b.value, a.value) == Minus(b.boot, a.boot)
            && (a.boot + a.off < WORD && b.boot + b.off < WORD && a.boot <= b.boot ==> a.value <= b.value)
  {
    OneOffset(steps, i);
    OneOffset(steps, j);
    var w := Run(START, steps);
    Differences(w.readings[i].boot, w.readings[j].boot, w.offset);
  }

  // ---- where an offset comes from ----

  /** In step k some thread read the wall clock, having read the boot clock before, and off is the
      difference. */
  ghost predicate Computes(steps: seq<Step>, k: nat, off: U64)
    requires k < |steps|
  {
    && steps[k].ReadWall? && At(Run(START, steps[..k]), steps[k].t).MustInit?
    && off == Minus(steps[k].wall, At(Run(START, steps[..k]), steps[k].t).boot)
  }

  ghost predicate Derived(steps: seq<Step>, off: U64) {
    exists k {:trigger Computes(steps, k, off)} :: 0 <= k < |steps| && Computes(steps, k, off)
  }

  ghost predicate PointDerived(steps: seq<Step>, p: Point) {
    (p.Computed? ==> Derived(steps, p.mine)) && (p.HasOffset? ==> Derived(steps, p.off))
  }

  ghost predicate AllDerived(steps: seq<Step>) {
    var w := Run(START, steps);
    && (w.offset != 0 ==> Derived(steps, w.offset))
    && (forall t {:trigger At(w, t)} :: PointDerived(steps, At(w, t)))
    && (forall i {:trigger w.readings[i]} :: 0 <= i < |w.readings| ==> Derived(steps, w.readings[i].off))
  }

  lemma DerivedStays(steps: seq<Step>, s: Step, off: U64)
    requires Derived(steps, off)
    ensures Derived(steps + [s], off)
  {
    hide Run;
    var k :| 0 <= k < |steps| && Computes(steps, k, off);
    assert (steps + [s])[..k] == steps[..k] && (steps + [s])[k] == steps[k];
    assert Computes(steps + [s], k, off);
  }

  lemma DerivedNow(steps: seq<Step>, s: Step)
    requires s.ReadWall? && At(Run(START, steps), s.t).MustInit?
    ensures Derived(steps + [s], Minus(s.wall, At(Run(START, steps), s.t).boot))
  {
    hide Run;
    var k := |steps|;
    assert (steps + [s])[..k] == steps && (steps + [s])[k] == s;
    assert Computes(steps + [s], k, Minus(s.wall, At(Run(START, steps), s.t).boot));
  }

  lemma DerivedStep(steps: seq<Step>, s: Step)
    requires AllDerived(steps)
    ensures AllDerived(steps + [s])
  {
    hide Run, Derived;
    var w := Run(START, steps);
    var v := Run(START, steps + [s]);
    RunSnoc(START, steps, s);
    if s.ReadWall? && At(w, s.t).MustInit? { DerivedNow(steps, s); }
    assert PointDerived(steps, At(w, s.t));
    forall off: U64 | Derived(steps, off) ensures Derived(steps + [s], off) { DerivedStays(steps, s, off); }
    forall t: nat {:trigger At(v, t)} ensures PointDerived(steps + [s], At(v, t)) {
      if t != s.t { assert At(v, t) == At(w, t) && PointDerived(steps, At(w, t)); }
    }
    forall i | 0 <= i < |v.readings| ensures Derived(steps + [s], v.readings[i].off) {
      assert i < |w.readings| ==> v.readings[i] == w.readings[i] && Derived(steps, w.readings[i].off);
    }
  }

  lemma {:induction false} RunDerived(steps: seq<Step>)
    ensures AllDerived(steps)
    decreases |steps|
  {
    if steps != [] {
      var n := |steps| - 1;
      RunDerived(steps[..n]);
      DerivedStep(steps[..n], steps[n]);
      assert steps == steps[..n] + [steps[n]];
    }
  }

  /** Every reading adds to its boot time the amount by which the wall clock was ahead of the boot clock
      when some thread of the process compared the two; so the thread that set the offset reads wall
      time. */
  lemma ReadsWallTime(steps: seq<Step>, i: nat)
    requires i < |Run(START, steps).readings|
    ensures var r := Run(START, steps).readings[i];
            exists k {:trigger Computes(steps, k, r.off)} ::
              && 0 <= k < |steps| && Computes(steps, k, r.off)
              && Plus(At(Run(START, steps[..k]), steps[k].t).boot, r.off) == steps[k].wall
  {
    hide Run;
    RunDerived(steps);
    var r := Run(START, steps).readings[i];
    assert Derived(steps, r.off);
    var k :| 0 <= k < |steps| && Computes(steps, k, r.off);
    BackToWall(At(Run(START, steps[..k]), steps[k].t).boot, steps[k].wall);
  }

  lemma BackToWall(boot: U64, wall: U64)
    ensures Plus(boot, Minus(wall, boot)) == wall
  {
    assert Minus(wall, boot) == wall - boot || Minus(wall, boot) == wall - boot + WORD;
  }

  // ---- who uses the offset zero ----

  /** The step publishes a computed zero while no offset is set: the word stays 0, and the thread goes
      on with an offset no other thread can see. */
  predicate PublishesZero(w: World, s: Step) {
    s.CompareAndSwap? && At(w, s.t).Computed? && At(w, s.t).mine == 0 && w.offset == 0
  }

  /** The offset was got by the thread in step `from`, and is zero exactly if that step published a zero. */
  ghost predicate GotAt(steps: seq<Step>, t: nat, off: U64, from: nat) {
    && from < |steps| && steps[from].t == t
    && (off == 0 <==> PublishesZero(Run(START, steps[..from]), steps[from]))
  }

  ghost predicate PointGot(steps: seq<Step>, t: nat, p: Point) { p.HasOffset? ==> GotAt(steps, t, p.off, p.from) }

  ghost predicate Traced(steps: seq<Step>) {
    var w := Run(START, steps);
    && w.taken == |steps|
    && (forall t {:trigger At(w, t)} :: PointGot(steps, t, At(w, t)))
    && (forall i {:trigger w.readings[i]} :: 0 <= i < |w.readings| ==>
          GotAt(steps, w.readings[i].t, w.readings[i].off, w.readings[i].from))
  }

  lemma GotStays(steps: seq<Step>, s: Step, t: nat, off: U64, from: nat)
    requires GotAt(steps, t, off, from)
    ensures GotAt(steps + [s], t, off, from)
  {
    assert (steps + [s])[..from] == steps[..from];
  }

  /** The step that gives a thread its offset. */
  lemma GotNow(steps: seq<Step>, s: Step)
    requires Run(START, steps).taken == |steps|
    ensures var p := At(Do(Run(START, steps), s), s.t);
            p.HasOffset? ==> p == At(Run(START, steps), s.t) || GotAt(steps + [s], s.t, p.off, p.from)
  {
    assert (steps + [s])[..|steps|] == steps && (steps + [s])[|steps|] == s;
  }

  lemma RunSnoc(w: World, steps: seq<Step>, s: Step)
    ensures Run(w, steps + [s]) == Do(Run(w, steps), s)
  {
    RunSplit(w, steps, [s]);
    assert [s][1..] == [];
    assert Run(Do(Run(w, steps), s), []) == Do(Run(w, steps), s);
  }

  lemma TracedStep(steps: seq<Step>, s: Step)
    requires Traced(steps)
    ensures Traced(steps + [s])
  {
    hide Run, GotAt;
    var w := Run(START, steps);
    var v := Run(START, steps + [s]);
    RunSnoc(START, steps, s);
    GotNow(steps, s);
    forall t: nat {:trigger At(v, t)} ensures PointGot(steps + [s], t, At(v, t)) {
      assert PointGot(steps, t, At(w, t));
      if At(w, t).HasOffset? { GotStays(steps, s, t, At(w, t).off, At(w, t).from); }
    }
    forall i | 0 <= i < |v.readings|
      ensures GotAt(steps + [s], v.readings[i].t, v.readings[i].off, v.readings[i].from)
    {
      assert PointGot(steps, s.t, At(w, s.t));
      assert i < |w.readings| ==> v.readings[i] == w.readings[i];
      GotStays(steps, s, v.readings[i].t, v.readings[i].off, v.readings[i].from);
    }
  }

  lemma {:induction false} RunTraced(steps: seq<Step>)
    ensures Traced(steps)
    decreases |steps|
  {
    if steps != [] {
      var n := |steps| - 1;
      RunTraced(steps[..n]);
      TracedStep(steps[..n], steps[n]);
      assert steps == steps[..n] + [steps[n]];
    }
  }

  /** A reading used the offset zero if and only if the step that gave its thread the offset published
      a zero: a compare-and-swap of a computed zero while the shared word was still 0. */
  lemma ZeroExactly(steps: seq<Step>, i: nat)
    requires i < |Run(START, steps).readings|
    ensures var r := Run(START, steps).readings[i];
            && r.from < |steps| && steps[r.from].t == r.t
            && (r.off == 0 <==> PublishesZero(Run(START, steps[..r.from]), steps[r.from]))
  {
    RunTraced(steps);
    var r := Run(START, steps).readings[i];
    assert GotAt(steps, r.t, r.off, r.from);
  }

  /** Two readings are on different clocks if and only if exactly one of their threads published a zero
      for it; every other reading of the process is on the one shared offset. */
  lemma PartExactly(steps: seq<Step>, i: nat, j: nat)
    requires var w := Run(START, steps); i < |w.readings| && j < |w.readings|
    ensures var w := Run(START, steps); var a, b := w.readings[i], w.readings[j];
            && a.from < |steps| && b.from < |steps|
            && var lone := PublishesZero(Run(START, steps[..a.from]), steps[a.from]);
               var lone' := PublishesZero(Run(START, steps[..b.from]), steps[b.from]);
               a.off != b.off <==> lone != lone'
  {
    OneOffset(steps, i);
    OneOffset(steps, j);
    ZeroExactly(steps, i);
    ZeroExactly(steps, j);
  }

  lemma Differences(a: U64, b: U64, off: U64)
    ensures Minus(Plus(b, off), Plus(a, off)) == Minus(b, a)
  {
    var x, y := Plus(a, off), Plus(b, off);
    assert x == a + off || x == a + off - WORD;
    assert y == b + off || y == b + off - WORD;
  }

  /** Readings already made stay what they were, and later ones join them on the same clock, even when
      the wall clock is set in between. */
  lemma LaterReadingsAgree(before: seq<Step>, after: seq<Step>, i: nat, j: nat)
    requires var w := Run(START, before); var v := Run(w, after);
             !v.zero && i < |w.readings| && j < |v.readings|
    ensures var w := Run(START, before); var v := Run(w, after);
            i < |v.readings| && v.readings[i] == w.readings[i] && v.readings[j].off == w.readings[i].off == w.offset
  {
    RunKeeps(START, before);
    var w := Run(START, before);
    RunKeeps(w, after);
    OneOffset(before, i);
    assert ReadingOk(Run(w, after), Run(w, after).readings[j]);
  }

  /** Two threads that have each computed an offset, one of them zero, when none is set yet. */
  lemma SwapsPart(w: World)
    requires At(w, 0) == Computed(5, 0) && At(w, 1) == Computed(6, 3) && w.offset == 0 && w.readings == []
    ensures Run(w, [CompareAndSwap(0), CompareAndSwap(1), Return(0), Return(1)]).readings
         == [Reading(0, 5, 0, 5, w.taken), Reading(1, 6, 3, 9, w.taken + 1)]
  {
    hide Run, Do, At;
    SwapBoth(w);
    var w2 := Do(Do(w, CompareAndSwap(0)), CompareAndSwap(1));
    ReturnBoth(w2, w.taken);
    FourSteps(w, CompareAndSwap(0), CompareAndSwap(1), Return(0), Return(1));
  }

  lemma SwapBoth(w: World)
    requires At(w, 0) == Computed(5, 0) && At(w, 1) == Computed(6, 3) && w.offset == 0 && w.readings == []
    ensures var v := Do(Do(w, CompareAndSwap(0)), CompareAndSwap(1));
            At(v, 0) == HasOffset(5, 0, w.taken) && At(v, 1) == HasOffset(6, 3, w.taken + 1) && v.readings == []
  {
  }

  lemma ReturnBoth(w: World, k: nat)
    requires At(w, 0) == HasOffset(5, 0, k) && At(w, 1) == HasOffset(6, 3, k + 1) && w.readings == []
    ensures Do(Do(w, Return(0)), Return(1)).readings == [Reading(0, 5, 0, 5, k), Reading(1, 6, 3, 9, k + 1)]
  {
    var v := Do(w, Return(0));
    assert At(v, 1) == HasOffset(6, 3, k + 1) && v.readings == [Reading(0, 5, 0, 5, k)];
  }

  lemma FourSteps(w: World, a: Step, b: Step, c: Step, d: Step)
    ensures Run(w, [a, b, c, d]) == Do(Do(Do(Do(w, a), b), c), d)
  {
    hide Run, Do;
    Unroll(w, a, [b, c, d]);
    Unroll(Do(w, a), b, [c, d]);
    Unroll(Do(Do(w, a), b), c, [d]);
    Unroll(Do(Do(Do(w, a), b), c), d, []);
    assert [a] + [b, c, d] == [a, b, c, d] && [b] + [c, d] == [b, c, d] && [c] + [d] == [c, d] && [d] + [] == [d];
    Done(Do(Do(Do(Do(w, a), b), c), d));
  }

  lemma Done(w: World)
    ensures Run(w, []) == w
  {
  }

  /** One thread up to its computed offset. */
  lemma ComputesOffset(w: World, t: nat, boot: U64, wall: U64)
    requires At(w, t).Outside? && w.offset == 0
    ensures var v := Run(w, [ReadBoot(t, boot), Load(t), ReadWall(t, wall)]);
            v == w.(at := v.at, taken := w.taken + 3, zero := w.zero || Minus(wall, boot) == 0)
            && At(v, t) == Computed(boot, Minus(wall, boot)) && (forall u: nat {:trigger At(v, u)} :: u != t ==> At(v, u) == At(w, u))
  {
    var w1 := Do(w, ReadBoot(t, boot));
    var w2 := Do(w1, Load(t));
    Unroll(w, ReadBoot(t, boot), [Load(t), ReadWall(t, wall)]);
    Unroll(w1, Load(t), [ReadWall(t, wall)]);
    Unroll(w2, ReadWall(t, wall), []);
  }

  /** With a zero offset threads can part: this interleaving gives two readings on different clocks. */
  lemma ZeroParts()
    ensures Run(START, [ReadBoot(0, 5), Load(0), ReadWall(0, 5)] + ([ReadBoot(1, 6), Load(1), ReadWall(1, 9)]
                       + [CompareAndSwap(0), CompareAndSwap(1), Return(0), Return(1)])).readings
         == [Reading(0, 5, 0, 5, 6), Reading(1, 6, 3, 9, 7)]
  {
    hide Run, Do;
    var a, b := [ReadBoot(0, 5), Load(0), ReadWall(0, 5)], [ReadBoot(1, 6), Load(1), ReadWall(1, 9)];
    var c := [CompareAndSwap(0), CompareAndSwap(1), Return(0), Return(1)];
    var w := Run(START, a);
    ComputesOffset(START, 0, 5, 5);
    ComputesOffset(w, 1, 6, 9);
    var v := Run(w, b);
    assert At(v, 0) == At(w, 0);
    SwapsPart(v);
    RunSplit(START, a, b + c);
    RunSplit(w, b, c);
  }

  lemma {:induction false} RunSplit(w: World, a: seq<Step>, b: seq<Step>)
    ensures Run(w, a + b) == Run(Run(w, a), b)
    decreases a
  {
    if a == [] {
      assert a + b == b;
    } else {
      assert (a + b)[0] == a[0] && (a + b)[1..] == a[1..] + b;
      RunSplit(Do(w, a[0]), a[1..], b);
    }
  }

  lemma Unroll(w: World, s: Step, rest: seq<Step>)
    ensures Run(w, [s] + rest) == Run(Do(w, s), rest)
  {
    assert ([s] + rest)[0] == s && ([s] + rest)[1..] == rest;
  }

  // ---- the clock the engines share ----

  /** A clock function and its context; 0 and 0 for the default. */
  datatype Source = Source(fn: nat, ctx: nat)

  const DEFAULT := Source(0, 0)

  /** mqvpn_xqc_clock_acquire and release, as values: the source in force and how many engines run on it. */
  datatype Shared = Shared(source: Source, users: nat)

  datatype Use = Acquire(source: Source) | Release

  function Used(s: Shared, u: Use): Shared {
    match u
    case Acquire(src) => if s.users > 0 && src != s.source then s else Shared(src, s.users + 1)
    case Release =>
      if s.users == 0 then s
      else if s.users == 1 then Shared(DEFAULT, 0)
      else s.(users := s.users - 1)
  }

  function UsedAll(s: Shared, us: seq<Use>): Shared
    decreases us
  {
    if us == [] then s else UsedAll(Used(s, us[0]), us[1..])
  }

  /** Some engine is running after each of these uses. */
  predicate Busy(s: Shared, us: seq<Use>)
    decreases us
  {
    s.users > 0 && (us == [] || Busy(Used(s, us[0]), us[1..]))
  }

  /** The shared clock never changes while it has users, and with none it is the default. */
  lemma {:induction false} SourceFixedWhileUsed(s: Shared, us: seq<Use>)
    requires s.users == 0 ==> s.source == DEFAULT
    ensures Busy(s, us) ==> UsedAll(s, us).source == s.source
    ensures UsedAll(s, us).users == 0 ==> UsedAll(s, us).source == DEFAULT
    decreases us
  {
    if us != [] {
      SourceFixedWhileUsed(Used(s, us[0]), us[1..]);
      if Busy(s, us) { assert Busy(Used(s, us[0]), us[1..]); }
    }
  }

  class XquicClock {
    var source: Source
    var users: nat

    function View(): Shared
      reads this
    {
      Shared(source, users)
    }

    constructor ()
      ensures View() == Shared(DEFAULT, 0)
    {
      source, users := DEFAULT, 0;
    }

    /** mqvpn_xqc_clock_acquire: refused exactly when other engines run on another clock. */
    method AcquireClock(src: Source) returns (ok: bool)
      modifies this
      ensures View() == Used(old(View()), Acquire(src))
      ensures ok <==> old(users) == 0 || src == old(source)
      ensures ok ==> source == src && users == old(users) + 1
    {
      if users > 0 && src != source { return false; }
      source := src;
      users := users + 1;
      return true;
    }

    /** mqvpn_xqc_clock_release: undoes one acquire. The last one restores the default; until then the
        clock of the engines still running does not change; a release too many does nothing. */
    method ReleaseClock()
      modifies this
      ensures View() == Used(old(View()), Release)
      ensures users == (if old(users) == 0 then 0 else old(users) - 1)
      ensures users > 0 ==> source == old(source)
      ensures old(users) > 0 && users == 0 ==> source == DEFAULT
    {
      if users == 0 { return; }
      users := users - 1;
      if users == 0 { source := DEFAULT; }
    }
  }
}

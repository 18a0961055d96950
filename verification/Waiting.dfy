/**
  Requests that sit out their live reshard in a waiting queue. The check on their way back overwrites
  where they run: harmless during BALLOON, but not once RESTORE has begun.
 */
module Waiting {
  import opened Paging
  import opened Pools
  import opened Ownership
  import opened Phases
  import opened Transfers
  import opened Group
  import opened GroupSafety
  import opened LiveRestore
  import opened Runs
  import opened Frames
  import Reshard

  // ---------- who waits holds pages ----------

  ghost predicate WaitersHold(g: Group) {
    forall r, i | r in g.waiting && 0 <= i < |g.mgrs| :: Held(g.mgrs[i], r) > 0
  }

  lemma ConvertedHold(g: Group, r: RequestId, i: nat)
    requires Safe(g) && Enabled(g, EndReshard(r)) && i < g.k && Held(g.mgrs[i], r) > 0
    ensures Held(Apply(g, EndReshard(r)).mgrs[i], r) > 0
  {
    EndReshardSafe(g, r);
  }

  lemma StepHolds(g: Group, e: Event)
    requires Safe(g) && WaitersHold(g) && Enabled(g, e)
    ensures WaitersHold(Apply(g, e))
  {
    var h := Apply(g, e);
    forall r, i | r in h.waiting && 0 <= i < |h.mgrs| ensures Held(h.mgrs[i], r) > 0 {
      if Subject(e) != Some(r) {
        StepFrame(g, e, r);
        assert SameTable(g.mgrs[i], h.mgrs[i], r);
      } else {
        OwnStepHolds(g, e, r, i);
      }
    }
  }

  /** Only parking, converting and the failed way back are about a request that waits afterwards. */
  lemma OwnStepHolds(g: Group, e: Event, r: RequestId, i: nat)
    requires Safe(g) && WaitersHold(g) && Enabled(g, e) && Subject(e) == Some(r)
    requires r in Apply(g, e).waiting && i < |Apply(g, e).mgrs|
    ensures Held(Apply(g, e).mgrs[i], r) > 0
  {
    match e
    case EndReshard(_) => ConvertedHold(g, r, i);
    case _ =>
  }

  lemma {:induction false} RunHolds(g: Group, es: seq<Event>)
    requires Safe(g) && WaitersHold(g) && IsRun(g, es) && Clear(g, es)
    ensures WaitersHold(Run(g, es))
    decreases |es|
  {
    if es != [] {
      StepSafe(g, es[0]);
      StepHolds(g, es[0]);
      RunHolds(Apply(g, es[0]), es[1..]);
    }
  }

  lemma ReachableHolds(g: Group)
    requires Reachable(g)
    ensures WaitersHold(g)
  {
    var es, n: nat, k: nat :|
      n > 0 && k > 0 && IsRun(Start(n, k), es) && Clear(Start(n, k), es) && Run(Start(n, k), es) == g;
    StartSafe(n, k);
    RunHolds(Start(n, k), es);
  }

  // ---------- entering RESTORE with somebody waiting ----------

  /** Each cell of each manager has one owner, and every free block is one. */
  ghost predicate Partitioned(g: Group) {
    Sized(g) && forall m | 0 <= m < g.k ::
      && AllBelow(g.mgrs[m].free, g.n)
      && forall c: nat | c < Geo(g).Cells() :: Owners(Geo(g), g.mgrs[m], OutOf(g.taken, m), c) == 1
  }

  lemma SafePartitioned(g: Group)
    requires Safe(g)
    ensures Partitioned(g)
  {
    forall m | 0 <= m < g.k
      ensures AllBelow(g.mgrs[m].free, g.n)
      ensures forall c: nat | c < Geo(g).Cells() :: Owners(Geo(g), g.mgrs[m], OutOf(g.taken, m), c) == 1
    {
      assert ManagerOk(g, m);
    }
  }

  /** A request whose pages are cells, freed as if they were blocks. */
  lemma CellsAsBlocks(g: Geometry, s: State, r: RequestId)
    requires g.k > 1 && Sound(g, s, map[], false) && !s.isFusion
    requires r in s.table && s.table[r].format == Cell && s.table[r].pages != []
    ensures Free(s, r, false, false).Some?
    ensures var t := Free(s, r, false, false).value;
      || !AllBelow(t.free, g.n)
      || exists c: nat :: c < g.Cells() && Owners(g, t, map[], c) != 1
  {
    var pages := s.table[r].pages;
    var t := Free(s, r, false, false).value;
    var x := pages[0];
    if AllBelow(t.free, g.n) {
      assert t.free[|s.free|..] == pages;
      assert forall i | 0 <= i < |pages| :: pages[i] == t.free[|s.free| + i];
      var c := x + g.n;
      SecondRow(g, x);
      BlockTwice(g, s, r, x, c);
    }
  }

  lemma SecondRow(g: Geometry, x: nat)
    requires g.k > 1 && x < g.n
    ensures x + g.n < g.Cells() && (x + g.n) % g.n == x
  {
    CellOfColumn(g, x, 1);
  }

  /** The cell below the freed one has an owner already and gets a second. */
  lemma BlockTwice(g: Geometry, s: State, r: RequestId, x: nat, c: nat)
    requires Sound(g, s, map[], false) && !s.isFusion && r in s.table && s.table[r].format == Cell
    requires x in s.table[r].pages && c < g.Cells() && c % g.n == x && c >= g.n && AllBelow(s.table[r].pages, g.n)
    ensures var t := s.(table := s.table - {r}, free := s.free + s.table[r].pages); Owners(g, t, map[], c) >= 2
  {
    var pages := s.table[r].pages;
    assert Owners(g, s, map[], c) == 1;
    SumSplit(s.table, HitsAt(g, c), r);
    AbsentAbove(pages, g.n, c);
    assert x in multiset(pages);
    HitsConcat(g, Whole, s.free, pages, c);
  }

  /** One block, two instances: cell 1 is in reserve, cell 0 in the table of request 7. Freed as a block,
      page 0 stands for both. */
  lemma CellFreedAsBlock(s: State)
    requires !s.isFusion && s.free == [] && s.reserved == [1] && s.fusion == [] && s.extend == []
    requires s.fusionSize == 2 && s.numBase == 1 && s.table == map[7 := Slot(Cell, [0])]
    ensures var g := Geometry(1, 2); Owners(g, s, map[], 0) == 1 && Owners(g, s, map[], 1) == 1
    ensures Free(s, 7, false, false).Some?
    ensures Owners(Geometry(1, 2), Free(s, 7, false, false).value, map[], 1) == 2
  {
    var g := Geometry(1, 2);
    var t := Free(s, 7, false, false).value;
    assert t.table == map[] && t.free == [0];
    SumSplit(s.table, HitsAt(g, 0), 7);
    SumSplit(s.table, HitsAt(g, 1), 7);
    assert s.table - {7} == map[];
  }

  /** Entering RESTORE leaves every manager as it should be, whoever waits. */
  lemma RestoredManager(g: Group, quota: nat, m: nat)
    requires Safe(g) && Enabled(g, ToRestore(quota)) && m < g.k
    ensures var h := Apply(g, ToRestore(quota));
      && Sized(h) && h.n == g.n && h.k == g.k && h.phase == Restore && h.taken == map[] && h.reqs == g.reqs
      && h.waiting == g.waiting && OutOf(h.taken, m) == map[]
      && Sound(Geo(h), h.mgrs[m], map[], false) && !h.mgrs[m].isFusion && Placed(h.reqs, h.mgrs[m], m)
  {
    var h := Apply(g, ToRestore(quota));
    ToRestoreManager(g, quota, m);
    NothingTaken(g);
    assert OutOf(h.taken, m) == map[];
  }

  lemma RestoreBegun(g: Group, quota: nat, r: RequestId, m: nat)
    requires Safe(g) && WaitersHold(g) && Enabled(g, ToRestore(quota)) && r in g.waiting && m < g.k
    ensures var h := Apply(g, ToRestore(quota));
      && r in h.waiting && r in h.reqs && h.reqs[r].ready && m < |h.mgrs|
      && r in h.mgrs[m].table && h.mgrs[m].table[r].format == Cell && h.mgrs[m].table[r].pages != []
  {
    var h := Apply(g, ToRestore(quota));
    RestoredManager(g, quota, m);
    StepHolds(g, ToRestore(quota));
    assert FormatOf(h.mgrs[m], r) == Wanted(h.reqs, r, m);
  }

  /** It comes back to its engine, is taken for a request of that engine's instance, and leaves. */
  function ComesBack(r: RequestId, rank: nat): seq<Event> {
    [SwapIn(r, rank, true), Release(r)]
  }

  lemma ComesBackRuns(h: Group, r: RequestId, rank: nat)
    requires Sized(h) && h.phase == Restore && h.taken == map[] && rank < h.k
    requires r in h.waiting && r in h.reqs && h.reqs[r].ready
    ensures IsRun(h, ComesBack(r, rank)) && Clear(h, ComesBack(r, rank))
    ensures var d := Run(h, ComesBack(r, rank));
      && d.n == h.n && d.k == h.k && d.phase == Restore && d.taken == map[] && |d.mgrs| == h.k
      && d.mgrs[rank] == FreeOr(h.mgrs[rank], r, false, false)
  {
    var es := ComesBack(r, rank);
    var back := Apply(h, SwapIn(r, rank, true));
    var last := [Release(r)];
    assert es[1..] == last && last[1..] == [];
    assert back.reqs[r] == Flags(false, rank, true);
    assert IsRun(Apply(back, Release(r)), []);
    assert IsRun(back, last) && Run(back, last) == Apply(back, Release(r));
    assert IsRun(h, es) && Run(h, es) == Run(back, last);
  }

  /** Whoever waits when RESTORE begins can break the partition, on whichever instance its engine runs. */
  lemma WaitingBreaks(g: Group, quota: nat, r: RequestId, rank: nat)
    requires Safe(g) && WaitersHold(g) && Enabled(g, ToRestore(quota)) && r in g.waiting && g.k > 1 && rank < g.k
    ensures var h := Apply(g, ToRestore(quota));
      IsRun(h, ComesBack(r, rank)) && Clear(h, ComesBack(r, rank)) && !Partitioned(Run(h, ComesBack(r, rank)))
  {
    var h := Apply(g, ToRestore(quota));
    RestoredManager(g, quota, rank);
    RestoreBegun(g, quota, r, rank);
    ComesBackRuns(h, r, rank);
    CellsAsBlocks(Geo(h), h.mgrs[rank], r);
    var d := Run(h, ComesBack(r, rank));
    assert OutOf(d.taken, rank) == map[] && Geo(d) == Geo(h);
    assert d.mgrs[rank] == Free(h.mgrs[rank], r, false, false).value;
  }

  // ---------- it does happen ----------

  /** Two instances of one block, fused; the only request still sits on instance 0. */
  ghost predicate JustFused(g: Group) {
    && |g.mgrs| == g.k == 2 && g.n == 1 && g.phase == Balloon && g.taken == map[] && g.waiting == {}
    && g.reqs == map[7 := Flags(false, 0, true)]
    && 7 in g.mgrs[0].table && g.mgrs[0].table[7] == Slot(Whole, [0]) && 7 !in g.mgrs[1].table
    && g.mgrs[0].numBase == 2 && g.mgrs[1].isFusion && g.mgrs[1].fusion == [0, 1]
    && g.mgrs[0].maxExtend == g.mgrs[1].maxExtend == 0
  }

  /** A cell of instance 1 serves it; it waits, its own block now a cell too. */
  ghost predicate JustParked(g: Group) {
    && |g.mgrs| == g.k == 2 && g.phase == Balloon && g.waiting == {7}
    && 7 in g.reqs && (forall r | r in g.reqs :: g.reqs[r].ready)
    && g.mgrs[0].maxExtend == g.mgrs[1].maxExtend == 0
  }

  lemma Admitted() returns (g: Group)
    ensures Enabled(Start(1, 2), Admit(7, 0, 1)) && g == Apply(Start(1, 2), Admit(7, 0, 1))
    ensures |g.mgrs| == g.k == 2 && g.n == 1 && g.phase == Initially && g.taken == map[] && g.waiting == {}
    ensures g.reqs == map[7 := Flags(false, 0, true)] && g.mgrs[1] == Initial(1)
    ensures 7 in g.mgrs[0].table && g.mgrs[0] == Initial(1).(free := [], table := g.mgrs[0].table)
    ensures g.mgrs[0].table[7] == Slot(Whole, [0])
  {
    assert Initial(1).free == [0];
    g := Apply(Start(1, 2), Admit(7, 0, 1));
  }

  /** The block in use stays a table of instance 0, the one of instance 1 is held back. */
  ghost predicate HeldBack(g: Group) {
    && |g.mgrs| == g.k == 2 && g.n == 1 && g.phase == Balloon && g.taken == map[] && g.waiting == {}
    && g.reqs == map[7 := Flags(false, 0, true)]
    && 7 in g.mgrs[0].table && g.mgrs[0].table[7] == Slot(Whole, [0]) && 7 !in g.mgrs[1].table
    && g.mgrs[0].numBase == 2 && g.mgrs[0].fusionSize > 0
    && g.mgrs[1].isFusion && g.mgrs[1].fusion == [] && g.mgrs[1].reserved == [0]
    && g.mgrs[1].numBase == 2 && g.mgrs[1].fusionSize == 2
    && g.mgrs[0].maxExtend == g.mgrs[1].maxExtend == 0
  }

  const FUSE := ToBalloon([0, 0], map[7 := 0], {0})

  lemma FusedFirst(g: Group)
    requires |g.mgrs| == g.k == 2 && g.n == 1 && g.phase == Initially && g.taken == map[] && g.waiting == {}
    requires g.reqs == map[7 := Flags(false, 0, true)] && g.mgrs[1] == Initial(1)
    requires 7 in g.mgrs[0].table && g.mgrs[0] == Initial(1).(free := [], table := g.mgrs[0].table)
    requires g.mgrs[0].table[7] == Slot(Whole, [0])
    ensures Enabled(g, FUSE) && HeldBack(Apply(g, FUSE))
  {
    assert Initial(1).free == [0];
  }

  lemma FusedThen(g: Group)
    requires HeldBack(g)
    ensures Enabled(g, FuseReserve) && JustFused(Apply(g, FuseReserve))
  {
  }

  lemma UntilFused() returns (es: seq<Event>)
    ensures IsRun(Start(1, 2), es) && Clear(Start(1, 2), es) && JustFused(Run(Start(1, 2), es))
  {
    var g := Start(1, 2);
    var first := Admitted();
    OneMore(g, [], Admit(7, 0, 1));
    es := [] + [Admit(7, 0, 1)];
    FusedFirst(first);
    OneMore(g, es, FUSE);
    es := es + [FUSE];
    FusedThen(Run(g, es));
    OneMore(g, es, FuseReserve);
    es := es + [FuseReserve];
  }

  lemma ServedByPeer(g: Group) returns (h: Group)
    requires JustFused(g)
    ensures Enabled(g, BeginReshard(7, 1)) && h == Apply(g, BeginReshard(7, 1))
    ensures |h.mgrs| == h.k == 2 && h.n == 1 && h.phase == Balloon && h.taken == map[] && h.waiting == {}
    ensures h.reqs == map[7 := Flags(true, 0, false)] && h.mgrs[0] == g.mgrs[0]
    ensures 7 in h.mgrs[1].table && h.mgrs[1].table[7] == Slot(Cell, [0]) && h.mgrs[1].maxExtend == 0
  {
    var s := g.mgrs[1];
    var t := Grant(s.(fusion := s.fusion[1..]), 7, Cell, s.fusion[..1]);
    assert Allocate(s, 7, false, true, 1) == Some(t);
    assert AllocatePeers(g.mgrs[1 := t], 7, 0, 1, 2) == (g.mgrs[1 := t], true);
    assert AllocatePeers(g.mgrs, 7, 0, 1, 1) == (g.mgrs[1 := t], true);
    assert AllocatePeers(g.mgrs, 7, 0, 1, 0) == (g.mgrs[1 := t], true);
    h := Apply(g, BeginReshard(7, 1));
  }

  lemma ConvertedAndParked(g: Group) returns (h: Group)
    requires |g.mgrs| == g.k == 2 && g.n == 1 && g.phase == Balloon && g.taken == map[] && g.waiting == {}
    requires g.reqs == map[7 := Flags(true, 0, false)]
    requires 7 in g.mgrs[0].table && g.mgrs[0].table[7] == Slot(Whole, [0])
    requires 7 in g.mgrs[1].table && g.mgrs[1].table[7] == Slot(Cell, [0])
    requires g.mgrs[0].maxExtend == g.mgrs[1].maxExtend == 0
    ensures Enabled(g, Park(7)) && Enabled(Apply(g, Park(7)), EndReshard(7))
    ensures h == Apply(Apply(g, Park(7)), EndReshard(7)) && JustParked(h)
  {
    assert Held(g.mgrs[0], 7) == 1 && Held(g.mgrs[1], 7) == 1;
    h := Apply(Apply(g, Park(7)), EndReshard(7));
  }

  lemma UntilParked() returns (es: seq<Event>)
    ensures IsRun(Start(1, 2), es) && Clear(Start(1, 2), es) && JustParked(Run(Start(1, 2), es))
  {
    var g := Start(1, 2);
    es := UntilFused();
    var served := ServedByPeer(Run(g, es));
    OneMore(g, es, BeginReshard(7, 1));
    es := es + [BeginReshard(7, 1)];
    var parked := ConvertedAndParked(served);
    OneMore(g, es, Park(7));
    es := es + [Park(7)];
    OneMore(g, es, EndReshard(7));
    es := es + [EndReshard(7)];
  }

  /** While draining, the first managers are through with it. */
  ghost predicate Emptied(g: Group, done: nat) {
    && |g.mgrs| == g.k == 2 && g.phase == Balloon && g.draining && 7 in g.waiting
    && (forall r | r in g.reqs :: g.reqs[r].ready)
    && g.mgrs[0].maxExtend == g.mgrs[1].maxExtend == 0
    && forall i | 0 <= i < done && i < 2 :: g.mgrs[i].numExtend == 0
  }

  lemma EmptiedNext(g: Group, i: nat)
    requires Emptied(g, i) && i < 2
    ensures Enabled(g, Drain(i)) && Emptied(Apply(g, Drain(i)), i + 1)
  {
  }

  lemma UntilDraining() returns (es: seq<Event>)
    ensures IsRun(Start(1, 2), es) && Clear(Start(1, 2), es) && Emptied(Run(Start(1, 2), es), 0)
  {
    var g := Start(1, 2);
    es := UntilParked();
    OneMore(g, es, BeginDrain);
    es := es + [BeginDrain];
  }

  lemma UntilDrained() returns (es: seq<Event>)
    ensures IsRun(Start(1, 2), es) && Clear(Start(1, 2), es)
    ensures Enabled(Run(Start(1, 2), es), ToRestore(0)) && 7 in Run(Start(1, 2), es).waiting
    ensures Run(Start(1, 2), es).k == 2
  {
    var g := Start(1, 2);
    es := UntilDraining();
    EmptiedNext(Run(g, es), 0);
    OneMore(g, es, Drain(0));
    es := es + [Drain(0)];
    EmptiedNext(Run(g, es), 1);
    OneMore(g, es, Drain(1));
    es := es + [Drain(1)];
  }

  /** An engine gets there: RESTORE can begin while request 7 waits, and then a cell ends up with two owners
      or a page that is no block on the free list. */
  lemma WaitingHappens() returns (es: seq<Event>)
    ensures IsRun(Start(1, 2), es) && Clear(Start(1, 2), es)
    ensures var g := Run(Start(1, 2), es);
      && Enabled(g, ToRestore(0)) && 7 in g.waiting
      && var h := Apply(g, ToRestore(0)); IsRun(h, ComesBack(7, 0)) && !Partitioned(Run(h, ComesBack(7, 0)))
  {
    es := UntilDrained();
    StartSafe(1, 2);
    RunSafe(Start(1, 2), es);
    RunHolds(Start(1, 2), es);
    WaitingBreaks(Run(Start(1, 2), es), 0, 7, 0);
  }
}

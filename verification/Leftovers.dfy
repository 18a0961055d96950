/**
  Stale requests left over when RESTORE begins. An engine that still goes on resharding takes them for
  requests of BALLOON: the peers hand out whole blocks, and the home table is cut with the wrong stride.
 */
module Leftovers {
  import opened Paging
  import opened Counting
  import opened Sorting
  import opened Pools
  import opened Ownership
  import opened Phases
  import opened Transfers
  import opened Group
  import opened GroupSafety
  import opened Runs
  import opened Waiting

  // ---------- the wrong stride ----------

  lemma StrideBelow(b: nat, top: nat, stride: nat, n: nat, row: nat, k: nat)
    requires b <= top && stride < n && row < k && k > 1
    ensures CellId(b, stride, row) < CellId(top, n, k - 1)
  {
    CellIdProduct(b, stride, row);
    CellIdProduct(top, n, k - 1);
    MulMonotone(row, k - 1, stride);
    MulCommutes(k - 1, stride);
    MulCommutes(k - 1, n);
    StrictProduct(stride, n, k - 1);
  }

  lemma MulCommutes(a: nat, b: nat)
    ensures a * b == b * a
  {
  }

  lemma StrictProduct(a: nat, b: nat, c: nat)
    requires a < b && c > 0
    ensures a * c < b * c
  {
    MulMonotone(a + 1, b, c);
    assert (a + 1) * c == a * c + c;
  }

  lemma {:induction false} CutBelow(b: nat, top: nat, stride: nat, n: nat, rows: nat, rank: nat, k: nat)
    requires b <= top && stride < n && rows <= k && k > 1
    ensures AllBelow(ColumnExcept(b, stride, rows, rank), CellId(top, n, k - 1))
  {
    if rows > 0 {
      CutBelow(b, top, stride, n, rows - 1, rank, k);
      StrideBelow(b, top, stride, n, rows - 1, k);
    }
  }

  lemma {:induction false} CutsBelow(blocks: seq<nat>, top: nat, stride: nat, n: nat, rank: nat, k: nat)
    requires stride < n && k > 1 && forall i | 0 <= i < |blocks| :: blocks[i] <= top
    ensures AllBelow(ColumnsExcept(blocks, stride, k, rank), CellId(top, n, k - 1))
  {
    if blocks != [] {
      var last := |blocks| - 1;
      CutsBelow(blocks[..last], top, stride, n, rank, k);
      CutBelow(blocks[last], top, stride, n, k, rank, k);
    }
  }

  lemma RowBelow(blocks: seq<nat>, top: nat, stride: nat, n: nat, rank: nat, k: nat)
    requires stride < n && rank < k && k > 1 && forall i | 0 <= i < |blocks| :: blocks[i] <= top
    ensures AllBelow(Row(blocks, stride, rank), CellId(top, n, k - 1))
  {
    forall i | 0 <= i < |blocks| ensures Row(blocks, stride, rank)[i] < CellId(top, n, k - 1) {
      StrideBelow(blocks[i], top, stride, n, rank, k);
    }
  }

  lemma {:induction false} Highest(p: seq<nat>) returns (t: nat)
    requires p != []
    ensures t < |p| && forall i | 0 <= i < |p| :: p[i] <= p[t]
  {
    if |p| == 1 {
      t := 0;
    } else {
      t := Highest(p[..|p| - 1]);
      if p[t] < p[|p| - 1] {
        t := |p| - 1;
      }
    }
  }

  lemma SmallerStride(n: nat, k: nat)
    requires n > 0 && k > 1
    ensures n / k < n
  {
    var q := n / k;
    assert n == q * k + n % k;
    MulCommutes(q, k);
    if q >= n {
      MulMonotone(2, k, q);
    }
  }

  lemma CutMisses(blocks: seq<nat>, top: nat, stride: nat, n: nat, rank: nat, k: nat)
    requires stride < n && rank < k && k > 1 && forall i | 0 <= i < |blocks| :: blocks[i] <= top
    ensures multiset(ColumnsExcept(blocks, stride, k, rank))[CellId(top, n, k - 1)] == 0
    ensures multiset(Row(blocks, stride, rank))[CellId(top, n, k - 1)] == 0
  {
    CutsBelow(blocks, top, stride, n, rank, k);
    RowBelow(blocks, top, stride, n, rank, k);
    AbsentAbove(ColumnsExcept(blocks, stride, k, rank), CellId(top, n, k - 1), CellId(top, n, k - 1));
    AbsentAbove(Row(blocks, stride, rank), CellId(top, n, k - 1), CellId(top, n, k - 1));
  }

  lemma CutState(s: State, r: RequestId, k: nat, rank: nat, stride: nat) returns (t: State)
    requires k > 0 && r in s.table && stride == s.numBase / k
    ensures FreeExcept(s, r, k, rank) == Some(t)
    ensures var blocks := s.table[r].pages;
      t == s.(fusion := s.fusion + ColumnsExcept(blocks, stride, k, rank),
              table := s.table[r := Slot(Cell, Row(blocks, stride, rank))],
              maxReserved := t.maxReserved, maxFusion := t.maxFusion)
  {
    t := FreeExcept(s, r, k, rank).value;
  }

  lemma OnlyOwner(g: Geometry, s: State, r: RequestId, top: nat, c: nat)
    requires Sound(g, s, map[], false) && r in s.table && s.table[r].format == Whole && top in s.table[r].pages
    requires c < g.Cells() && c % g.n == top
    ensures Pooled(g, s, c) == 0 && Sum(s.table - {r}, HitsAt(g, c)) == 0
  {
    assert Owners(g, s, map[], c) == 1;
    assert top in multiset(s.table[r].pages);
    SumSplit(s.table, HitsAt(g, c), r);
  }

  lemma NobodyElse(g: Geometry, s: State, t: State, r: RequestId, cut: seq<nat>, row: seq<nat>, c: nat)
    requires t == s.(fusion := s.fusion + cut, table := s.table[r := Slot(Cell, row)], maxReserved := t.maxReserved,
                     maxFusion := t.maxFusion)
    requires multiset(cut)[c] == 0 && multiset(row)[c] == 0
    requires Pooled(g, s, c) == 0 && Sum(s.table - {r}, HitsAt(g, c)) == 0
    ensures Owners(g, t, map[], c) == 0
  {
    SumSplit(t.table, HitsAt(g, c), r);
    assert t.table - {r} == s.table - {r};
    HitsConcat(g, Cell, s.fusion, cut, c);
  }

  /** Converted during RESTORE, a normal request loses the top cell of its highest block. */
  lemma TopCellLost(g: Geometry, s: State, r: RequestId, rank: nat)
    requires g.k > 1 && rank < g.k && Sound(g, s, map[], false) && !s.isFusion
    requires r in s.table && s.table[r].format == Whole && s.table[r].pages != []
    ensures FreeExcept(s, r, g.k, rank).Some?
    ensures exists c: nat :: c < g.Cells() && Owners(g, FreeExcept(s, r, g.k, rank).value, map[], c) == 0
  {
    var blocks, stride := s.table[r].pages, s.numBase / g.k;
    var i := Highest(blocks);
    var top, c := blocks[i], CellId(blocks[i], g.n, g.k - 1);
    assert SlotShape(g, s.numExtend, s.table[r]);
    CellOfColumn(g, top, g.k - 1);
    SmallerStride(g.n, g.k);
    CutMisses(blocks, top, stride, g.n, rank, g.k);
    OnlyOwner(g, s, r, top, c);
    var t := CutState(s, r, g.k, rank, stride);
    NobodyElse(g, s, t, r, ColumnsExcept(blocks, stride, g.k, rank), Row(blocks, stride, rank), c);
  }

  /** Two blocks, two instances: block 1 is free, block 0 in the table of request 7. Converted during RESTORE,
      the request keeps cell 0 and frees cell 1, a cell of block 1, and nobody has cell 2 any more. */
  lemma WrongStride(s: State)
    requires !s.isFusion && s.free == [1] && s.reserved == [] && s.fusion == [] && s.extend == []
    requires s.fusionSize == 2 && s.numBase == 2 && s.table == map[7 := Slot(Whole, [0])]
    ensures var g := Geometry(2, 2); forall c: nat | c < 4 :: Owners(g, s, map[], c) == 1
    ensures FreeExcept(s, 7, 2, 0).Some?
    ensures var g, t := Geometry(2, 2), FreeExcept(s, 7, 2, 0).value;
      Owners(g, t, map[], 1) == 2 && Owners(g, t, map[], 2) == 0
  {
    var g, t := Geometry(2, 2), FreeExcept(s, 7, 2, 0).value;
    assert g.Cells() == 4;
    var one: seq<nat> := [0];
    assert one[..0] == [];
    assert ColumnExcept(0, 1, 1, 0) == [] && ColumnExcept(0, 1, 2, 0) == [1] && CellId(0, 1, 1) == 1;
    assert ColumnsExcept(one, 1, 2, 0) == [1] && Row(one, 1, 0) == [0];
    assert t.fusion == [1] && t.table[7] == Slot(Cell, [0]);
    forall c: nat | c < 4
      ensures Sum(s.table, HitsAt(g, c)) == Hits(g, Whole, [0], c)
      ensures Sum(t.table, HitsAt(g, c)) == Hits(g, Cell, [0], c)
    {
      SumSplit(s.table, HitsAt(g, c), 7);
      SumSplit(t.table, HitsAt(g, c), 7);
      assert s.table - {7} == map[] && t.table - {7} == map[];
    }
  }

  /** A look ends the resharding of an engine exactly when it holds no stale request, and of no other engine. */
  lemma LookEnds(g: Group, e: nat, other: nat)
    requires Enabled(g, Look(e))
    ensures var h := Apply(g, Look(e));
      other in h.resharding <==>
        other in g.resharding
        && (other == e ==> exists r :: r in g.reqs && !g.reqs[r].fusion && r in g.holder && g.holder[r] == e)
  {
    if HasStale(g, e) {
      var r :| r in g.reqs && IsStale(g, r) && g.holder[r] == e;
    }
    forall r | r in g.reqs && !g.reqs[r].fusion && r in g.holder && g.holder[r] == e ensures HasStale(g, e) {
      assert IsStale(g, r);
    }
  }

  // ---------- in the group ----------

  /** The request has pages, and once RESTORE has begun every peer has blocks for as many. */
  predicate Servable(g: Group, quota: nat, r: RequestId)
    requires Enabled(g, ToRestore(quota)) && r in g.reqs
  {
    var home, h := g.reqs[r].home, Apply(g, ToRestore(quota));
    && home < g.k && Held(g.mgrs[home], r) > 0
    && forall i | 0 <= i < |h.mgrs| && i != home :: Held(g.mgrs[home], r) <= |h.mgrs[i].free|
  }

  lemma PeersServe(h: Group, r: RequestId, need: nat)
    requires Sized(h) && r in h.reqs && h.reqs[r].home < h.k
    requires forall i | 0 <= i < h.k && i != h.reqs[r].home ::
      !h.mgrs[i].isFusion && r !in h.mgrs[i].table && need <= |h.mgrs[i].free|
    ensures var p := PreparePeers(h.mgrs, r, h.reqs[r].home, need);
      p.1 && p.0[h.reqs[r].home] == h.mgrs[h.reqs[r].home]
  {
    var end := AllocatePeersEffect(h.mgrs, r, h.reqs[r].home, need, 0);
  }

  /** The peers hand out pages, then the home table is cut. */
  function Reshards(r: RequestId, need: nat): seq<Event> {
    [BeginReshard(r, need), EndReshard(r)]
  }

  lemma ReshardsRun(h: Group, r: RequestId, need: nat)
    requires Sized(h) && h.phase == Restore && r in h.reqs && Left(h, r) && h.reqs[r].home < h.k
    requires var p := PreparePeers(h.mgrs, r, h.reqs[r].home, need);
      p.1 && p.0[h.reqs[r].home] == h.mgrs[h.reqs[r].home]
    requires FreeExcept(h.mgrs[h.reqs[r].home], r, h.k, h.reqs[r].home).Some?
    ensures IsRun(h, Reshards(r, need)) && Clear(h, Reshards(r, need))
    ensures var home, d := h.reqs[r].home, Run(h, Reshards(r, need));
      && d.n == h.n && d.k == h.k && d.phase == Restore && d.taken == h.taken && |d.mgrs| == h.k
      && d.mgrs[home] == FreeExcept(h.mgrs[home], r, h.k, home).value
  {
    var es, last := Reshards(r, need), [EndReshard(r)];
    var half := Apply(h, BeginReshard(r, need));
    assert es[1..] == last && last[1..] == [];
    assert half.reqs[r] == Flags(true, h.reqs[r].home, false);
    var d := Apply(half, EndReshard(r));
    assert IsRun(d, []) && Clear(d, []);
    assert IsRun(half, last) && Clear(half, last) && Run(half, last) == d;
    assert IsRun(h, es) && Run(h, es) == Run(half, last);
  }

  lemma LeftAfter(g: Group, quota: nat, r: RequestId)
    requires Safe(g) && Enabled(g, ToRestore(quota)) && r in g.reqs && Left(g, r)
    ensures var h := Apply(g, ToRestore(quota));
      && h.reqs == g.reqs && Left(h, r) && h.reqs[r].home < g.k && h.reqs[r].ready
      && forall i | 0 <= i < g.k :: Held(h.mgrs[i], r) == Held(g.mgrs[i], r)
  {
    var h := Apply(g, ToRestore(quota));
    assert FlagsOk(g, g.reqs[r]);
    assert HasStale(g, g.holder[r]);
  }

  /** A stale request that an engine still resharding holds when RESTORE begins can break the partition. */
  lemma LeftoverBreaks(g: Group, quota: nat, r: RequestId)
    requires Safe(g) && Enabled(g, ToRestore(quota)) && r in g.reqs && Left(g, r) && g.k > 1
    requires Servable(g, quota, r)
    ensures var h, es := Apply(g, ToRestore(quota)), Reshards(r, Held(g.mgrs[g.reqs[r].home], r));
      IsRun(h, es) && Clear(h, es) && !Partitioned(Run(h, es))
  {
    var h, home := Apply(g, ToRestore(quota)), g.reqs[r].home;
    var need := Held(g.mgrs[home], r);
    LeftAfter(g, quota, r);
    forall i | 0 <= i < g.k
      ensures !h.mgrs[i].isFusion && OutOf(h.taken, i) == map[] && Sound(Geo(h), h.mgrs[i], map[], false)
      ensures FormatOf(h.mgrs[i], r) == if i == home then Some(Whole) else None
    {
      RestoredManager(g, quota, i);
      assert FormatOf(h.mgrs[i], r) == Wanted(h.reqs, r, i);
    }
    RestoredManager(g, quota, home);
    PeersServe(h, r, need);
    TopCellLost(Geo(h), h.mgrs[home], r, home);
    ReshardsRun(h, r, need);
    var d := Run(h, Reshards(r, need));
    assert OutOf(d.taken, home) == map[] && Geo(d) == Geo(h);
  }

  /** Every run from here on keeps single ownership, as long as nothing is left over when RESTORE begins again. */
  ghost predicate AlwaysPartitioned(h: Group) {
    forall es :: IsRun(h, es) && Clear(h, es) ==> Partitioned(Run(h, es))
  }

  lemma AtRestKeeps(g: Group, quota: nat, es: seq<Event>)
    requires Safe(g) && Enabled(g, ToRestore(quota)) && AtRest(g)
    requires IsRun(Apply(g, ToRestore(quota)), es) && Clear(Apply(g, ToRestore(quota)), es)
    ensures Partitioned(Run(Apply(g, ToRestore(quota)), es))
  {
    var h := Apply(g, ToRestore(quota));
    ToRestoreSafe(g, quota);
    RunSafe(h, es);
    SafePartitioned(Run(h, es));
  }

  /** RESTORE keeps every page with one owner, whatever follows, if and only if nobody waits when it begins and
      no engine that still goes on resharding holds a stale request. For the "only if" some request left over
      this way, when nobody waits, must find room on its peers. */
  lemma PartitionExactly(g: Group, quota: nat)
    requires Reachable(g) && Enabled(g, ToRestore(quota)) && g.k > 1
    requires g.waiting == {} && !AtRest(g) ==> exists r :: r in g.reqs && Left(g, r) && Servable(g, quota, r)
    ensures AtRest(g) <==> AlwaysPartitioned(Apply(g, ToRestore(quota)))
  {
    var h := Apply(g, ToRestore(quota));
    ReachableSafe(g);
    ReachableHolds(g);
    if AtRest(g) {
      forall es | IsRun(h, es) && Clear(h, es) ensures Partitioned(Run(h, es)) {
        AtRestKeeps(g, quota, es);
      }
    } else if g.waiting != {} {
      var r :| r in g.waiting;
      WaitingBreaks(g, quota, r, 0);
    } else {
      var r :| r in g.reqs && Left(g, r) && Servable(g, quota, r);
      LeftoverBreaks(g, quota, r);
    }
  }

  // ---------- it does happen ----------

  const BOTH := map[7 := Flags(false, 0, true), 8 := Flags(false, 1, true)]
  const HOLDERS: map<RequestId, nat> := map[7 := 0, 8 := 1]

  function Full(r: RequestId): State {
    Initial(1).(free := [], table := map[r := Slot(Whole, [0])])
  }

  lemma TakesOnly(r: RequestId)
    ensures AllocateFree(Initial(1), r, 1) == Some(Full(r))
  {
    var s := Initial(1);
    assert s.free == [0] && s.free[..1] == [0] && s.free[1..] == [];
  }

  /** Two instances of one block each, both in use. */
  lemma BothAdmitted() returns (g: Group)
    ensures Enabled(Start(1, 2), Admit(7, 0, 1)) && Enabled(Apply(Start(1, 2), Admit(7, 0, 1)), Admit(8, 1, 1))
    ensures g == Apply(Apply(Start(1, 2), Admit(7, 0, 1)), Admit(8, 1, 1))
    ensures g == Group(1, 2, Initially, false, [Full(7), Full(8)], BOTH, map[], {}, map[], {})
  {
    assert Initial(1).free == [0];
    var start := Start(1, 2);
    assert start.mgrs == [Initial(1), Initial(1)];
    TakesOnly(7);
    TakesOnly(8);
    var mid := Apply(start, Admit(7, 0, 1));
    assert mid.mgrs == [Full(7), Initial(1)];
    g := Apply(mid, Admit(8, 1, 1));
    assert g.mgrs == [Full(7), Full(8)];
  }

  /** Every block is in use, so that the group has no cell. */
  function Crammed(r: RequestId): State {
    State([], [], {}, [], [], true, 2, 0, 2, 0, 0, 2, 0, 1, map[r := Slot(Whole, [0])])
  }

  function Cut(r: RequestId): State {
    AddExtend(ConvertToPipeline(Full(r), 2), 0)
  }

  lemma Crams(r: RequestId, i: nat)
    ensures Handed(1, Full(r), i) == Full(r)
    ensures Cut(r).fusionSize == 2 && ConvertAllReserved(Cut(r)) == Crammed(r)
  {
    var none: seq<nat> := [];
    assert none + none == none;
    assert Range(2, 0) == none;
  }

  lemma FullCut(s: State, r: RequestId, i: nat)
    requires s == Full(r)
    ensures var t := Handed(1, s, i); t.maxGpu >= 0 && AddExtend(ConvertToPipeline(t, 2), 0) == Cut(r)
  {
    Crams(r, i);
  }

  lemma ManagersCut(g: Group, holder: map<RequestId, nat>, engines: set<nat>)
    requires Enabled(g, ToBalloon([0, 0], holder, engines)) && g.k == 2 && g.n == 1
    requires g.mgrs[0] == Full(7) && g.mgrs[1] == Full(8)
    ensures Apply(g, ToBalloon([0, 0], holder, engines)).mgrs == [Cut(7), Cut(8)]
  {
    FullCut(g.mgrs[0], 7, 0);
    FullCut(g.mgrs[1], 8, 1);
  }

  lemma BothCut(g: Group)
    requires g == Group(1, 2, Initially, false, [Full(7), Full(8)], BOTH, map[], {}, map[], {})
    ensures Enabled(g, ToBalloon([0, 0], HOLDERS, {0, 1}))
    ensures Apply(g, ToBalloon([0, 0], HOLDERS, {0, 1}))
         == Group(1, 2, Balloon, false, [Cut(7), Cut(8)], BOTH, map[], {}, HOLDERS, {0, 1})
  {
    ManagersCut(g, HOLDERS, {0, 1});
  }

  lemma BothFused(g: Group) returns (h: Group)
    requires g == Group(1, 2, Balloon, false, [Cut(7), Cut(8)], BOTH, map[], {}, HOLDERS, {0, 1})
    ensures Enabled(g, FuseReserve) && h == Apply(g, FuseReserve)
    ensures h == Group(1, 2, Balloon, false, [Crammed(7), Crammed(8)], BOTH, map[], {}, HOLDERS, {0, 1})
  {
    h := Apply(g, FuseReserve);
    Crams(7, 0);
    Crams(8, 1);
    assert h.mgrs[0] == Crammed(7) && h.mgrs[1] == Crammed(8);
    assert h.mgrs == [Crammed(7), Crammed(8)];
  }

  ghost predicate Alone(g: Group) {
    && |g.mgrs| == g.k == 2 && g.n == 1 && g.phase == Balloon && g.taken == map[] && g.waiting == {}
    && g.reqs == map[7 := Flags(false, 0, true)] && g.holder == HOLDERS && g.resharding == {0, 1}
    && g.mgrs[0] == Crammed(7)
    && g.mgrs[1] == Crammed(8).(reserved := [0], reservedSet := {0}, table := map[])
  }

  /** The first look of engine 0 finds its request and no room for it; then the other request leaves. */
  lemma NoRoomYet(g: Group) returns (h: Group)
    requires g == Group(1, 2, Balloon, false, [Crammed(7), Crammed(8)], BOTH, map[], {}, HOLDERS, {0, 1})
    ensures Enabled(g, BeginReshard(7, 1)) && Apply(g, BeginReshard(7, 1)) == g && Enabled(g, Release(8))
    ensures h == Apply(g, Release(8)) && Alone(h)
  {
    assert Allocate(g.mgrs[1], 7, false, true, 1) == None;
    assert AllocatePeers(g.mgrs, 7, 0, 1, 1) == (g.mgrs, false);
    assert AllocatePeers(g.mgrs, 7, 0, 1, 0) == (g.mgrs, false);
    assert FreePeers(g.mgrs, 7, 0) == g.mgrs;
    h := Apply(g, Release(8));
    var one: seq<nat> := [0];
    assert one[..0] == [];
    var s := Crammed(8);
    assert s.table - {8} == map[];
    assert ReturnBlocks(s.(table := map[]), one) == s.(reserved := [0], reservedSet := {0}, table := map[]);
    assert h.reqs == BOTH - {8};
  }

  lemma DrainsAtOnce(g: Group) returns (h: Group)
    requires Alone(g)
    ensures Enabled(g, BeginDrain) && Enabled(Apply(g, BeginDrain), Drain(0))
    ensures Enabled(Apply(Apply(g, BeginDrain), Drain(0)), Drain(1))
    ensures h == Apply(Apply(Apply(g, BeginDrain), Drain(0)), Drain(1)) && Alone(h) && h.draining
  {
    h := Apply(Apply(Apply(g, BeginDrain), Drain(0)), Drain(1));
    assert h.mgrs[0] == g.mgrs[0] && h.mgrs[1] == g.mgrs[1];
  }

  lemma FreedBlock(s: State)
    requires s == Crammed(8).(reserved := [0], reservedSet := {0}, table := map[])
    ensures RestoreOne(s, 0).free == [0]
  {
    var t := s.(isFusion := false);
    var none: seq<nat> := [];
    assert SortBy(t.fusion, ResidueKey(1)) == none;
    assert Bases(none, 0, 1, 2) == none;
    assert MergeCells(t, 1, 0, none).value.free == [0] + none == [0];
  }

  /** The block of instance 1 is free when RESTORE begins. */
  lemma RoomThen(g: Group)
    requires Alone(g) && g.draining
    ensures Enabled(g, ToRestore(0)) && g.waiting == {} && g.k == 2
    ensures 7 in g.reqs && Left(g, 7) && Servable(g, 0, 7) && g.reqs[7].home == 0 && Held(g.mgrs[0], 7) == 1
  {
    FreedBlock(g.mgrs[1]);
  }

  lemma UntilLeft() returns (es: seq<Event>)
    ensures IsRun(Start(1, 2), es) && Clear(Start(1, 2), es)
    ensures var g := Run(Start(1, 2), es);
      && Enabled(g, ToRestore(0)) && g.waiting == {} && g.k == 2
      && 7 in g.reqs && Left(g, 7) && Servable(g, 0, 7) && g.reqs[7].home == 0 && Held(g.mgrs[0], 7) == 1
  {
    var g := Start(1, 2);
    var both := BothAdmitted();
    OneMore(g, [], Admit(7, 0, 1));
    es := [] + [Admit(7, 0, 1)];
    OneMore(g, es, Admit(8, 1, 1));
    es := es + [Admit(8, 1, 1)];
    BothCut(both);
    OneMore(g, es, ToBalloon([0, 0], HOLDERS, {0, 1}));
    es := es + [ToBalloon([0, 0], HOLDERS, {0, 1})];
    var fused := BothFused(Run(g, es));
    OneMore(g, es, FuseReserve);
    es := es + [FuseReserve];
    es := UntilRestored(es);
  }

  lemma UntilRestored(before: seq<Event>) returns (es: seq<Event>)
    requires IsRun(Start(1, 2), before) && Clear(Start(1, 2), before)
    requires Run(Start(1, 2), before)
          == Group(1, 2, Balloon, false, [Crammed(7), Crammed(8)], BOTH, map[], {}, HOLDERS, {0, 1})
    ensures IsRun(Start(1, 2), es) && Clear(Start(1, 2), es)
    ensures var g := Run(Start(1, 2), es);
      && Enabled(g, ToRestore(0)) && g.waiting == {} && g.k == 2
      && 7 in g.reqs && Left(g, 7) && Servable(g, 0, 7) && g.reqs[7].home == 0 && Held(g.mgrs[0], 7) == 1
  {
    var g := Start(1, 2);
    es := before;
    var alone := NoRoomYet(Run(g, es));
    OneMore(g, es, BeginReshard(7, 1));
    es := es + [BeginReshard(7, 1)];
    OneMore(g, es, Release(8));
    es := es + [Release(8)];
    var drained := DrainsAtOnce(alone);
    RoomThen(drained);
    OneMore(g, es, BeginDrain);
    es := es + [BeginDrain];
    OneMore(g, es, Drain(0));
    es := es + [Drain(0)];
    OneMore(g, es, Drain(1));
    es := es + [Drain(1)];
  }

  /** An engine gets there: RESTORE can begin with nobody waiting and request 7 left over, and resharding it
      then loses a cell. */
  lemma LeftoverHappens() returns (es: seq<Event>)
    ensures IsRun(Start(1, 2), es) && Clear(Start(1, 2), es)
    ensures var g := Run(Start(1, 2), es);
      && Enabled(g, ToRestore(0)) && g.waiting == {}
      && var h := Apply(g, ToRestore(0)); IsRun(h, Reshards(7, 1)) && !Partitioned(Run(h, Reshards(7, 1)))
  {
    es := UntilLeft();
    StartSafe(1, 2);
    RunSafe(Start(1, 2), es);
    LeftoverBreaks(Run(Start(1, 2), es), 0, 7);
  }
}

/** The phase conversions of one manager keep its invariant. */
module Phases {
  import opened Paging
  import opened Sorting
  import opened Counting
  import opened Pools
  import opened Ownership
  import opened Merging

  ghost predicate AllWhole(m: Tables) {
    forall r | r in m :: m[r].format == Whole
  }

  /** An instance on its own: one cell per block, nothing reserved. */
  ghost predicate Standalone(g: Geometry, s: State) {
    && g.k == 1 && Sound(g, s, map[], false) && !s.isFusion && AllWhole(s.table)
    && s.reserved == [] && s.maxReserved == 0
    && s.maxGpu == g.n
  }

  lemma WholeHits(g1: Geometry, g: Geometry, p: seq<nat>, c: nat)
    requires g1.n == g.n && g1.k == 1 && c < g.Cells()
    ensures c % g.n < g1.Cells() && Hits(g, Whole, p, c) == Hits(g1, Whole, p, c % g.n)
  {
    ColumnOfCell(g, c);
    SmallResidue(c % g.n, g.n);
  }

  lemma WholeSums(g1: Geometry, g: Geometry, m: Tables, c: nat)
    requires g1.n == g.n && g1.k == 1 && c < g.Cells() && AllWhole(m)
    ensures Sum(m, HitsAt(g, c)) == Sum(m, HitsAt(g1, c % g.n))
  {
    forall r | r in m ensures HitsAt(g, c)(m[r]) == HitsAt(g1, c % g.n)(m[r]) {
      WholeHits(g1, g, m[r].pages, c);
    }
    SumEqual(m, HitsAt(g, c), HitsAt(g1, c % g.n));
  }

  lemma SumOfNone(w: Slot -> nat)
    ensures Sum(map[], w) == 0
  {
  }

  /** Without extend pages the tables count none. */
  lemma NoExtendPages(g: Geometry, m: Tables)
    requires TableShape(g, 0, m)
    ensures Sum(m, CountFromAt(g.Cells())) == 0
  {
    BlocksWithinCells(g);
    forall r | r in m ensures CountFromAt(g.Cells())(m[r]) == 0 {
      CountOfSlot(m[r].pages, g.Cells());
    }
    SumZero(m, CountFromAt(g.Cells()));
  }

  lemma NoExtendCounted(g: Geometry, m: Tables)
    requires Sum(m, CountFromAt(g.Cells())) == 0
    ensures forall r | r in m :: AllBelow(m[r].pages, g.Cells())
  {
    forall r | r in m ensures AllBelow(m[r].pages, g.Cells()) {
      SumMember(m, CountFromAt(g.Cells()), r);
      CountFromBelow(m[r].pages, g.Cells());
      forall i | 0 <= i < |m[r].pages| ensures m[r].pages[i] < g.Cells() {
        assert m[r].pages[i] in m[r].pages;
      }
    }
  }

  // ---------- INITIAL to BALLOON ----------

  lemma CutPooled(g: Geometry, free: seq<nat>, quota: nat, cells: seq<nat>, c: nat)
    requires AllBelow(free, g.n)
    ensures Hits(g, Whole, Prefix(free, quota), c) + Hits(g, Cell, cells + Columns(Suffix(free, quota), g.n, g.k), c)
         == Hits(g, Whole, free, c) + Hits(g, Cell, cells, c)
  {
    ColumnsHits(g, Suffix(free, quota), c);
    HitsConcat(g, Cell, cells, Columns(Suffix(free, quota), g.n, g.k), c);
    NoHits(g, Whole, c);
    if quota <= |free| {
      HitsSplit(g, Whole, free, quota, c);
    }
  }

  lemma ConvertOwners(g1: Geometry, g: Geometry, s: State, c: nat)
    requires Standalone(g1, s) && g1.n == g.n && c < g.Cells()
    ensures Owners(g, ConvertToPipeline(s, g.k), map[], c) == 1
  {
    WholeHits(g1, g, s.free, c);
    WholeSums(g1, g, s.table, c);
    CutPooled(g, s.free, s.maxGpu, s.fusion, c);
    SumOfNone(HitsAt(g, c));
    SumOfNone(HitsAt(g1, c % g.n));
    NoHits(g, Cell, c);
    NoHits(g, Whole, c);
    assert Owners(g1, s, map[], c % g.n) == 1;
  }

  lemma ConvertShape(g1: Geometry, g: Geometry, s: State)
    requires Standalone(g1, s) && g1.n == g.n
    ensures var t := ConvertToPipeline(s, g.k);
      Shape(g, t, map[]) && Capacity(g, t) == g.Cells() && t.maxExtend == ExtendPages(g, t)
  {
    ColumnsShape(g, Suffix(s.free, s.maxGpu));
    NoExtendPages(g, s.table);
    var kept, cut := |Prefix(s.free, s.maxGpu)|, |Suffix(s.free, s.maxGpu)|;
    assert g.k * (g.n - cut) == g.k * g.n - cut * g.k;
  }

  lemma ConvertSound(g1: Geometry, g: Geometry, s: State)
    requires Standalone(g1, s) && g1.n == g.n
    ensures Sound(g, ConvertToPipeline(s, g.k), map[], false)
  {
    ConvertShape(g1, g, s);
    forall c: nat | c < g.Cells() ensures Owners(g, ConvertToPipeline(s, g.k), map[], c) == 1 {
      ConvertOwners(g1, g, s, c);
    }
  }

  /** Free blocks are different, so that there are no more than `n`. */
  lemma FreeBounded(g: Geometry, s: State, draining: bool)
    requires Sound(g, s, map[], draining) && !s.isFusion
    ensures |s.free| <= g.n
  {
    forall i | 0 <= i < |s.free| ensures multiset(s.free)[s.free[i]] <= 1 {
      SmallResidue(s.free[i], g.n);
      BlocksWithinCells(g);
      assert Owners(g, s, map[], s.free[i]) == 1;
    }
    forall i, j | 0 <= i < j < |s.free| ensures s.free[i] != s.free[j] {
      if s.free[i] == s.free[j] {
        RepeatedCount(s.free, i, j);
      }
    }
    Pigeonhole(s.free, g.n);
  }

  /** Every free block is held back in the reserve; no block is cut yet. */
  lemma ConvertHoldsBack(g1: Geometry, g: Geometry, s: State)
    requires Standalone(g1, s) && g1.n == g.n
    ensures var t := ConvertToPipeline(s, g.k);
      t.reserved == s.free && t.fusion == [] && t.free == [] && t.extend == [] && t.table == s.table
  {
    FreeBounded(g1, s, false);
  }

  // ---------- RESTORE to BALLOON ----------

  /** The number of blocks is recomputed from the counters without loss. */
  lemma ReserveTotal(g: Geometry, s: State)
    requires !s.isFusion && Capacity(g, s) == g.Cells()
    ensures s.maxGpu + s.maxReserved / g.k == g.n
  {
    ExactDivision(g.k, g.n - s.maxGpu);
    assert g.k * (g.n - s.maxGpu) == g.k * g.n - g.k * s.maxGpu;
  }

  lemma ConvertWithReserveOwners(g: Geometry, s: State, draining: bool, c: nat)
    requires Sound(g, s, map[], draining) && !s.isFusion && s.maxGpu + s.maxReserved / g.k == g.n
    ensures Owners(g, ConvertWithReserve(s, g.k), map[], c) == Owners(g, s, map[], c)
  {
    CutPooled(g, s.free, g.n, s.reserved, c);
    NoHits(g, Cell, c);
    NoHits(g, Whole, c);
  }

  lemma ConvertWithReserveShape(g: Geometry, s: State, draining: bool)
    requires Sound(g, s, map[], draining) && !s.isFusion && s.maxGpu + s.maxReserved / g.k == g.n
    ensures var t := ConvertWithReserve(s, g.k); Shape(g, t, map[]) && t.maxExtend == ExtendPages(g, t)
  {
    ColumnsShape(g, Suffix(s.free, g.n));
    NoExtendPages(g, s.table);
  }

  lemma Complement(g: Geometry, x: int)
    ensures (g.n - x) * g.k + g.k * x == g.Cells()
  {
  }

  lemma ConvertWithReserveSound(g: Geometry, s: State, draining: bool)
    requires Sound(g, s, map[], draining) && !s.isFusion
    ensures s.maxGpu + s.maxReserved / g.k == g.n
    ensures Sound(g, ConvertWithReserve(s, g.k), map[], false)
  {
    ReserveTotal(g, s);
    ConvertWithReserveShape(g, s, draining);
    forall c: nat ensures Owners(g, ConvertWithReserve(s, g.k), map[], c) == Owners(g, s, map[], c) {
      ConvertWithReserveOwners(g, s, draining, c);
    }
    Complement(g, ConvertWithReserve(s, g.k).maxReserved);
  }

  /** So is every free block on the way back from RESTORE, while the cells of its reserve become free. */
  lemma ConvertWithReserveHoldsBack(g: Geometry, s: State, draining: bool)
    requires Sound(g, s, map[], draining) && !s.isFusion
    ensures s.maxGpu + s.maxReserved / g.k == g.n
    ensures var t := ConvertWithReserve(s, g.k);
      t.reserved == s.free && t.fusion == s.reserved && t.free == [] && t.extend == [] && t.table == s.table
  {
    ReserveTotal(g, s);
    FreeBounded(g, s, draining);
    assert s.reserved + [] == s.reserved;
  }

  // ---------- BALLOON ----------

  lemma ExtendHitsZero(g: Geometry, m: Tables, e: nat)
    requires TableShape(g, 0, m) && e >= g.Cells()
    ensures Sum(m, HitsAt(g, e)) == 0
  {
    forall r | r in m ensures HitsAt(g, e)(m[r]) == 0 {
      if m[r].format == Cell {
        AbsentAbove(m[r].pages, g.Cells(), e);
      }
    }
    SumZero(m, HitsAt(g, e));
  }

  lemma AbsentAbove(p: seq<nat>, bound: nat, e: nat)
    requires AllBelow(p, bound) && e >= bound
    ensures multiset(p)[e] == 0
  {
    if e in multiset(p) {
      var i := IndexOf(p, e);
    }
  }

  lemma AbsentBelow(p: seq<nat>, bound: nat, c: nat)
    requires AllFrom(p, bound) && c < bound
    ensures multiset(p)[c] == 0
  {
    if c in multiset(p) {
      var i := IndexOf(p, c);
    }
  }

  lemma OutHitsZero(g: Geometry, out: Tables, e: nat)
    requires OutShape(g, out) && e >= g.Cells()
    ensures Sum(out, HitsAt(g, e)) == 0
  {
    SumZero(out, HitsAt(g, e));
  }

  lemma AddExtendPooled(g: Geometry, s: State, count: nat, c: nat)
    requires PoolShape(g, s) && s.isFusion && s.extend == [] && s.numExtend == 0
    ensures Pooled(g, AddExtend(s, count), c)
         == Pooled(g, s, c) + if g.Cells() <= c < g.Cells() + count then 1 else 0
    ensures c >= g.Cells() ==> Pooled(g, s, c) == 0
  {
    RangeMultiset(g.Cells(), count, c);
    assert s.extend + Range(s.numBase, count) == Range(g.Cells(), count);
    NoHits(g, Cell, c);
    if c >= g.Cells() {
      AbsentAbove(s.fusion, g.Cells(), c);
    }
  }

  lemma AddExtendOwners(g: Geometry, s: State, out: Tables, count: nat, c: nat)
    requires Sound(g, s, out, false) && s.isFusion && s.extend == [] && s.numExtend == 0
    ensures c < g.Cells() + count ==> Owners(g, AddExtend(s, count), out, c) == 1
  {
    AddExtendPooled(g, s, count, c);
    if c < g.Cells() {
      assert Owners(g, s, out, c) == 1;
    } else {
      ExtendHitsZero(g, s.table, c);
      OutHitsZero(g, out, c);
    }
  }

  lemma AddExtendSound(g: Geometry, s: State, out: Tables, count: nat)
    requires Sound(g, s, out, false) && s.isFusion && s.extend == [] && s.numExtend == 0
    ensures Sound(g, AddExtend(s, count), out, false)
  {
    var t := AddExtend(s, count);
    RangeMultiset(g.Cells(), count, 0);
    assert t.extend == Range(g.Cells(), count);
    NoExtendPages(g, s.table);
    forall c: nat | c < g.Cells() + count ensures Owners(g, t, out, c) == 1 {
      AddExtendOwners(g, s, out, count, c);
    }
  }

  /** The extend region is the `count` ids from `k*n` up, in order, and the counters say so. */
  lemma AddExtendExactly(g: Geometry, s: State, count: nat)
    requires PoolShape(g, s) && s.isFusion && s.extend == []
    ensures var t := AddExtend(s, count);
      && t == s.(extend := t.extend, maxExtend := count, numExtend := count)
      && |t.extend| == count && forall i | 0 <= i < count :: t.extend[i] == g.Cells() + i
  {
    RangeMultiset(g.Cells(), count, 0);
    RangeAt(g.Cells(), count);
    assert [] + Range(g.Cells(), count) == Range(g.Cells(), count);
  }

  lemma {:induction false} RangeAt(from: nat, count: nat)
    ensures |Range(from, count)| == count && forall i | 0 <= i < count :: Range(from, count)[i] == from + i
  {
    if count > 0 {
      RangeAt(from, count - 1);
    }
  }

  lemma ConvertAllMoves(g: Geometry, s: State, out: Tables)
    requires Shape(g, s, out) && s.isFusion
    ensures Moves(g, s, out, ConvertAllReserved(s), out)
  {
    var t := ConvertAllReserved(s);
    GeometryOf(g, s);
    ColumnsShape(g, s.reserved);
    forall c: nat ensures Owners(g, t, out, c) == Owners(g, s, out, c) {
      ColumnsHits(g, s.reserved, c);
      HitsConcat(g, Cell, s.fusion, Columns(s.reserved, g.n, g.k), c);
      NoHits(g, Whole, c);
    }
    assert s.maxReserved * g.k == g.k * s.maxReserved;
  }

  /** The reserve is empty afterwards, and the cells of every block of it are free: each as often as its block was
      there, next to those that were free before. */
  lemma ConvertAllCuts(g: Geometry, s: State, out: Tables)
    requires Shape(g, s, out) && s.isFusion
    ensures var t := ConvertAllReserved(s);
      && t == s.(fusion := t.fusion, reserved := [], maxFusion := s.maxFusion + g.k * s.maxReserved, maxReserved := 0)
      && s.fusion <= t.fusion && |t.fusion| == |s.fusion| + g.k * |s.reserved| && AllBelow(t.fusion, g.Cells())
      && (forall c: nat | c < g.Cells() :: c in t.fusion <==> c in s.fusion || c % g.n in s.reserved)
      && forall c: nat | c < g.Cells() ::
           multiset(t.fusion)[c] == multiset(s.fusion)[c] + multiset(s.reserved)[c % g.n]
  {
    var t := ConvertAllReserved(s);
    ConvertAllValue(g, s);
    ColumnsShape(g, s.reserved);
    forall c: nat | c < g.Cells()
      ensures multiset(t.fusion)[c] == multiset(s.fusion)[c] + multiset(s.reserved)[c % g.n]
      ensures c in t.fusion <==> c in s.fusion || c % g.n in s.reserved
    {
      CutCell(g, s.fusion, s.reserved, c);
    }
  }

  lemma ConvertAllValue(g: Geometry, s: State)
    requires PoolShape(g, s) && s.isFusion
    ensures ConvertAllReserved(s) == s.(
      fusion := s.fusion + Columns(s.reserved, g.n, g.k), reserved := [],
      maxFusion := s.maxFusion + g.k * s.maxReserved, maxReserved := 0)
  {
    GeometryOf(g, s);
    assert s.maxReserved * g.k == g.k * s.maxReserved;
  }

  lemma CutCell(g: Geometry, cells: seq<nat>, blocks: seq<nat>, c: nat)
    requires AllBelow(blocks, g.n) && c < g.Cells()
    ensures var r := cells + Columns(blocks, g.n, g.k);
      && multiset(r)[c] == multiset(cells)[c] + multiset(blocks)[c % g.n]
      && (c in r <==> c in cells || c % g.n in blocks)
  {
    var r := cells + Columns(blocks, g.n, g.k);
    ColumnsHits(g, blocks, c);
    HitsConcat(g, Cell, cells, Columns(blocks, g.n, g.k), c);
    assert c in r <==> c in multiset(r);
    assert c in cells <==> c in multiset(cells);
    assert c % g.n in blocks <==> c % g.n in multiset(blocks);
  }

  lemma DrainOwners(g: Geometry, s: State, out: Tables, c: nat)
    requires PoolShape(g, s)
    ensures Owners(g, s.(maxExtend := s.maxExtend - |s.extend|, extend := []), out, c)
         == Owners(g, s, out, c) - multiset(s.extend)[c]
    ensures c < g.Cells() ==> multiset(s.extend)[c] == 0
  {
    NoHits(g, Cell, c);
    if c < g.Cells() {
      AbsentBelow(s.extend, g.Cells(), c);
    }
  }

  /** Pages reclaimed while draining are out of reach for good; when the count is zero nobody is left with one. */
  lemma DrainSound(g: Geometry, s: State, out: Tables)
    requires Sound(g, s, out, true) && s.isFusion
    ensures Sound(g, DrainTurn(s), out, true)
    ensures s.maxExtend <= 0 ==> s.extend == [] && forall r | r in s.table :: AllBelow(s.table[r].pages, g.Cells())
  {
    if s.maxExtend > 0 {
      forall c: nat
        ensures Owners(g, DrainTurn(s), out, c) == Owners(g, s, out, c) - multiset(s.extend)[c]
        ensures c < g.Cells() ==> multiset(s.extend)[c] == 0
      {
        DrainOwners(g, s, out, c);
      }
    } else {
      NoExtendCounted(g, s.table);
      forall c: nat ensures Owners(g, DrainTurn(s), out, c) == Owners(g, s, out, c) {}
    }
  }

  // ---------- BALLOON to RESTORE ----------

  function EnterRestore(s: State, quota: nat): Option<State>
    requires s.fusionSize > 0 && s.numBase / s.fusionSize > 0
  {
    RestoreBlocks(s.(isFusion := false), quota)
  }

  lemma FusionDistinct(g: Geometry, s: State, out: Tables, draining: bool)
    requires Sound(g, s, out, draining) && s.isFusion
    ensures Mergeable(g, SortBy(s.fusion, ResidueKey(g.n)))
  {
    forall c: nat | c < g.Cells() ensures multiset(s.fusion)[c] <= 1 {
      assert Owners(g, s, out, c) == 1;
    }
    SortedReserve(g, s.fusion);
  }

  lemma SuffixMergeable(g: Geometry, p: seq<nat>, quota: nat)
    requires Mergeable(g, p)
    ensures Mergeable(g, Suffix(p, quota))
  {
    if quota <= |p| {
      var q := p[quota..];
      forall i | 0 <= i < |q| ensures q[i] == p[quota + i] {}
    }
  }

  ghost function RestoreCells(g: Geometry, s: State): seq<nat> {
    SortBy(s.fusion, ResidueKey(g.n))
  }

  ghost predicate RestoreReady(g: Geometry, s: State, quota: nat) {
    var rest := Suffix(RestoreCells(g, s), quota);
    && s.isFusion && s.fusionSize == g.k && s.numBase / g.k == g.n
    && Mergeable(g, RestoreCells(g, s)) && Mergeable(g, rest)
    && HoldsColumns(g, rest, Bases(rest, 0, g.n, g.k))
  }

  lemma ReadyToRestore(g: Geometry, s: State, out: Tables, draining: bool, quota: nat)
    requires Sound(g, s, out, draining) && s.isFusion
    ensures RestoreReady(g, s, quota)
  {
    GeometryOf(g, s);
    FusionDistinct(g, s, out, draining);
    SuffixMergeable(g, RestoreCells(g, s), quota);
    BasesHeld(g, Suffix(RestoreCells(g, s), quota));
  }

  lemma EnterRestoreValue(g: Geometry, s: State, quota: nat)
    requires s.fusionSize == g.k && s.numBase / g.k == g.n
    ensures
      var cells := RestoreCells(g, s);
      var rest := Suffix(cells, quota);
      var bases := Bases(rest, 0, g.n, g.k);
      var removed := RemoveColumns(rest, bases, g.n, g.k);
      removed.Some? ==>
        EnterRestore(s, quota) == Some(s.(
          isFusion := false, numBase := g.n, numReserved := quota, free := s.reserved + bases,
          maxGpu := s.maxReserved + |bases|, maxReserved := s.maxFusion - |rest| + |removed.value|,
          reserved := Prefix(cells, quota) + removed.value, reservedSet := {}, fusion := [], maxFusion := 0))
  {
  }

  lemma RestorePooled(g: Geometry, s: State, quota: nat, c: nat)
    requires RestoreReady(g, s, quota)
    ensures
      var cells := RestoreCells(g, s);
      var rest := Suffix(cells, quota);
      var bases := Bases(rest, 0, g.n, g.k);
      var removed := RemoveColumns(rest, bases, g.n, g.k);
      && removed.Some?
      && Hits(g, Whole, s.reserved + bases, c) + Hits(g, Cell, Prefix(cells, quota) + removed.value, c)
      == Hits(g, Whole, s.reserved, c) + Hits(g, Cell, s.fusion, c)
  {
    var cells := RestoreCells(g, s);
    SortMultiset(s.fusion, ResidueKey(g.n));
    var rest := Suffix(cells, quota);
    var bases := Bases(rest, 0, g.n, g.k);
    RemoveColumnsHits(g, rest, bases, c);
    HitsConcat(g, Whole, s.reserved, bases, c);
    HitsConcat(g, Cell, Prefix(cells, quota), RemoveColumns(rest, bases, g.n, g.k).value, c);
    NoHits(g, Cell, c);
    if quota <= |cells| {
      HitsSplit(g, Cell, cells, quota, c);
    }
  }

  lemma RestoreOwners(g: Geometry, s: State, out: Tables, quota: nat, c: nat)
    requires RestoreReady(g, s, quota) && s.free == [] && s.extend == []
    ensures EnterRestore(s, quota).Some?
    ensures Owners(g, EnterRestore(s, quota).value, out, c) == Owners(g, s, out, c)
  {
    RestorePooled(g, s, quota, c);
    EnterRestoreValue(g, s, quota);
    NoHits(g, Cell, c);
    NoHits(g, Whole, c);
  }

  lemma NoExtendAtAll(g: Geometry, s: State)
    requires PoolShape(g, s) && s.numExtend == 0
    ensures s.extend == []
  {
    CountOfSlot(s.extend, g.Cells());
  }

  lemma RestoreShape(g: Geometry, s: State, out: Tables, quota: nat)
    requires RestoreReady(g, s, quota) && Shape(g, s, out) && s.numExtend == 0 && s.maxExtend == 0
    ensures EnterRestore(s, quota).Some?
    ensures Shape(g, EnterRestore(s, quota).value, out)
  {
    var rest := Suffix(RestoreCells(g, s), quota);
    RemoveColumnsShape(g, rest, Bases(rest, 0, g.n, g.k));
    EnterRestoreValue(g, s, quota);
    NoExtendAtAll(g, s);
  }

  lemma CapacityTrade(k: nat, reserved: int, fusion: int, bases: nat, rest: nat, left: nat)
    requires left + k * bases == rest
    ensures k * (reserved + bases) + (fusion - rest + left) == fusion + k * reserved
  {
    assert k * (reserved + bases) == k * reserved + k * bases;
  }

  lemma RestoreCounters(g: Geometry, s: State, quota: nat) returns (bases: nat, rest: nat, left: nat)
    requires RestoreReady(g, s, quota)
    ensures EnterRestore(s, quota).Some? && left + g.k * bases == rest
    ensures var t := EnterRestore(s, quota).value;
      !t.isFusion && t.maxGpu == s.maxReserved + bases && t.maxReserved == s.maxFusion - rest + left
  {
    var cells := Suffix(RestoreCells(g, s), quota);
    RemoveColumnsShape(g, cells, Bases(cells, 0, g.n, g.k));
    EnterRestoreValue(g, s, quota);
    bases, rest := |Bases(cells, 0, g.n, g.k)|, |cells|;
    left := |RemoveColumns(cells, Bases(cells, 0, g.n, g.k), g.n, g.k).value|;
  }

  lemma RestoreCapacity(g: Geometry, s: State, quota: nat)
    requires RestoreReady(g, s, quota)
    ensures EnterRestore(s, quota).Some?
    ensures Capacity(g, EnterRestore(s, quota).value) == Capacity(g, s)
  {
    var bases, rest, left := RestoreCounters(g, s, quota);
    CapacityTrade(g.k, s.maxReserved, s.maxFusion, bases, rest, left);
  }

  /** Restoring the format of the blocks never raises and keeps every owner. */
  lemma RestoreSound(g: Geometry, s: State, out: Tables, quota: nat)
    requires Sound(g, s, out, true) && s.isFusion && s.numExtend == 0
    ensures s.numBase / s.fusionSize == g.n
    ensures EnterRestore(s, quota).Some? && Sound(g, EnterRestore(s, quota).value, out, true)
  {
    GeometryOf(g, s);
    NoExtendAtAll(g, s);
    NoExtendPages(g, s.table);
    ReadyToRestore(g, s, out, true, quota);
    RestoreShape(g, s, out, quota);
    RestoreCapacity(g, s, quota);
    forall c: nat ensures Owners(g, EnterRestore(s, quota).value, out, c) == Owners(g, s, out, c) {
      RestoreOwners(g, s, out, quota, c);
    }
  }

  // ---------- RESTORE to INITIAL ----------

  lemma BelowHits(p: seq<nat>, bound: nat, c: nat)
    ensures multiset(Below(p, bound))[c] == if c < bound then multiset(p)[c] else 0
  {
    BelowSplits(p, bound);
    BelowRange(p, bound);
    if c < bound {
      AbsentBelow(NotBelow(p, bound), bound, c);
      assert multiset(p)[c] == multiset(Below(p, bound))[c] + multiset(NotBelow(p, bound))[c];
    } else {
      AbsentAbove(Below(p, bound), bound, c);
    }
  }

  lemma {:induction false} BelowRange(p: seq<nat>, bound: nat)
    ensures AllBelow(Below(p, bound), bound) && AllFrom(NotBelow(p, bound), bound)
  {
    if p != [] {
      BelowRange(p[..|p| - 1], bound);
    }
  }

  lemma SplitOwners(g1: Geometry, g: Geometry, s: State, draining: bool, c: nat)
    requires Sound(g, s, map[], draining) && !s.isFusion && AllWhole(s.table)
    requires g1.n == g.n && g1.k == 1 && c < g.n
    ensures RestoreFromFusion(s).Some? && Owners(g1, RestoreFromFusion(s).value, map[], c) == 1
  {
    ReserveTotal(g, s);
    BlocksWithinCells(g);
    SmallResidue(c, g.n);
    WholeSums(g1, g, s.table, c);
    BelowHits(s.reserved, g.n, c);
    HitsConcat(g1, Whole, s.free, Below(s.reserved, g.n), c);
    NoHits(g1, Cell, c);
    SumOfNone(HitsAt(g, c));
    SumOfNone(HitsAt(g1, c));
    assert Owners(g, s, map[], c) == 1;
  }

  /** The assertion of `restore_from_fusion` never fails, and once no request holds cells every
      block is back: the instance stands alone with blocks `0..n`. */
  lemma SplitSound(g1: Geometry, g: Geometry, s: State, draining: bool)
    requires Sound(g, s, map[], draining) && !s.isFusion && AllWhole(s.table)
    requires g1.n == g.n && g1.k == 1
    ensures RestoreFromFusion(s).Some? && Standalone(g1, RestoreFromFusion(s).value)
  {
    ReserveTotal(g, s);
    BelowRange(s.reserved, g.n);
    forall c: nat | c < g1.Cells() ensures Owners(g1, RestoreFromFusion(s).value, map[], c) == 1 {
      SplitOwners(g1, g, s, draining, c);
    }
  }
}

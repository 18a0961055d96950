/**
  The safety invariant of one manager: every cell of the base region has exactly one owner among
  the pools, the block tables and the pages handed out but not yet installed (`out`).
 */
module Ownership {
  import opened Paging
  import opened Pools

  ghost function ReservedFormat(s: State): Format {
    if s.isFusion then Whole else Cell
  }

  ghost function Pooled(g: Geometry, s: State, c: nat): nat {
    Hits(g, Whole, s.free, c) + Hits(g, ReservedFormat(s), s.reserved, c)
    + Hits(g, Cell, s.fusion, c) + Hits(g, Cell, s.extend, c)
  }

  ghost function Owners(g: Geometry, s: State, out: Tables, c: nat): nat {
    Pooled(g, s, c) + Sum(s.table, HitsAt(g, c)) + Sum(out, HitsAt(g, c))
  }

  ghost predicate AllBelow(p: seq<nat>, bound: nat) {
    forall i | 0 <= i < |p| :: p[i] < bound
  }

  ghost predicate AllFrom(p: seq<nat>, bound: nat) {
    forall i | 0 <= i < |p| :: p[i] >= bound
  }

  ghost predicate SlotShape(g: Geometry, numExtend: nat, s: Slot) {
    AllBelow(s.pages, if s.format == Whole then g.n else g.Cells() + numExtend)
  }

  ghost predicate TableShape(g: Geometry, numExtend: nat, m: Tables) {
    forall r | r in m :: SlotShape(g, numExtend, m[r])
  }

  ghost predicate OutShape(g: Geometry, out: Tables) {
    forall r | r in out :: out[r].format == Whole && AllBelow(out[r].pages, g.n)
  }

  /** Which ids may sit in which pool. */
  ghost predicate PoolShape(g: Geometry, s: State) {
    && s.fusionSize == g.k
    && s.numBase == (if s.isFusion then g.Cells() else g.n)
    && AllBelow(s.free, g.n)
    && AllBelow(s.reserved, if s.isFusion then g.n else g.Cells())
    && AllBelow(s.fusion, g.Cells())
    && AllFrom(s.extend, g.Cells()) && AllBelow(s.extend, g.Cells() + s.numExtend)
    && (s.isFusion ==>
          && s.free == []
          && s.numReserved == g.n
          && forall b | b in s.reservedSet :: b < g.n)
    && (!s.isFusion ==> s.fusion == [] && s.extend == [] && s.numExtend == 0 && s.maxExtend == 0)
  }

  ghost predicate Shape(g: Geometry, s: State, out: Tables) {
    PoolShape(g, s) && TableShape(g, s.numExtend, s.table) && OutShape(g, out)
  }

  /** The linear combination of the counters that no operation changes. */
  ghost function Capacity(g: Geometry, s: State): int {
    if s.isFusion then s.maxFusion + g.k * s.maxReserved else g.k * s.maxGpu + s.maxReserved
  }

  ghost function ExtendPages(g: Geometry, s: State): nat {
    |s.extend| + Sum(s.table, CountFromAt(g.Cells()))
  }

  ghost predicate Sound(g: Geometry, s: State, out: Tables, draining: bool) {
    && Shape(g, s, out)
    && (forall c: nat | c < g.Cells() :: Owners(g, s, out, c) == 1)
    && (forall e: nat | g.Cells() <= e < g.Cells() + s.numExtend ::
          Owners(g, s, out, e) <= 1 && (!draining ==> Owners(g, s, out, e) == 1))
    && Capacity(g, s) == g.Cells()
    && (s.isFusion ==> s.maxExtend == ExtendPages(g, s))
  }

  ghost predicate SameMode(g: Geometry, s: State, t: State) {
    && t.isFusion == s.isFusion && t.numExtend == s.numExtend && t.maxExtend == s.maxExtend
    && Capacity(g, t) == Capacity(g, s)
  }

  /** What an operation that only moves pages around guarantees. */
  ghost predicate Moves(g: Geometry, s: State, out: Tables, t: State, out': Tables) {
    && Shape(g, t, out')
    && SameMode(g, s, t)
    && (forall c: nat :: Owners(g, t, out', c) == Owners(g, s, out, c))
    && (s.isFusion ==> ExtendPages(g, t) == ExtendPages(g, s))
  }

  lemma MovesSound(g: Geometry, s: State, out: Tables, t: State, out': Tables, draining: bool)
    requires Sound(g, s, out, draining) && Moves(g, s, out, t, out')
    ensures Sound(g, t, out', draining)
  {
  }

  lemma HitsConcat(g: Geometry, format: Format, a: seq<nat>, b: seq<nat>, c: nat)
    ensures Hits(g, format, a + b, c) == Hits(g, format, a, c) + Hits(g, format, b, c)
  {
  }

  lemma HitsSplit(g: Geometry, format: Format, p: seq<nat>, i: nat, c: nat)
    requires i <= |p|
    ensures Hits(g, format, p, c) == Hits(g, format, p[..i], c) + Hits(g, format, p[i..], c)
  {
    assert p == p[..i] + p[i..];
  }

  lemma NoHits(g: Geometry, format: Format, c: nat)
    ensures Hits(g, format, [], c) == 0
  {
  }

  lemma BlocksWithinCells(g: Geometry)
    ensures g.n <= g.Cells()
  {
    MulMonotone(1, g.k, g.n);
  }

  lemma CountOfSlot(p: seq<nat>, bound: nat)
    ensures AllBelow(p, bound) ==> CountFrom(p, bound) == 0
    ensures AllFrom(p, bound) ==> CountFrom(p, bound) == |p|
  {
    CountFromBelow(p, bound);
    forall x | x in p && AllBelow(p, bound) ensures x < bound {
      var i :| 0 <= i < |p| && p[i] == x;
    }
    forall x | x in p && AllFrom(p, bound) ensures x >= bound {
      var i :| 0 <= i < |p| && p[i] == x;
    }
  }

  // ---------- the two ways pages move ----------

  /** Pages leave the pools (`s` to `u`) and join the table of `r`. */
  lemma GrantMoves(g: Geometry, s: State, u: State, out: Tables, r: RequestId, format: Format, pages: seq<nat>)
    requires Shape(g, s, out) && PoolShape(g, u) && SameMode(g, s, u) && u.table == s.table
    requires r in s.table ==> s.table[r].format == format
    requires SlotShape(g, s.numExtend, Slot(format, pages))
    requires forall c: nat :: Pooled(g, s, c) == Pooled(g, u, c) + Hits(g, format, pages, c)
    requires s.isFusion ==> |s.extend| == |u.extend| + CountFrom(pages, g.Cells())
    ensures Moves(g, s, out, Grant(u, r, format, pages), out)
  {
    var t := Grant(u, r, format, pages);
    GrantShape(g, s, u, out, r, format, pages);
    forall c: nat ensures Owners(g, t, out, c) == Owners(g, s, out, c) {
      GrantSum(g, u, r, format, pages, c);
    }
    GrantSum(g, u, r, format, pages, 0);
  }

  lemma GrantShape(g: Geometry, s: State, u: State, out: Tables, r: RequestId, format: Format, pages: seq<nat>)
    requires Shape(g, s, out) && PoolShape(g, u) && SameMode(g, s, u) && u.table == s.table
    requires r in s.table ==> s.table[r].format == format
    requires SlotShape(g, s.numExtend, Slot(format, pages))
    ensures Shape(g, Grant(u, r, format, pages), out)
  {
  }

  lemma GrantSum(g: Geometry, s: State, r: RequestId, format: Format, pages: seq<nat>, c: nat)
    requires r in s.table ==> s.table[r].format == format
    ensures Sum(Grant(s, r, format, pages).table, HitsAt(g, c))
         == Sum(s.table, HitsAt(g, c)) + Hits(g, format, pages, c)
    ensures Sum(Grant(s, r, format, pages).table, CountFromAt(g.Cells()))
         == Sum(s.table, CountFromAt(g.Cells())) + CountFrom(pages, g.Cells())
  {
    var slot := Grant(s, r, format, pages).table[r];
    SumSplit(s.table, HitsAt(g, c), r);
    SumPut(s.table, HitsAt(g, c), r, slot);
    SumSplit(s.table, CountFromAt(g.Cells()), r);
    SumPut(s.table, CountFromAt(g.Cells()), r, slot);
    if r in s.table {
      CountFromConcat(s.table[r].pages, pages, g.Cells());
    }
  }

  function Dropped(s: State, r: RequestId): State {
    s.(table := s.table - {r})
  }

  /** The pages of `r` go back to the pools, giving `u`. */
  lemma ReleaseMoves(g: Geometry, s: State, u: State, out: Tables, r: RequestId)
    requires Shape(g, s, out) && PoolShape(g, u) && SameMode(g, s, u)
    requires r in s.table && u.table == s.table - {r}
    requires forall c: nat :: Pooled(g, u, c) == Pooled(g, s, c) + Hits(g, s.table[r].format, s.table[r].pages, c)
    requires s.isFusion ==> |u.extend| == |s.extend| + CountFrom(s.table[r].pages, g.Cells())
    ensures Moves(g, s, out, u, out)
  {
    forall c: nat ensures Owners(g, u, out, c) == Owners(g, s, out, c) {
      SumSplit(s.table, HitsAt(g, c), r);
    }
    SumSplit(s.table, CountFromAt(g.Cells()), r);
  }

  // ---------- the start ----------

  lemma {:induction false} RangeMultiset(from: nat, count: nat, x: nat)
    ensures multiset(Range(from, count))[x] == if from <= x < from + count then 1 else 0
    ensures |Range(from, count)| == count
    ensures AllFrom(Range(from, count), from) && AllBelow(Range(from, count), from + count)
  {
    if count > 0 {
      RangeMultiset(from, count - 1, x);
    }
  }

  lemma InitialOwner(g: Geometry, c: nat)
    requires g.k == 1 && c < g.Cells()
    ensures Owners(g, Initial(g.n), map[], c) == 1
  {
    RangeMultiset(0, g.n, c);
    DivMod(0, g.n, c);
  }

  lemma InitialSound(g: Geometry)
    requires g.k == 1
    ensures Sound(g, Initial(g.n), map[], false)
  {
    forall c: nat | c < g.Cells() ensures Owners(g, Initial(g.n), map[], c) == 1 {
      InitialOwner(g, c);
    }
    RangeMultiset(0, g.n, 0);
  }

  // ---------- allocation ----------

  /** The first `m` fusion cells and the first `e` extend pages leave the pools. */
  ghost function TakeCells(s: State, m: nat, e: nat): State
    requires m <= |s.fusion| && e <= |s.extend|
  {
    s.(fusion := s.fusion[m..], extend := s.extend[e..])
  }

  lemma TakeCellsPooled(g: Geometry, s: State, m: nat, e: nat, c: nat)
    requires m <= |s.fusion| && e <= |s.extend|
    ensures Pooled(g, s, c) == Pooled(g, TakeCells(s, m, e), c) + Hits(g, Cell, s.fusion[..m] + s.extend[..e], c)
  {
    HitsSplit(g, Cell, s.fusion, m, c);
    HitsSplit(g, Cell, s.extend, e, c);
    HitsConcat(g, Cell, s.fusion[..m], s.extend[..e], c);
  }

  lemma TakeCellsMoves(g: Geometry, s: State, out: Tables, r: RequestId, m: nat, e: nat)
    requires Shape(g, s, out) && s.isFusion && m <= |s.fusion| && e <= |s.extend|
    requires r in s.table ==> s.table[r].format == Cell
    ensures Moves(g, s, out, Grant(TakeCells(s, m, e), r, Cell, s.fusion[..m] + s.extend[..e]), out)
  {
    forall c: nat
      ensures Pooled(g, s, c) == Pooled(g, TakeCells(s, m, e), c) + Hits(g, Cell, s.fusion[..m] + s.extend[..e], c)
    {
      TakeCellsPooled(g, s, m, e, c);
    }
    CountFromConcat(s.fusion[..m], s.extend[..e], g.Cells());
    CountOfSlot(s.fusion[..m], g.Cells());
    CountOfSlot(s.extend[..e], g.Cells());
    GrantMoves(g, s, TakeCells(s, m, e), out, r, Cell, s.fusion[..m] + s.extend[..e]);
  }

  /** The pages one allocation takes, cells first. */
  lemma FusionTakes(s: State, r: RequestId, need: nat) returns (m: nat, e: nat)
    requires AllocateFusion(s, r, need).Some? && !(r in s.table && Held(s, r) >= need)
    ensures m <= |s.fusion| && e <= |s.extend| && m + e == need - Held(s, r) && (e > 0 ==> m == |s.fusion|)
    ensures AllocateFusion(s, r, need).value == Grant(TakeCells(s, m, e), r, Cell, s.fusion[..m] + s.extend[..e])
  {
    var count := need - Held(s, r);
    if count <= |s.fusion| {
      m, e := count, 0;
      assert s.fusion[..m] + s.extend[..0] == s.fusion[..m];
      assert s.extend[0..] == s.extend;
    } else {
      m, e := |s.fusion|, count - |s.fusion|;
      assert s.fusion[..m] == s.fusion && s.fusion[m..] == [];
    }
  }

  lemma AllocateFusionMoves(g: Geometry, s: State, out: Tables, r: RequestId, need: nat)
    requires Shape(g, s, out) && s.isFusion && AllocateFusion(s, r, need).Some?
    requires r in s.table ==> s.table[r].format == Cell
    ensures Moves(g, s, out, AllocateFusion(s, r, need).value, out)
  {
    if !(r in s.table && Held(s, r) >= need) {
      var m, e := FusionTakes(s, r, need);
      TakeCellsMoves(g, s, out, r, m, e);
    }
  }

  lemma AllocateReservedMoves(g: Geometry, s: State, out: Tables, r: RequestId, need: nat)
    requires Shape(g, s, out)
    requires AllocateReserved(s, r, ReservedFormat(s), need).Some?
    requires r in s.table ==> s.table[r].format == ReservedFormat(s)
    ensures Moves(g, s, out, AllocateReserved(s, r, ReservedFormat(s), need).value, out)
  {
    if !(r in s.table && Held(s, r) >= need) {
      ReservedTaken(g, s, out, r, need - Held(s, r));
    }
  }

  lemma ReservedTaken(g: Geometry, s: State, out: Tables, r: RequestId, count: nat)
    requires Shape(g, s, out) && count <= |s.reserved|
    requires r in s.table ==> s.table[r].format == ReservedFormat(s)
    ensures Moves(g, s, out, Grant(s.(reserved := s.reserved[count..]), r, ReservedFormat(s), s.reserved[..count]), out)
  {
    var pages := s.reserved[..count];
    var u := s.(reserved := s.reserved[count..]);
    forall c: nat ensures Pooled(g, s, c) == Pooled(g, u, c) + Hits(g, ReservedFormat(s), pages, c) {
      HitsSplit(g, ReservedFormat(s), s.reserved, count, c);
    }
    BlocksWithinCells(g);
    CountOfSlot(pages, g.Cells());
    GrantMoves(g, s, u, out, r, ReservedFormat(s), pages);
  }

  lemma AllocateFreeMoves(g: Geometry, s: State, out: Tables, r: RequestId, need: nat)
    requires Shape(g, s, out) && !s.isFusion && AllocateFree(s, r, need).Some?
    requires r in s.table ==> s.table[r].format == Whole
    ensures Moves(g, s, out, AllocateFree(s, r, need).value, out)
  {
    if !(r in s.table && Held(s, r) >= need) {
      FreeTaken(g, s, out, r, need - Held(s, r));
    }
  }

  lemma FreeTaken(g: Geometry, s: State, out: Tables, r: RequestId, count: nat)
    requires Shape(g, s, out) && !s.isFusion && count <= |s.free|
    requires r in s.table ==> s.table[r].format == Whole
    ensures Moves(g, s, out, Grant(s.(free := s.free[count..]), r, Whole, s.free[..count]), out)
  {
    var pages := s.free[..count];
    var u := s.(free := s.free[count..]);
    forall c: nat ensures Pooled(g, s, c) == Pooled(g, u, c) + Hits(g, Whole, pages, c) {
      HitsSplit(g, Whole, s.free, count, c);
    }
    GrantMoves(g, s, u, out, r, Whole, pages);
  }

  /** The format in which an allocation hands out pages, and in which a release takes them back. */
  ghost function GivenFormat(s: State, fused: bool, onlyNew: bool): Format {
    if fused || (s.isFusion && onlyNew) then Cell else Whole
  }

  /** The pages an allocation can draw from, in the order in which it takes them. */
  ghost function PoolFor(s: State, fused: bool, onlyNew: bool): seq<nat> {
    if !s.isFusion then (if fused then s.reserved else s.free)
    else if fused || onlyNew then s.fusion + s.extend else s.reserved
  }

  /** Only the pool the request draws from and its own table are different. */
  ghost predicate OnlyDrawn(s: State, t: State, r: RequestId, fused: bool, onlyNew: bool) {
    && r in t.table
    && t == s.(free := t.free, reserved := t.reserved, fusion := t.fusion, extend := t.extend,
               table := s.table[r := t.table[r]])
    && (s.isFusion || fused ==> t.free == s.free)
    && (s.isFusion ==> fused || onlyNew || (t.fusion == s.fusion && t.extend == s.extend))
    && (!s.isFusion ==> t.fusion == s.fusion && t.extend == s.extend)
    && ((if s.isFusion then fused || onlyNew else !fused) ==> t.reserved == s.reserved)
  }

  /** What the request gets when it lacks `count` pages and the pool has them. */
  ghost predicate Drawn(s: State, t: State, r: RequestId, fused: bool, onlyNew: bool, count: nat) {
    var pool := PoolFor(s, fused, onlyNew);
    && OnlyDrawn(s, t, r, fused, onlyNew) && count <= |pool|
    && t.table[r].pages == (if r in s.table then s.table[r].pages else []) + pool[..count]
    && PoolFor(t, fused, onlyNew) == pool[count..]
    && (|t.extend| < |s.extend| ==> t.fusion == [])
  }

  lemma Granted(s: State, r: RequestId, format: Format, pages: seq<nat>)
    ensures var t := Grant(s, r, format, pages);
      && t == s.(table := s.table[r := t.table[r]])
      && t.table[r].pages == (if r in s.table then s.table[r].pages else []) + pages
  {
    assert [] + pages == pages;
  }

  /** The front of two lists, of which the second is touched only when the first is used up. */
  lemma FrontOfBoth(p: seq<nat>, q: seq<nat>, m: nat, e: nat)
    requires m <= |p| && e <= |q| && (e > 0 ==> m == |p|)
    ensures (p + q)[..m + e] == p[..m] + q[..e] && (p + q)[m + e..] == p[m..] + q[e..]
  {
  }

  lemma FusionDrawn(s: State, r: RequestId, need: nat, onlyNew: bool, fused: bool)
    requires s.isFusion && (fused || onlyNew) && !(r in s.table && Held(s, r) >= need)
    ensures AllocateFusion(s, r, need).Some? <==> need - Held(s, r) <= |s.fusion| + |s.extend|
    ensures AllocateFusion(s, r, need).Some? ==>
      Drawn(s, AllocateFusion(s, r, need).value, r, fused, onlyNew, need - Held(s, r))
  {
    if AllocateFusion(s, r, need).Some? {
      var m, e := FusionTakes(s, r, need);
      FrontOfBoth(s.fusion, s.extend, m, e);
      Granted(TakeCells(s, m, e), r, Cell, s.fusion[..m] + s.extend[..e]);
    }
  }

  lemma ReservedDrawn(s: State, r: RequestId, format: Format, need: nat, fused: bool, onlyNew: bool)
    requires PoolFor(s, fused, onlyNew) == s.reserved && s.isFusion != fused && !(s.isFusion && onlyNew)
    requires !(r in s.table && Held(s, r) >= need)
    ensures AllocateReserved(s, r, format, need).Some? <==> need - Held(s, r) <= |s.reserved|
    ensures AllocateReserved(s, r, format, need).Some? ==>
      Drawn(s, AllocateReserved(s, r, format, need).value, r, fused, onlyNew, need - Held(s, r))
  {
    var count := need - Held(s, r);
    if count <= |s.reserved| {
      Granted(s.(reserved := s.reserved[count..]), r, format, s.reserved[..count]);
    }
  }

  lemma FreeDrawn(s: State, r: RequestId, need: nat, onlyNew: bool)
    requires !s.isFusion && !(r in s.table && Held(s, r) >= need)
    ensures AllocateFree(s, r, need).Some? <==> need - Held(s, r) <= |s.free|
    ensures AllocateFree(s, r, need).Some? ==>
      Drawn(s, AllocateFree(s, r, need).value, r, false, onlyNew, need - Held(s, r))
  {
    var count := need - Held(s, r);
    if count <= |s.free| {
      Granted(s.(free := s.free[count..]), r, Whole, s.free[..count]);
    }
  }

  /** An allocation succeeds exactly when what the request lacks is in the pool it draws from. It then gets just
      that, from the front of the pool, and extend pages only when no cell is left. */
  lemma AllocateExactly(s: State, r: RequestId, fused: bool, onlyNew: bool, need: nat)
    ensures var a, served := Allocate(s, r, fused, onlyNew, need), r in s.table && Held(s, r) >= need;
      && (a.Some? <==> need <= Held(s, r) + |PoolFor(s, fused, onlyNew)|)
      && (served ==> a == Some(s))
      && (a.Some? && !served ==> need >= Held(s, r) && Drawn(s, a.value, r, fused, onlyNew, need - Held(s, r)))
  {
    if !(r in s.table && Held(s, r) >= need) {
      if s.isFusion && (fused || onlyNew) {
        FusionDrawn(s, r, need, onlyNew, fused);
      } else if s.isFusion || fused {
        ReservedDrawn(s, r, if fused then Cell else Whole, need, fused, onlyNew);
      } else {
        FreeDrawn(s, r, need, onlyNew);
      }
    }
  }

  lemma AllocateMoves(g: Geometry, s: State, out: Tables, r: RequestId, fused: bool, onlyNew: bool, need: nat)
    requires Shape(g, s, out) && Allocate(s, r, fused, onlyNew, need).Some?
    requires r in s.table ==> s.table[r].format == GivenFormat(s, fused, onlyNew)
    ensures Moves(g, s, out, Allocate(s, r, fused, onlyNew, need).value, out)
  {
    if s.isFusion && (onlyNew || fused) {
      AllocateFusionMoves(g, s, out, r, need);
    } else if s.isFusion || fused {
      AllocateReservedMoves(g, s, out, r, need);
    } else {
      AllocateFreeMoves(g, s, out, r, need);
    }
  }

  // ---------- release ----------

  lemma {:induction false} ReturnCellsPools(s: State, pages: seq<nat>)
    ensures var t := ReturnCells(s, pages);
      && t == s.(fusion := s.fusion + Below(pages, s.numBase), extend := s.extend + NotBelow(pages, s.numBase))
  {
    if pages == [] {
      assert s.fusion + [] == s.fusion && s.extend + [] == s.extend;
    } else {
      ReturnCellsPools(s, pages[..|pages| - 1]);
    }
  }

  ghost function NotBelow(p: seq<nat>, bound: nat): seq<nat> {
    if p == [] then []
    else NotBelow(p[..|p| - 1], bound) + (if p[|p| - 1] < bound then [] else [p[|p| - 1]])
  }

  lemma {:induction false} NoneAbove(p: seq<nat>, bound: nat)
    requires AllBelow(p, bound)
    ensures NotBelow(p, bound) == [] && Below(p, bound) == p
  {
    if p != [] {
      NoneAbove(p[..|p| - 1], bound);
    }
  }

  lemma {:induction false} BelowAll(p: seq<nat>, bound: nat)
    requires AllFrom(p, bound)
    ensures Below(p, bound) == [] && NotBelow(p, bound) == p
  {
    if p != [] {
      BelowAll(p[..|p| - 1], bound);
    }
  }

  lemma {:induction false} BelowConcat(p: seq<nat>, q: seq<nat>, bound: nat)
    ensures Below(p + q, bound) == Below(p, bound) + Below(q, bound)
    ensures NotBelow(p + q, bound) == NotBelow(p, bound) + NotBelow(q, bound)
  {
    if q == [] {
      assert p + q == p && Below(p, bound) + [] == Below(p, bound) && NotBelow(p, bound) + [] == NotBelow(p, bound);
    } else {
      var front, last := q[..|q| - 1], q[|q| - 1];
      BelowConcat(p, front, bound);
      BelowLast(p + front, last, bound);
      BelowLast(front, last, bound);
      assert q == front + [last];
      ConcatTwice(p, front, [last]);
      ConcatTwice(Below(p, bound), Below(front, bound), if last < bound then [last] else []);
      ConcatTwice(NotBelow(p, bound), NotBelow(front, bound), if last < bound then [] else [last]);
    }
  }

  lemma ConcatTwice(a: seq<nat>, b: seq<nat>, c: seq<nat>)
    ensures a + (b + c) == (a + b) + c
  {
  }

  lemma BelowLast(p: seq<nat>, x: nat, bound: nat)
    ensures Below(p + [x], bound) == Below(p, bound) + (if x < bound then [x] else [])
    ensures NotBelow(p + [x], bound) == NotBelow(p, bound) + (if x < bound then [] else [x])
  {
    assert (p + [x])[..|p|] == p;
  }

  lemma {:induction false} BelowSplits(p: seq<nat>, bound: nat)
    ensures multiset(Below(p, bound)) + multiset(NotBelow(p, bound)) == multiset(p)
    ensures |NotBelow(p, bound)| == CountFrom(p, bound)
  {
    if p != [] {
      BelowSplits(p[..|p| - 1], bound);
      assert p == p[..|p| - 1] + [p[|p| - 1]];
    }
  }

  lemma {:induction false} BelowShape(p: seq<nat>, bound: nat, limit: nat)
    requires AllBelow(p, limit)
    ensures AllBelow(Below(p, bound), bound)
    ensures AllFrom(NotBelow(p, bound), bound) && AllBelow(NotBelow(p, bound), limit)
  {
    if p != [] {
      BelowShape(p[..|p| - 1], bound, limit);
    }
  }

  lemma ReturnedPooled(g: Geometry, s: State, u: State, pages: seq<nat>, c: nat)
    requires u.fusion == s.fusion + Below(pages, g.Cells()) && u.extend == s.extend + NotBelow(pages, g.Cells())
    requires u.free == s.free && u.reserved == s.reserved && u.isFusion == s.isFusion
    ensures Pooled(g, u, c) == Pooled(g, s, c) + Hits(g, Cell, pages, c)
  {
    BelowSplits(pages, g.Cells());
    HitsConcat(g, Cell, s.fusion, Below(pages, g.Cells()), c);
    HitsConcat(g, Cell, s.extend, NotBelow(pages, g.Cells()), c);
  }

  lemma FreeCellsMoves(g: Geometry, s: State, out: Tables, r: RequestId, fused: bool, onlyNew: bool)
    requires Shape(g, s, out) && s.isFusion && (fused || onlyNew)
    requires r in s.table && s.table[r].format == Cell
    ensures Moves(g, s, out, Free(s, r, fused, onlyNew).value, out)
  {
    var pages := s.table[r].pages;
    var u := Free(s, r, fused, onlyNew).value;
    ReturnCellsPools(Dropped(s, r), pages);
    BelowSplits(pages, g.Cells());
    BelowShape(pages, g.Cells(), g.Cells() + s.numExtend);
    forall c: nat ensures Pooled(g, u, c) == Pooled(g, s, c) + Hits(g, Cell, pages, c) {
      ReturnedPooled(g, s, u, pages, c);
    }
    ReleaseMoves(g, s, u, out, r);
  }

  lemma CellRow(g: Geometry, b: nat, row: nat, c: nat)
    requires b < g.n && row < g.k
    ensures c == CellId(b, g.n, row) <==> c % g.n == b && c / g.n == row
  {
    CellOfColumn(g, b, row);
    CellIdProduct(b, g.n, row);
    assert c == c % g.n + (c / g.n) * g.n;
  }

  lemma {:induction false} ColumnHits(g: Geometry, b: nat, rows: nat, c: nat)
    requires b < g.n && rows <= g.k
    ensures multiset(Column(b, g.n, rows))[c] == if c % g.n == b && c / g.n < rows then 1 else 0
  {
    if rows > 0 {
      var front: seq<nat>, last: nat := Column(b, g.n, rows - 1), CellId(b, g.n, rows - 1);
      ColumnHits(g, b, rows - 1, c);
      CellRow(g, b, rows - 1, c);
      assert multiset(front + [last])[c] == multiset(front)[c] + if c == last then 1 else 0;
    }
  }

  lemma {:induction false} ColumnShape(g: Geometry, b: nat, rows: nat)
    requires b < g.n && rows <= g.k
    ensures AllBelow(Column(b, g.n, rows), g.Cells())
    ensures |Column(b, g.n, rows)| == rows
  {
    if rows > 0 {
      ColumnShape(g, b, rows - 1);
      CellOfColumn(g, b, rows - 1);
    }
  }

  lemma RowInBase(g: Geometry, c: nat)
    ensures c / g.n < g.k <==> c < g.Cells()
  {
    assert c == c % g.n + (c / g.n) * g.n;
    MulMonotone(g.k, c / g.n, g.n);
    MulMonotone(c / g.n + 1, g.k, g.n);
    assert (c / g.n + 1) * g.n == (c / g.n) * g.n + g.n;
  }

  lemma WholeColumn(g: Geometry, b: nat, c: nat)
    requires b < g.n
    ensures Hits(g, Cell, Column(b, g.n, g.k), c) == Hits(g, Whole, [b], c)
  {
    ColumnHits(g, b, g.k, c);
    RowInBase(g, c);
  }

  /** Cutting blocks into columns changes nothing for any cell. */
  lemma {:induction false} ColumnsHits(g: Geometry, blocks: seq<nat>, c: nat)
    requires AllBelow(blocks, g.n)
    ensures Hits(g, Cell, Columns(blocks, g.n, g.k), c) == Hits(g, Whole, blocks, c)
  {
    if blocks != [] {
      var i := |blocks| - 1;
      ColumnsHits(g, blocks[..i], c);
      WholeColumn(g, blocks[i], c);
      HitsSplit(g, Whole, blocks, i, c);
      assert blocks[i..] == [blocks[i]];
      HitsConcat(g, Cell, Columns(blocks[..i], g.n, g.k), Column(blocks[i], g.n, g.k), c);
    } else {
      NoHits(g, Whole, c);
    }
  }

  lemma OneRowMore(rows: nat, k: nat)
    requires rows > 0
    ensures rows * k == (rows - 1) * k + k
  {
  }

  lemma {:induction false} ColumnsShape(g: Geometry, blocks: seq<nat>)
    requires AllBelow(blocks, g.n)
    ensures AllBelow(Columns(blocks, g.n, g.k), g.Cells())
    ensures |Columns(blocks, g.n, g.k)| == |blocks| * g.k
  {
    if blocks != [] {
      ColumnsShape(g, blocks[..|blocks| - 1]);
      ColumnShape(g, blocks[|blocks| - 1], g.k);
      OneRowMore(|blocks|, g.k);
    }
  }

  lemma GeometryOf(g: Geometry, s: State)
    requires PoolShape(g, s) && s.isFusion
    ensures s.numBase / s.fusionSize == g.n
  {
    assert g.Cells() == 0 + g.n * g.k;
    DivMod(g.n, g.k, 0);
  }

  lemma ReturnBlockPooled(g: Geometry, s: State, b: nat, c: nat)
    requires PoolShape(g, s) && s.isFusion && b < g.n
    ensures Pooled(g, ReturnBlock(s, b), c) == Pooled(g, s, c) + Hits(g, Whole, [b], c)
  {
    GeometryOf(g, s);
    WholeColumn(g, b, c);
    HitsConcat(g, Whole, s.reserved, [b], c);
    HitsConcat(g, Cell, s.fusion, Column(b, g.n, g.k), c);
  }

  lemma ReturnBlockShape(g: Geometry, s: State, b: nat)
    requires PoolShape(g, s) && s.isFusion && b < g.n
    ensures var t := ReturnBlock(s, b);
      && t == s.(reserved := t.reserved, reservedSet := t.reservedSet, fusion := t.fusion,
                 maxReserved := t.maxReserved, maxFusion := t.maxFusion)
      && PoolShape(g, t)
      && Capacity(g, t) == Capacity(g, s)
  {
    GeometryOf(g, s);
    ColumnShape(g, b, g.k);
    assert g.k * (s.maxReserved - 1) == g.k * s.maxReserved - g.k;
  }

  lemma {:induction false} ReturnBlocksPools(g: Geometry, s: State, blocks: seq<nat>, c: nat)
    requires PoolShape(g, s) && s.isFusion && AllBelow(blocks, g.n)
    ensures var t := ReturnBlocks(s, blocks);
      && t == s.(reserved := t.reserved, reservedSet := t.reservedSet, fusion := t.fusion,
                 maxReserved := t.maxReserved, maxFusion := t.maxFusion)
      && PoolShape(g, t)
      && Capacity(g, t) == Capacity(g, s)
      && Pooled(g, t, c) == Pooled(g, s, c) + Hits(g, Whole, blocks, c)
  {
    if blocks != [] {
      var front, last := blocks[..|blocks| - 1], blocks[|blocks| - 1];
      assert blocks == front + [last];
      ReturnBlocksPools(g, s, front, c);
      ReturnBlockPooled(g, ReturnBlocks(s, front), last, c);
      ReturnBlockShape(g, ReturnBlocks(s, front), last);
      HitsConcat(g, Whole, front, [last], c);
    }
  }

  lemma FreeStaleMoves(g: Geometry, s: State, out: Tables, r: RequestId)
    requires Shape(g, s, out) && s.isFusion
    requires r in s.table && s.table[r].format == Whole
    ensures Moves(g, s, out, Free(s, r, false, false).value, out)
  {
    var pages := s.table[r].pages;
    var u := Free(s, r, false, false).value;
    forall c: nat ensures Pooled(g, u, c) == Pooled(g, s, c) + Hits(g, Whole, pages, c) {
      ReturnBlocksPools(g, Dropped(s, r), pages, c);
    }
    ReturnBlocksPools(g, Dropped(s, r), pages, 0);
    BlocksWithinCells(g);
    CountOfSlot(pages, g.Cells());
    ReleaseMoves(g, s, u, out, r);
  }

  lemma FreeBlocksMoves(g: Geometry, s: State, out: Tables, r: RequestId, onlyNew: bool)
    requires Shape(g, s, out) && !s.isFusion
    requires r in s.table && s.table[r].format == Whole
    ensures Moves(g, s, out, Free(s, r, false, onlyNew).value, out)
  {
    var pages := s.table[r].pages;
    var u := Free(s, r, false, onlyNew).value;
    forall c: nat ensures Pooled(g, u, c) == Pooled(g, s, c) + Hits(g, Whole, pages, c) {
      HitsConcat(g, Whole, s.free, pages, c);
    }
    ReleaseMoves(g, s, u, out, r);
  }
}

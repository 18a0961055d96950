/** The remaining operations that move pages: reshard, packing and live restore. */
module Transfers {
  import opened Paging
  import opened Sorting
  import opened Counting
  import opened Pools
  import opened Ownership
  import opened Merging

  /** Releasing in the format in which the pages were given. */
  lemma FreeMoves(g: Geometry, s: State, out: Tables, r: RequestId, fused: bool, onlyNew: bool, draining: bool)
    requires Sound(g, s, out, draining)
    requires r in s.table && s.table[r].format == GivenFormat(s, fused, onlyNew)
    ensures Free(s, r, fused, onlyNew).Some? && Moves(g, s, out, Free(s, r, fused, onlyNew).value, out)
    ensures Free(s, r, fused, onlyNew).value.table == s.table - {r}
  {
    if s.isFusion && (fused || onlyNew) {
      FreeCellsMoves(g, s, out, r, fused, onlyNew);
      ReturnCellsPools(Dropped(s, r), s.table[r].pages);
    } else if s.isFusion {
      FreeStaleMoves(g, s, out, r);
      ReturnBlocksPools(g, Dropped(s, r), s.table[r].pages, 0);
    } else if fused {
      FreeRestoredMoves(g, s, out, r, draining, onlyNew);
      FreeRestoredTable(g, s, out, r, draining, onlyNew);
    } else {
      FreeBlocksMoves(g, s, out, r, onlyNew);
    }
  }

  lemma FreeRestoredTable(g: Geometry, s: State, out: Tables, r: RequestId, draining: bool, onlyNew: bool)
    requires Sound(g, s, out, draining) && !s.isFusion
    requires r in s.table && Free(s, r, true, onlyNew).Some?
    ensures Free(s, r, true, onlyNew).value.table == s.table - {r}
  {
    PromoteTable(Dropped(s, r).(reserved := SortBy(s.reserved + s.table[r].pages, ResidueKey(s.numBase))));
  }

  lemma {:induction false} PromoteTable(s: State)
    requires s.fusionSize > 0 && s.numBase > 0
    ensures Promote(s).Some? ==> Promote(s).value.table == s.table
    decreases |s.reserved|
  {
    if |s.reserved| > s.numReserved && FirstBase(s.reserved, 0, s.numBase, s.fusionSize).Some? {
      var b := FirstBase(s.reserved, 0, s.numBase, s.fusionSize).value;
      var rest := RemoveColumn(s.reserved, b, 0, s.numBase, s.fusionSize);
      if rest.Some? {
        RemoveColumnLength(s.reserved, b, 0, s.numBase, s.fusionSize);
        PromoteTable(Promoted(s, b, rest.value));
      }
    }
  }

  // ---------- one table rewritten in place ----------

  /** The table of `r` becomes `slot`; what it loses the pools gain. */
  lemma ReplaceMoves(g: Geometry, s: State, t: State, out: Tables, r: RequestId, slot: Slot)
    requires Shape(g, s, out) && PoolShape(g, t) && SameMode(g, s, t)
    requires r in s.table && t.table == s.table[r := slot] && SlotShape(g, s.numExtend, slot)
    requires forall c: nat ::
      Pooled(g, t, c) + Hits(g, slot.format, slot.pages, c)
      == Pooled(g, s, c) + Hits(g, s.table[r].format, s.table[r].pages, c)
    requires s.isFusion ==>
      |t.extend| + CountFrom(slot.pages, g.Cells()) == |s.extend| + CountFrom(s.table[r].pages, g.Cells())
    ensures Moves(g, s, out, t, out)
  {
    forall c: nat ensures Owners(g, t, out, c) == Owners(g, s, out, c) {
      SumSplit(s.table, HitsAt(g, c), r);
      SumPut(s.table, HitsAt(g, c), r, slot);
    }
    SumSplit(s.table, CountFromAt(g.Cells()), r);
    SumPut(s.table, CountFromAt(g.Cells()), r, slot);
  }

  // ---------- resharding a stale request ----------

  ghost function One(b: bool): nat {
    if b then 1 else 0
  }

  lemma CountAppend(p: seq<nat>, q: seq<nat>, c: nat)
    ensures multiset(p + q)[c] == multiset(p)[c] + multiset(q)[c]
  {
  }

  lemma CountOne(x: nat, c: nat)
    ensures multiset([x])[c] == One(c == x)
  {
  }

  lemma {:induction false} ColumnAt(b: nat, n: nat, rows: nat)
    ensures |Column(b, n, rows)| == rows && forall i | 0 <= i < rows :: Column(b, n, rows)[i] == CellId(b, n, i)
  {
    if rows > 0 {
      ColumnAt(b, n, rows - 1);
    }
  }

  lemma {:induction false} ColumnExceptAt(b: nat, n: nat, rows: nat, rank: nat)
    ensures var p := ColumnExcept(b, n, rows, rank);
      && |p| == (if rank < rows then rows - 1 else rows)
      && forall i | 0 <= i < |p| :: p[i] == CellId(b, n, if i < rank then i else i + 1)
  {
    if rows > 0 {
      ColumnExceptAt(b, n, rows - 1, rank);
    }
  }

  lemma ColumnWithoutRow(b: nat, n: nat, rows: nat, rank: nat, c: nat)
    requires rank < rows
    ensures multiset(ColumnExcept(b, n, rows, rank))[c] + One(c == CellId(b, n, rank))
         == multiset(Column(b, n, rows))[c]
  {
    var p := Column(b, n, rows);
    ColumnAt(b, n, rows);
    ColumnExceptAt(b, n, rows, rank);
    assert ColumnExcept(b, n, rows, rank) == Without(p, rank);
    WithoutMultiset(p, rank);
    assert p[rank] in multiset(p);
  }

  /** The row kept and the cells freed are together the columns of the request's blocks. */
  lemma {:induction false} RowAndRest(blocks: seq<nat>, n: nat, k: nat, rank: nat, c: nat)
    requires rank < k
    ensures multiset(ColumnsExcept(blocks, n, k, rank))[c] + multiset(Row(blocks, n, rank))[c]
         == multiset(Columns(blocks, n, k))[c]
  {
    if blocks != [] {
      var i := |blocks| - 1;
      RowAndRest(blocks[..i], n, k, rank, c);
      ColumnWithoutRow(blocks[i], n, k, rank, c);
      RowAndRestStep(ColumnsExcept(blocks[..i], n, k, rank), ColumnExcept(blocks[i], n, k, rank),
                     Row(blocks[..i], n, rank), CellId(blocks[i], n, rank),
                     Columns(blocks[..i], n, k), Column(blocks[i], n, k), c);
    }
  }

  lemma RowAndRestStep(rest: seq<nat>, rest': seq<nat>, row: seq<nat>, x: nat, all: seq<nat>, all': seq<nat>, c: nat)
    requires multiset(rest)[c] + multiset(row)[c] == multiset(all)[c]
    requires multiset(rest')[c] + One(c == x) == multiset(all')[c]
    ensures multiset(rest + rest')[c] + multiset(row + [x])[c] == multiset(all + all')[c]
  {
    CountAppend(rest, rest', c);
    CountAppend(row, [x], c);
    CountOne(x, c);
    CountAppend(all, all', c);
  }

  lemma {:induction false} ColumnExceptShape(g: Geometry, b: nat, rows: nat, rank: nat)
    requires b < g.n && rows <= g.k
    ensures AllBelow(ColumnExcept(b, g.n, rows, rank), g.Cells())
  {
    if rows > 0 {
      ColumnExceptShape(g, b, rows - 1, rank);
      CellOfColumn(g, b, rows - 1);
    }
  }

  lemma {:induction false} ReshardShape(g: Geometry, blocks: seq<nat>, rank: nat)
    requires AllBelow(blocks, g.n) && rank < g.k
    ensures AllBelow(ColumnsExcept(blocks, g.n, g.k, rank), g.Cells())
    ensures AllBelow(Row(blocks, g.n, rank), g.Cells())
  {
    if blocks != [] {
      ReshardShape(g, blocks[..|blocks| - 1], rank);
      ColumnExceptShape(g, blocks[|blocks| - 1], g.k, rank);
      CellOfColumn(g, blocks[|blocks| - 1], rank);
    }
  }

  lemma ReshardPooled(g: Geometry, s: State, blocks: seq<nat>, rank: nat, c: nat)
    requires AllBelow(blocks, g.n) && rank < g.k
    ensures Pooled(g, s.(fusion := s.fusion + ColumnsExcept(blocks, g.n, g.k, rank)), c)
          + Hits(g, Cell, Row(blocks, g.n, rank), c)
         == Pooled(g, s, c) + Hits(g, Whole, blocks, c)
  {
    var rest: seq<nat> := ColumnsExcept(blocks, g.n, g.k, rank);
    RowAndRest(blocks, g.n, g.k, rank, c);
    ColumnsHits(g, blocks, c);
    HitsConcat(g, Cell, s.fusion, rest, c);
  }

  lemma ReshardCapacity(k: nat, fusion: int, reserved: int, count: nat)
    ensures fusion + count * k + k * (reserved - count) == fusion + k * reserved
  {
    assert k * (reserved - count) == k * reserved - count * k;
  }

  lemma ReshardPools(g: Geometry, s: State, out: Tables, r: RequestId, rank: nat)
    requires Shape(g, s, out) && s.isFusion && rank < g.k
    requires r in s.table && s.table[r].format == Whole
    ensures var t := FreeExcept(s, r, g.k, rank).value;
      && t.fusion == s.fusion + ColumnsExcept(s.table[r].pages, g.n, g.k, rank)
      && t.table == s.table[r := Slot(Cell, Row(s.table[r].pages, g.n, rank))]
      && PoolShape(g, t) && SameMode(g, s, t)
  {
    GeometryOf(g, s);
    ReshardShape(g, s.table[r].pages, rank);
    ReshardCapacity(g.k, s.maxFusion, s.maxReserved, |s.table[r].pages|);
  }

  lemma ReshardMoves(g: Geometry, s: State, out: Tables, r: RequestId, rank: nat)
    requires Shape(g, s, out) && s.isFusion && rank < g.k
    requires r in s.table && s.table[r].format == Whole
    ensures Moves(g, s, out, FreeExcept(s, r, g.k, rank).value, out)
  {
    var blocks := s.table[r].pages;
    var row := Row(blocks, g.n, rank);
    var t := FreeExcept(s, r, g.k, rank).value;
    ReshardPools(g, s, out, r, rank);
    forall c: nat
      ensures Pooled(g, t, c) + Hits(g, Cell, row, c) == Pooled(g, s, c) + Hits(g, Whole, blocks, c)
    {
      ReshardPooled(g, s, blocks, rank, c);
    }
    ReshardShape(g, blocks, rank);
    BlocksWithinCells(g);
    CountOfSlot(blocks, g.Cells());
    CountOfSlot(row, g.Cells());
    ReplaceMoves(g, s, t, out, r, Slot(Cell, row));
  }

  // ---------- packing ----------

  lemma {:induction false} SortedSplits(p: seq<nat>, bound: nat)
    requires SortedBy(p, IdKey())
    ensures p == Below(p, bound) + NotBelow(p, bound)
  {
    if p != [] {
      var front, last := p[..|p| - 1], p[|p| - 1];
      SortedSplits(front, bound);
      if last < bound {
        forall i | 0 <= i < |front| ensures front[i] < bound {
          assert IdKey()(p[i]) <= IdKey()(last);
        }
        NoneAbove(front, bound);
        assert Below(p, bound) == front + [last] && NotBelow(p, bound) == [];
      } else {
        assert Below(p, bound) == Below(front, bound) && NotBelow(p, bound) == NotBelow(front, bound) + [last];
      }
    }
  }

  lemma PackPages(g: Geometry, s: State, r: RequestId)
    requires r in s.table
    ensures var pages := SortBy(s.table[r].pages, IdKey());
      && pages == Below(pages, s.numBase) + NotBelow(pages, s.numBase)
      && multiset(Below(pages, s.numBase)) + multiset(NotBelow(pages, s.numBase)) == multiset(s.table[r].pages)
      && |NotBelow(pages, s.numBase)| == CountFrom(s.table[r].pages, s.numBase)
  {
    var held := s.table[r].pages;
    var pages := SortBy(held, IdKey());
    SortSorted(held, IdKey());
    SortMultiset(held, IdKey());
    SortedSplits(pages, s.numBase);
    BelowSplits(pages, s.numBase);
    CountFromPermutation(pages, held, s.numBase);
  }

  lemma PackPooled(g: Geometry, s: State, r: RequestId, c: nat)
    requires r in s.table && Pack(s, r).Some? && s.numBase == g.Cells()
    ensures Pooled(g, Pack(s, r).value, c) + Hits(g, Cell, Pack(s, r).value.table[r].pages, c)
         == Pooled(g, s, c) + Hits(g, Cell, s.table[r].pages, c)
  {
    var t := Pack(s, r).value;
    if t != s {
      PackPages(g, s, r);
      var pages: seq<nat> := SortBy(s.table[r].pages, IdKey());
      var kept: seq<nat>, gone: seq<nat> := Below(pages, s.numBase), NotBelow(pages, s.numBase);
      assert pages[|kept|..] == gone;
      SwappedPooled(g, s, t, kept, gone, c);
      SumAt(kept, gone, s.table[r].pages, c);
    }
  }

  lemma SumAt(a: seq<nat>, b: seq<nat>, m: seq<nat>, c: nat)
    requires multiset(a) + multiset(b) == multiset(m)
    ensures multiset(a)[c] + multiset(b)[c] == multiset(m)[c]
  {
    assert (multiset(a) + multiset(b))[c] == multiset(m)[c];
  }

  /** `gone` goes back to the extend region, the first cells take its place next to `kept`. */
  lemma SwappedPooled(g: Geometry, s: State, t: State, kept: seq<nat>, gone: seq<nat>, c: nat)
    requires |gone| <= |s.fusion| && t.fusion == s.fusion[|gone|..] && t.extend == s.extend + gone
    requires t.free == s.free && t.reserved == s.reserved && t.isFusion == s.isFusion
    ensures Pooled(g, t, c) + Hits(g, Cell, kept + s.fusion[..|gone|], c)
         == Pooled(g, s, c) + Hits(g, Cell, kept, c) + Hits(g, Cell, gone, c)
  {
    HitsSplit(g, Cell, s.fusion, |gone|, c);
    HitsConcat(g, Cell, kept, s.fusion[..|gone|], c);
    HitsConcat(g, Cell, s.extend, gone, c);
  }

  lemma SortShape(p: seq<nat>, bound: nat)
    requires AllBelow(p, bound)
    ensures AllBelow(SortBy(p, IdKey()), bound)
  {
    var q := SortBy(p, IdKey());
    SortMultiset(p, IdKey());
    forall i | 0 <= i < |q| ensures q[i] < bound {
      assert q[i] in multiset(q);
      var j := IndexOf(p, q[i]);
    }
  }

  /** What packing did, page list by page list. */
  lemma PackEffect(s: State, r: RequestId) returns (kept: seq<nat>, gone: seq<nat>)
    requires r in s.table && Pack(s, r).Some?
    ensures var pages := SortBy(s.table[r].pages, IdKey());
      kept == Below(pages, s.numBase) && gone == NotBelow(pages, s.numBase)
    ensures |gone| == CountFrom(s.table[r].pages, s.numBase) && |kept| + |gone| == |s.table[r].pages|
    ensures gone == [] ==> Pack(s, r).value == s
    ensures gone != [] ==> |gone| < |s.fusion|
    ensures gone != [] ==> Pack(s, r).value == s.(
      table := s.table[r := s.table[r].(pages := kept + s.fusion[..|gone|])],
      fusion := s.fusion[|gone|..],
      extend := s.extend + gone)
  {
    PackPages(Geometry(1, 1), s, r);
    var pages: seq<nat> := SortBy(s.table[r].pages, IdKey());
    kept, gone := Below(pages, s.numBase), NotBelow(pages, s.numBase);
    assert pages[|kept|..] == gone;
  }

  /** Packing gives up exactly when there are extend pages to move and not more free cells than those. It then moves
      all of them: the request is left with as many pages, none of them from the extend region. */
  lemma PackExactly(s: State, r: RequestId)
    requires r in s.table && AllBelow(s.fusion, s.numBase)
    ensures var more := CountFrom(s.table[r].pages, s.numBase);
      && (Pack(s, r).None? <==> more > 0 && |s.fusion| <= more)
      && (more == 0 ==> Pack(s, r) == Some(s))
      && (more > 0 && Pack(s, r).Some? ==>
            var t := Pack(s, r).value;
            && r in t.table && AllBelow(t.table[r].pages, s.numBase) && Held(t, r) == Held(s, r)
            && t.fusion == s.fusion[more..] && |t.extend| == |s.extend| + more)
  {
    PackNeeds(s, r);
    if Pack(s, r).Some? {
      var kept, gone := PackEffect(s, r);
      BelowAndAbove(SortBy(s.table[r].pages, IdKey()), s.numBase);
    }
  }

  lemma PackNeeds(s: State, r: RequestId)
    requires r in s.table
    ensures var more := CountFrom(s.table[r].pages, s.numBase);
      && (Pack(s, r).None? <==> more > 0 && |s.fusion| <= more)
      && (more == 0 ==> Pack(s, r) == Some(s))
  {
    PackPages(Geometry(1, 1), s, r);
    var pages: seq<nat> := SortBy(s.table[r].pages, IdKey());
    BelowAndAbove(pages, s.numBase);
  }

  lemma {:induction false} BelowAndAbove(p: seq<nat>, bound: nat)
    ensures |Below(p, bound)| + |NotBelow(p, bound)| == |p| && AllBelow(Below(p, bound), bound)
  {
    if p != [] {
      BelowAndAbove(p[..|p| - 1], bound);
    }
  }

  lemma PackedOne(s: State, r: RequestId)
    requires r in s.table && AllBelow(s.fusion, s.numBase) && Pack(s, r).Some?
    ensures var t := Pack(s, r).value;
      && AllBelow(t.fusion, t.numBase) && t.numBase == s.numBase && r in t.table
      && t.table == s.table[r := t.table[r]] && Held(t, r) == Held(s, r)
      && CountFrom(t.table[r].pages, s.numBase) == 0
  {
    PackExactly(s, r);
    var kept, gone := PackEffect(s, r);
    assert gone == [] ==> s.table[r := s.table[r]] == s.table;
    if gone != [] {
      CountOfSlot(Pack(s, r).value.table[r].pages, s.numBase);
    }
  }

  /** The first `n` requests are left without extend ids, as many pages as before, and nobody else's pages move. */
  ghost predicate PackedFirst(s: State, ids: seq<RequestId>, n: nat, t: State) {
    && n <= |ids| && t.table.Keys == s.table.Keys
    && (forall i | 0 <= i < n :: ids[i] in t.table && CountFrom(t.table[ids[i]].pages, s.numBase) == 0)
    && (forall r | r in s.table :: r in t.table && Held(t, r) == Held(s, r))
    && (forall r | r in s.table && r !in ids[..n] :: r in t.table && t.table[r] == s.table[r])
  }

  lemma PackedOneMore(s: State, ids: seq<RequestId>, u: State, m: nat, t: State)
    requires Distinct(ids) && ids != [] && ids[0] in s.table && PackedFirst(u, ids[1..], m, t)
    requires u.numBase == s.numBase && ids[0] in u.table && u.table == s.table[ids[0] := u.table[ids[0]]]
    requires Held(u, ids[0]) == Held(s, ids[0]) && CountFrom(u.table[ids[0]].pages, s.numBase) == 0
    ensures PackedFirst(s, ids, m + 1, t)
  {
    assert ids[..m + 1] == [ids[0]] + ids[1..][..m];
    assert ids[0] !in ids[1..][..m];
    forall i | 0 <= i < m + 1 ensures ids[i] in t.table && CountFrom(t.table[ids[i]].pages, s.numBase) == 0 {
      if i > 0 {
        assert ids[1..][i - 1] == ids[i];
      }
    }
    forall r | r in s.table ensures r in t.table && Held(t, r) == Held(s, r) {
      assert r in u.table && Held(u, r) == Held(s, r);
    }
  }

  /** The requests are packed in turn up to the first that cannot be, if there is one. */
  lemma {:induction false} PackAllExactly(s: State, ids: seq<RequestId>) returns (n: nat)
    requires Distinct(ids) && AllBelow(s.fusion, s.numBase) && forall i | 0 <= i < |ids| :: ids[i] in s.table
    ensures var (t, ok) := PackAll(s, ids);
      PackedFirst(s, ids, n, t) && (ok <==> n == |ids|) && (!ok ==> ids[n] in t.table && Pack(t, ids[n]).None?)
    decreases |ids|
  {
    n := 0;
    if ids != [] && Pack(s, ids[0]).Some? {
      PackedOne(s, ids[0]);
      var u := Pack(s, ids[0]).value;
      var m := PackAllExactly(u, ids[1..]);
      PackedOneMore(s, ids, u, m, PackAll(u, ids[1..]).0);
      n := m + 1;
    } else {
      NothingPacked(s, ids);
    }
  }

  lemma NothingPacked(s: State, ids: seq<RequestId>)
    ensures PackedFirst(s, ids, 0, s)
  {
  }

  lemma PackShape(g: Geometry, s: State, out: Tables, r: RequestId)
    requires Shape(g, s, out) && s.isFusion && r in s.table && s.table[r].format == Cell && Pack(s, r).Some?
    ensures var t := Pack(s, r).value;
      && PoolShape(g, t) && SameMode(g, s, t)
      && t.table == s.table[r := Slot(Cell, t.table[r].pages)] && SlotShape(g, s.numExtend, t.table[r])
      && |t.extend| + CountFrom(t.table[r].pages, g.Cells()) == |s.extend| + CountFrom(s.table[r].pages, g.Cells())
  {
    var kept, gone := PackEffect(s, r);
    if gone == [] {
      assert s.table == s.table[r := Slot(Cell, s.table[r].pages)];
    } else {
      SortShape(s.table[r].pages, g.Cells() + s.numExtend);
      BelowShape(SortBy(s.table[r].pages, IdKey()), g.Cells(), g.Cells() + s.numExtend);
      CountOfSlot(kept + s.fusion[..|gone|], g.Cells());
    }
  }

  lemma PackMoves(g: Geometry, s: State, out: Tables, r: RequestId)
    requires Shape(g, s, out) && s.isFusion && r in s.table && s.table[r].format == Cell && Pack(s, r).Some?
    ensures Moves(g, s, out, Pack(s, r).value, out)
  {
    var t := Pack(s, r).value;
    PackShape(g, s, out, r);
    forall c: nat
      ensures Pooled(g, t, c) + Hits(g, Cell, t.table[r].pages, c)
           == Pooled(g, s, c) + Hits(g, Cell, s.table[r].pages, c)
    {
      PackPooled(g, s, r, c);
    }
    ReplaceMoves(g, s, t, out, r, t.table[r]);
  }

  // ---------- live restore ----------

  lemma TakeMoves(g: Geometry, s: State, out: Tables, r: RequestId, count: nat)
    requires Shape(g, s, out) && !s.isFusion && r !in out && count <= |s.free|
    ensures var (t, blocks) := TakeBlocks(s, count);
      Moves(g, s, out, t, out[r := Slot(Whole, blocks)])
  {
    var (t, blocks) := TakeBlocks(s, count);
    var out' := out[r := Slot(Whole, blocks)];
    forall c: nat ensures Owners(g, t, out', c) == Owners(g, s, out, c) {
      HitsSplit(g, Whole, s.free, count, c);
      SumPut(out, HitsAt(g, c), r, Slot(Whole, blocks));
      assert out - {r} == out;
    }
  }

  lemma InstallMoves(g: Geometry, s: State, out: Tables, r: RequestId)
    requires Shape(g, s, out) && !s.isFusion && r in out && r !in s.table
    ensures Moves(g, s, out, Install(s, r, out[r].pages), out - {r})
  {
    var t := Install(s, r, out[r].pages);
    assert out[r] == Slot(Whole, out[r].pages);
    forall c: nat ensures Owners(g, t, out - {r}, c) == Owners(g, s, out, c) {
      SumPut(s.table, HitsAt(g, c), r, out[r]);
      assert s.table - {r} == s.table;
      SumSplit(out, HitsAt(g, c), r);
    }
  }
}

/** What an eviction gives back, and to which pool. */
module Eviction {
  import opened Paging
  import opened Sorting
  import opened Pools
  import opened Ownership
  import opened Merging
  import opened Columns
  import opened Requests
  import opened Group
  import opened GroupSafety
  import opened Prefill
  import opened Preemption
  import Cycle

  lemma CellsBack(g: Geometry, s: State, r: RequestId)
    requires s.isFusion && r in s.table && s.fusionSize > 0 && s.numBase > 0
    ensures Free(s, r, true, false).Some?
    ensures |PoolFor(Free(s, r, true, false).value, true, false)| == |PoolFor(s, true, false)| + Held(s, r)
  {
    var pages := s.table[r].pages;
    ReturnCellsPools(Dropped(s, r), pages);
    BelowSplits(pages, s.numBase);
    assert |multiset(pages)| == |Below(pages, s.numBase)| + |NotBelow(pages, s.numBase)|;
  }

  lemma BlocksBack(g: Geometry, s: State, out: Tables, r: RequestId)
    requires Shape(g, s, out) && s.isFusion && r in s.table && s.table[r].format == Whole
    ensures Free(s, r, false, false).Some?
    ensures |PoolFor(Free(s, r, false, false).value, false, false)| == |PoolFor(s, false, false)| + Held(s, r)
  {
    Cycle.StaleBlocksStayReserved(g, Dropped(s, r), s.table[r].pages);
  }

  /** Cells that come back to the reserve of RESTORE, of which complete columns may become blocks. */
  lemma CellsTraded(s: State, r: RequestId)
    requires !s.isFusion && r in s.table && s.fusionSize > 0 && s.numBase > 0
    ensures Free(s, r, true, false).Some? ==>
      var t := Free(s, r, true, false).value;
      |t.reserved| + s.fusionSize * |t.free| == |s.reserved| + s.fusionSize * |s.free| + Held(s, r)
  {
    var all := s.reserved + s.table[r].pages;
    SortMultiset(all, ResidueKey(s.numBase));
    assert |multiset(all)| == |all|;
    PromoteTrades(Dropped(s, r).(reserved := SortBy(all, ResidueKey(s.numBase))));
  }

  /** On every manager a request uses, evicting it gives all its pages back to the pool it draws from itself; only
      that in RESTORE complete columns of a fused one become free blocks, `k` cells each. */
  lemma EvictionReturns(blockSize: nat, g: Group, running: seq<Req>, v: nat, i: nat)
    requires RunningIn(blockSize, g, running) && v < |running| && i < g.k && Uses(FlagsOf(running[v]), i)
    ensures var q := running[v];
      var s, t := g.mgrs[i], ReleaseAll(g.mgrs, q)[i];
      if g.phase == Restore && q.fusion then
        |t.reserved| + g.k * |t.free| == |s.reserved| + g.k * |s.free| + Held(s, q.id)
      else |PoolFor(t, q.fusion, false)| == |PoolFor(s, q.fusion, false)| + Held(s, q.id)
  {
    var q := running[v];
    var s := g.mgrs[i];
    assert Tracked(blockSize, g, q) && ManagerOk(g, i);
    assert FormatOf(s, q.id) == Wanted(g.reqs, q.id, i);
    assert FlagsOk(g, g.reqs[q.id]);
    ReleaseMoved(g, q.id, i);
    if s.isFusion && q.fusion {
      CellsBack(Geo(g), s, q.id);
    } else if s.isFusion {
      BlocksBack(Geo(g), s, OutOf(g.taken, i), q.id);
    } else if q.fusion {
      CellsTraded(s, q.id);
    }
  }

  /** One block, two instances, in RESTORE with no quota: the cells a fused request gives back make a block, and the
      reserve, from which another fused request draws, is as empty as before. */
  lemma ColumnLeaves(s: State)
    requires !s.isFusion && s.reserved == [] && s.free == [] && s.table == map[7 := Slot(Cell, [0, 1])]
    requires s.fusionSize == 2 && s.numBase == 1 && s.numReserved == 0
    ensures Free(s, 7, true, false).Some?
    ensures var t := Free(s, 7, true, false).value;
      t.free == [0] && PoolFor(t, true, false) == PoolFor(s, true, false) == []
  {
    var cells: seq<nat>, one: seq<nat>, none: seq<nat>, key := [0, 1], [0], [], ResidueKey(1);
    assert s.reserved + cells == cells && cells[..1] == one && one[..0] == none;
    assert SortBy(one, key) == one && SortBy(cells, key) == Insert(one, 1, key) == cells;
    assert CellId(0, 1, 0) == 0 && CellId(0, 1, 1) == 1;
    assert Closes(cells, 0, 1, 2) && FirstBase(cells, 0, 1, 2) == Some(0);
    var last: seq<nat> := [1];
    assert cells[1..] == last && last[1..] == none;
    assert Remove(cells, 0) == Some(last) && Remove(last, 1) == Some(none);
    assert RemoveColumn(none, 0, 2, 1, 2) == Some(none) && RemoveColumn(last, 0, 1, 1, 2) == Some(none);
    assert RemoveColumn(cells, 0, 0, 1, 2) == Some(none);
    var u := Dropped(s, 7).(reserved := cells);
    var w := Promoted(u, 0, none);
    assert s.free + one == one && Promote(w) == Some(w);
    assert Promote(u) == Promote(w);
    assert Free(s, 7, true, false) == Promote(u);
  }

  /** The starving request draws from the very pools the pages of its victim go to, on every manager it uses. */
  lemma EvictionHelps(blockSize: nat, g: Group, running: seq<Req>, j: nat, i: nat)
    requires RunningIn(blockSize, g, running) && j < |running| && i < g.k && Uses(FlagsOf(running[j]), i)
    requires Victim(running, running[j].fusion, running[j].home).Some?
    requires !(g.phase == Restore && running[j].fusion)
    ensures var q, v := running[j], running[Victim(running, running[j].fusion, running[j].home).value];
      var s, t := g.mgrs[i], ReleaseAll(g.mgrs, v)[i];
      Uses(FlagsOf(v), i) && |PoolFor(t, q.fusion, false)| == |PoolFor(s, q.fusion, false)| + Held(s, v.id)
  {
    var v := Victim(running, running[j].fusion, running[j].home).value;
    VictimFields(running, running[j].fusion, running[j].home);
    EvictionReturns(blockSize, g, running, v, i);
  }
}

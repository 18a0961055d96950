/** Giving the extend region back while the engine keeps running. */
module Draining {
  import opened Paging
  import opened Pools
  import opened Ownership
  import opened Phases
  import opened Transfers
  import opened Group
  import opened GroupSafety
  import opened Runs

  lemma AllocateExtendCount(s: State, r: RequestId, fused: bool, onlyNew: bool, need: nat)
    ensures Allocate(s, r, fused, onlyNew, need).Some? ==>
      Allocate(s, r, fused, onlyNew, need).value.maxExtend == s.maxExtend
  {
  }

  lemma FreeExtendCount(s: State, r: RequestId, fused: bool, onlyNew: bool)
    requires s.isFusion
    ensures FreeOr(s, r, fused, onlyNew).maxExtend == s.maxExtend
  {
    if s.fusionSize > 0 && s.numBase > 0 && r in s.table {
      ReturnCellsPools(Dropped(s, r), s.table[r].pages);
      ReturnBlocksExtend(Dropped(s, r), s.table[r].pages);
    }
  }

  lemma {:induction false} ReturnBlocksExtend(s: State, blocks: seq<nat>)
    requires s.fusionSize > 0
    ensures ReturnBlocks(s, blocks).maxExtend == s.maxExtend && ReturnBlocks(s, blocks).isFusion == s.isFusion
  {
    if blocks != [] {
      ReturnBlocksExtend(s, blocks[..|blocks| - 1]);
    }
  }

  lemma PreparedExtendCount(g: Group, r: RequestId, home: nat, need: nat, i: nat)
    requires Safe(g) && g.phase == Balloon && i < g.k
    ensures PreparePeers(g.mgrs, r, home, need).0[i].maxExtend == g.mgrs[i].maxExtend
  {
    assert ManagerOk(g, i);
    var s := g.mgrs[i];
    var end := AllocatePeersEffect(g.mgrs, r, home, need, 0);
    AllocateExtendCount(s, r, false, true, need);
    if Allocate(s, r, false, true, need).Some? {
      AllocateKeepsMode(s, r, need);
      FreeExtendCount(Allocate(s, r, false, true, need).value, r, false, true);
    }
    FreeExtendCount(s, r, false, true);
  }

  lemma AllocateKeepsMode(s: State, r: RequestId, need: nat)
    ensures Allocate(s, r, false, true, need).Some? ==> Allocate(s, r, false, true, need).value.isFusion == s.isFusion
  {
  }

  /** While draining, no step makes the count of extend pages grow, and a turn of the waiting loop takes
      every free one out of reach. */
  lemma DrainNeverGrows(g: Group, e: Event, i: nat)
    requires Safe(g) && g.phase == Balloon && g.draining && Enabled(g, e) && !e.ToRestore? && i < g.k
    ensures Apply(g, e).mgrs[i].maxExtend <= g.mgrs[i].maxExtend
    ensures e == Drain(i) && g.mgrs[i].maxExtend > 0 ==>
      && Apply(g, e).mgrs[i].maxExtend == g.mgrs[i].maxExtend - |g.mgrs[i].extend|
      && Apply(g, e).mgrs[i].extend == []
  {
    if e.Admit? || e.Grow? || e.Release? || e.BeginReshard? {
      RequestKeepsExtend(g, e, i);
    } else if !e.Drain? {
      OthersKeepExtend(g, e, i);
    }
  }

  lemma RequestKeepsExtend(g: Group, e: Event, i: nat)
    requires Safe(g) && g.phase == Balloon && Enabled(g, e) && i < g.k
    requires e.Admit? || e.Grow? || e.Release? || e.BeginReshard?
    ensures Apply(g, e).mgrs[i].maxExtend == g.mgrs[i].maxExtend
  {
    var s := g.mgrs[i];
    assert ManagerOk(g, i);
    match e
    case Admit(r, rank, need) => AllocateExtendCount(s, r, true, false, need);
    case Grow(r, j, need) => AllocateExtendCount(s, r, g.reqs[r].fusion, false, need);
    case Release(r) => FreeExtendCount(s, r, g.reqs[r].fusion, false);
    case BeginReshard(r, need) => PreparedExtendCount(g, r, g.reqs[r].home, need, i);
  }

  lemma OthersKeepExtend(g: Group, e: Event, i: nat)
    requires Safe(g) && g.phase == Balloon && Enabled(g, e) && !e.ToRestore? && !e.Drain? && i < g.k
    requires !e.Admit? && !e.Grow? && !e.Release? && !e.BeginReshard?
    ensures Apply(g, e).mgrs[i].maxExtend <= g.mgrs[i].maxExtend
  {
    assert ManagerOk(g, i);
  }

  /** At every yield point the count is the free extend ids plus those in tables; so when the loop has
      stopped no table of that manager holds an id from the extend region. */
  lemma DrainedForGood(g: Group, i: nat)
    requires Reachable(g) && g.phase == Balloon && Sized(g) && i < g.k
    ensures g.mgrs[i].maxExtend == |g.mgrs[i].extend| + Sum(g.mgrs[i].table, CountFromAt(g.n * g.k))
    ensures g.draining && g.mgrs[i].maxExtend <= 0 ==>
      && Apply(g, Drain(i)).mgrs[i].numExtend == 0
      && g.mgrs[i].extend == []
      && forall r | r in g.mgrs[i].table :: AllBelow(g.mgrs[i].table[r].pages, g.n * g.k)
  {
    ReachableSafe(g);
    assert ManagerOk(g, i);
    if g.draining {
      DrainSound(Geo(g), g.mgrs[i], OutOf(g.taken, i));
    }
  }
}

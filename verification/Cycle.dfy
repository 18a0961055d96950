/** The whole cycle INITIAL, BALLOON, RESTORE, INITIAL gives every block back. */
module Cycle {
  import opened Paging
  import opened Counting
  import opened Pools
  import opened Ownership
  import opened Merging
  import opened Phases
  import opened Transfers
  import opened Group
  import opened GroupSafety
  import opened Runs

  /** Occurrences of id `x` in a page list, whatever its format. */
  ghost function PlainAt(x: nat): Slot -> nat {
    (s: Slot) => multiset(s.pages)[x]
  }

  /** Occurrences of id `x` in the free list and the tables. */
  ghost function Plain(s: State, x: nat): nat {
    multiset(s.free)[x] + Sum(s.table, PlainAt(x))
  }

  ghost predicate ExactlyBlocks(s: State, n: nat) {
    forall x: nat :: Plain(s, x) == if x < n then 1 else 0
  }

  lemma PlainHits(g: Geometry, p: seq<nat>, format: Format, x: nat)
    requires x < g.n
    ensures Hits(g, format, p, x) == multiset(p)[x]
  {
    BlocksWithinCells(g);
    SmallResidue(x, g.n);
  }

  lemma PlainSum(g: Geometry, m: Tables, x: nat)
    requires x < g.n
    ensures Sum(m, PlainAt(x)) == Sum(m, HitsAt(g, x))
  {
    forall r | r in m ensures PlainAt(x)(m[r]) == HitsAt(g, x)(m[r]) {
      PlainHits(g, m[r].pages, m[r].format, x);
    }
    SumEqual(m, PlainAt(x), HitsAt(g, x));
  }

  lemma PlainAbove(m: Tables, n: nat, x: nat)
    requires x >= n && forall r | r in m :: AllBelow(m[r].pages, n)
    ensures Sum(m, PlainAt(x)) == 0
  {
    forall r | r in m ensures PlainAt(x)(m[r]) == 0 {
      AbsentAbove(m[r].pages, n, x);
    }
    SumZero(m, PlainAt(x));
  }

  lemma StandaloneBlocks(g: Geometry, s: State)
    requires Standalone(g, s)
    ensures ExactlyBlocks(s, g.n)
  {
    forall x: nat ensures Plain(s, x) == if x < g.n then 1 else 0 {
      if x < g.n {
        PlainHits(g, s.free, Whole, x);
        PlainSum(g, s.table, x);
        NoHits(g, Cell, x);
        SumOfNone(HitsAt(g, x));
        BlocksWithinCells(g);
        assert Owners(g, s, map[], x) == 1;
      } else {
        AbsentAbove(s.free, g.n, x);
        PlainAbove(s.table, g.n, x);
      }
    }
  }

  /** Whatever happened since the start, an instance back in INITIAL owns exactly blocks `0..n`, all
      counters agree, and rebuilding the manager from its data loses nothing. */
  lemma FullCycle(g: Group, m: nat)
    requires Reachable(g) && Sized(g) && m < g.k && g.phase == Initially
    ensures var s := g.mgrs[m];
      && ExactlyBlocks(s, g.n)
      && s.reserved == [] && s.fusion == [] && s.extend == []
      && s.fusionSize == 1 && s.maxGpu == s.numBase == g.n && !s.isFusion
      && Rebuilt(g.n, s) == s.(numReserved := 0)
      && forall k: nat :: ConvertToPipeline(Rebuilt(g.n, s), k) == ConvertToPipeline(s, k)
  {
    ReachableSafe(g);
    assert ManagerOk(g, m);
    NothingTaken(g);
    assert OutOf(g.taken, m) == map[];
    forall r | r in g.reqs ensures !g.reqs[r].fusion {
      assert FlagsOk(g, g.reqs[r]);
    }
    StaleOnly(g, m);
    StandaloneAnyway(Geo(g), g.mgrs[m], g.draining);
    StandaloneBlocks(Geo(g), g.mgrs[m]);
    RebuiltFaithful(Geo(g), g.mgrs[m]);
  }

  /** Called in RESTORE, the conversion yields exactly the blocks `0..n` if and only if no table holds
      an id from `n` up, that is, if no request still holds cells outside row 0. */
  lemma SplitExact(g: Geometry, s: State, draining: bool)
    requires Sound(g, s, map[], draining) && !s.isFusion
    ensures RestoreFromFusion(s).Some?
    ensures ExactlyBlocks(RestoreFromFusion(s).value, g.n)
      <==> forall r | r in s.table :: AllBelow(s.table[r].pages, g.n)
  {
    ReserveTotal(g, s);
    var t := RestoreFromFusion(s).value;
    forall x: nat | x < g.n ensures Plain(t, x) == 1 {
      SplitPlain(g, s, draining, x);
    }
    if forall r | r in s.table :: AllBelow(s.table[r].pages, g.n) {
      forall x: nat | x >= g.n ensures Plain(t, x) == 0 {
        BelowRange(s.reserved, g.n);
        AbsentAbove(t.free, g.n, x);
        PlainAbove(s.table, g.n, x);
      }
    } else {
      var r :| r in s.table && !AllBelow(s.table[r].pages, g.n);
      var i :| 0 <= i < |s.table[r].pages| && s.table[r].pages[i] >= g.n;
      var x := s.table[r].pages[i];
      assert x in multiset(s.table[r].pages);
      SumMember(s.table, PlainAt(x), r);
      assert Plain(t, x) >= 1;
    }
  }

  lemma SplitPlain(g: Geometry, s: State, draining: bool, x: nat)
    requires Sound(g, s, map[], draining) && !s.isFusion && x < g.n
    ensures RestoreFromFusion(s).Some? && Plain(RestoreFromFusion(s).value, x) == 1
  {
    ReserveTotal(g, s);
    BlocksWithinCells(g);
    PlainHits(g, s.free, Whole, x);
    PlainSum(g, s.table, x);
    BelowHits(s.reserved, g.n, x);
    SumOfNone(HitsAt(g, x));
    NoHits(g, Cell, x);
    assert Owners(g, s, map[], x) == 1;
  }

  // ---------- the way back is open ----------

  /** Nobody is fused, and nobody is halfway. */
  ghost predicate OnlyStale(g: Group) {
    g.taken == map[] && forall r | r in g.reqs :: !g.reqs[r].fusion && g.reqs[r].ready
  }

  lemma StaleTables(g: Group, i: nat)
    requires Safe(g) && OnlyStale(g) && i < g.k && g.phase == Balloon
    ensures g.mgrs[i].maxExtend == |g.mgrs[i].extend|
  {
    assert ManagerOk(g, i);
    var m := g.mgrs[i].table;
    forall r | r in m ensures CountFromAt(Geo(g).Cells())(m[r]) == 0 {
      assert FormatOf(g.mgrs[i], r) == Wanted(g.reqs, r, i);
      assert SlotShape(Geo(g), g.mgrs[i].numExtend, m[r]);
      BlocksWithinCells(Geo(g));
      CountOfSlot(m[r].pages, Geo(g).Cells());
    }
    SumZero(m, CountFromAt(Geo(g).Cells()));
  }

  /** Without fused requests two turns of the waiting loop empty the extend region. */
  lemma DrainTwice(g: Group, i: nat) returns (h: Group)
    requires Safe(g) && OnlyStale(g) && g.phase == Balloon && g.draining && i < g.k
    ensures Enabled(g, Drain(i)) && Enabled(Apply(g, Drain(i)), Drain(i)) && h == Apply(Apply(g, Drain(i)), Drain(i))
    ensures Safe(h) && OnlyStale(h) && h.phase == Balloon && h.draining && h.k == g.k
    ensures h.mgrs == g.mgrs[i := h.mgrs[i]] && h.mgrs[i].numExtend == 0
  {
    var mid := Apply(g, Drain(i));
    DrainSafe(g, i);
    DrainSafe(mid, i);
    h := Apply(mid, Drain(i));
    StaleTables(g, i);
    StaleTables(mid, i);
  }

  lemma {:induction false} DrainFrom(g: Group, i: nat) returns (es: seq<Event>)
    requires Safe(g) && OnlyStale(g) && g.phase == Balloon && g.draining && i <= g.k
    ensures IsRun(g, es)
    ensures var h := Run(g, es);
      && Safe(h) && OnlyStale(h) && h.phase == Balloon && h.draining && h.k == g.k
      && forall j | 0 <= j < g.k ::
           if j < i then h.mgrs[j] == g.mgrs[j] else h.mgrs[j].numExtend == 0
    decreases g.k - i
  {
    es := [];
    if i < g.k {
      var mid := DrainTwice(g, i);
      var rest := DrainFrom(mid, i + 1);
      es := [Drain(i), Drain(i)] + rest;
      assert es[1..] == [Drain(i)] + rest && ([Drain(i)] + rest)[1..] == rest;
    }
  }

  lemma LastSteps(g: Group, quota: nat)
    requires Safe(g) && OnlyStale(g) && g.phase == Balloon && g.draining
    requires forall j | 0 <= j < g.k :: g.mgrs[j].numExtend == 0
    ensures IsRun(g, [ToRestore(quota), ToInitial]) && Run(g, [ToRestore(quota), ToInitial]).phase == Initially
  {
    var es := [ToRestore(quota), ToInitial];
    assert es[1..] == [ToInitial] && [ToInitial][1..] == [];
  }

  /** Once all fused requests are gone a group in BALLOON can always be taken back to INITIAL, whatever the
      reserve quota; FullCycle says what it finds there. */
  lemma WayBack(g: Group, quota: nat) returns (es: seq<Event>)
    requires Safe(g) && OnlyStale(g) && g.phase == Balloon
    ensures IsRun(g, es) && Run(g, es).phase == Initially
  {
    BeginDrainSafe(g);
    var start := Apply(g, BeginDrain);
    var turns := DrainFrom(start, 0);
    LastSteps(Run(start, turns), quota);
    RunConcat(start, turns, [ToRestore(quota), ToInitial]);
    var tail := turns + [ToRestore(quota), ToInitial];
    es := [BeginDrain] + tail;
    assert es[1..] == tail;
  }

  // ---------- stale blocks in BALLOON ----------

  lemma {:induction false} BoundedSet(s: set<nat>, n: nat)
    requires forall x | x in s :: x < n
    ensures |s| <= n
    decreases n
  {
    if n == 0 {
      assert s == {};
    } else {
      BoundedSet(s - {n - 1}, n - 1);
    }
  }

  lemma StaleBlockStaysReserved(g: Geometry, s: State, b: nat)
    requires PoolShape(g, s) && s.isFusion && b < g.n
    ensures var t := ReturnBlock(s, b);
      t == s.(reserved := s.reserved + [b], reservedSet := s.reservedSet + {b})
  {
    if b !in s.reservedSet {
      BoundedSet(s.reservedSet + {b}, g.n);
    }
  }

  lemma OneMoreReserved(g: Geometry, s: State, u: State, blocks: seq<nat>, b: nat)
    requires PoolShape(g, u) && u.isFusion && b < g.n
    requires u == s.(reserved := s.reserved + blocks, reservedSet := s.reservedSet + (set c | c in blocks))
    ensures ReturnBlock(u, b)
         == s.(reserved := s.reserved + (blocks + [b]), reservedSet := s.reservedSet + (set c | c in blocks + [b]))
  {
    assert (set c | c in blocks + [b]) == (set c | c in blocks) + {b};
    StaleBlockStaysReserved(g, u, b);
    assert s.reserved + blocks + [b] == s.reserved + (blocks + [b]);
  }

  /** The quota covers every block there is, so the branch that cuts a released stale block into
      cells is never taken: the block goes to the reserve and stays out of the fusion pool. */
  lemma {:induction false} StaleBlocksStayReserved(g: Geometry, s: State, blocks: seq<nat>)
    requires PoolShape(g, s) && s.isFusion && AllBelow(blocks, g.n)
    ensures ReturnBlocks(s, blocks)
         == s.(reserved := s.reserved + blocks, reservedSet := s.reservedSet + (set b | b in blocks))
  {
    if blocks == [] {
      assert s.reserved + [] == s.reserved && (set b: nat | b in blocks) == {};
    } else {
      var i := |blocks| - 1;
      StaleBlocksStayReserved(g, s, blocks[..i]);
      ReturnBlocksPools(g, s, blocks[..i], 0);
      OneMoreReserved(g, s, ReturnBlocks(s, blocks[..i]), blocks[..i], blocks[i]);
      assert blocks == blocks[..i] + [blocks[i]];
    }
  }
}

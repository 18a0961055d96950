/** Safety over whole runs of the group: whatever the interleaving, from the first start on. */
module Runs {
  import opened Paging
  import opened Counting
  import opened Pools
  import opened Ownership
  import opened Merging
  import opened Phases
  import opened Transfers
  import opened Group
  import opened GroupSafety

  predicate IsRun(g: Group, es: seq<Event>)
    decreases |es|
  {
    es == [] || (Enabled(g, es[0]) && IsRun(Apply(g, es[0]), es[1..]))
  }

  function Run(g: Group, es: seq<Event>): Group
    requires IsRun(g, es)
    decreases |es|
  {
    if es == [] then g else Run(Apply(g, es[0]), es[1..])
  }

  /** Whenever RESTORE begins, no request waits and no engine still resharding holds a stale one. */
  predicate Clear(g: Group, es: seq<Event>)
    requires IsRun(g, es)
    decreases |es|
  {
    es == [] || ((es[0].ToRestore? ==> AtRest(g)) && Clear(Apply(g, es[0]), es[1..]))
  }

  lemma StepSafe(g: Group, e: Event)
    requires Safe(g) && Enabled(g, e) && (e.ToRestore? ==> AtRest(g))
    ensures Safe(Apply(g, e))
  {
    match e
    case Admit(r, rank, need) => AdmitSafe(g, r, rank, need);
    case Grow(r, i, need) => GrowSafe(g, r, i, need);
    case Release(r) => ReleaseSafe(g, r);
    case BeginReshard(r, need) => BeginReshardSafe(g, r, need);
    case EndReshard(r) => EndReshardSafe(g, r);
    case Park(r) => ParkSafe(g, r);
    case SwapIn(r, rank, joins) => SwapInSafe(g, r, rank, joins);
    case Look(_) => FlagsOnlySafe(g, Apply(g, e));
    case Move(_, _) => FlagsOnlySafe(g, Apply(g, e));
    case Take(r, rank) => TakeSafe(g, r, rank);
    case Complete(r) => CompleteSafe(g, r);
    case FuseReserve => FuseReserveSafe(g);
    case BeginDrain => BeginDrainSafe(g);
    case Drain(i) => DrainSafe(g, i);
    case PackOne(r, i) => PackSafe(g, r, i);
    case ToBalloon(extra, holder, engines) => ToBalloonSafe(g, extra, holder, engines);
    case BackToBalloon(extra, holder, engines) => BackToBalloonSafe(g, extra, holder, engines);
    case ToRestore(quota) => ToRestoreSafe(g, quota);
    case ToInitial => ToInitialSafe(g);
  }

  lemma StartSafe(n: nat, k: nat)
    requires n > 0 && k > 0
    ensures Safe(Start(n, k))
  {
    var g := Start(n, k);
    forall i | 0 <= i < k ensures ManagerOk(g, i) {
      InitialSound(Geo(g));
      assert OutOf(g.taken, i) == map[];
    }
  }

  lemma {:induction false} RunSafe(g: Group, es: seq<Event>)
    requires Safe(g) && IsRun(g, es) && Clear(g, es)
    ensures Safe(Run(g, es))
    decreases |es|
  {
    if es != [] {
      StepSafe(g, es[0]);
      RunSafe(Apply(g, es[0]), es[1..]);
    }
  }

  lemma {:induction false} RunConcat(g: Group, a: seq<Event>, b: seq<Event>)
    requires IsRun(g, a) && IsRun(Run(g, a), b)
    ensures IsRun(g, a + b) && Run(g, a + b) == Run(Run(g, a), b)
    ensures Clear(g, a) && Clear(Run(g, a), b) ==> Clear(g, a + b)
    decreases |a|
  {
    if a == [] {
      assert a + b == b;
    } else {
      RunConcat(Apply(g, a[0]), a[1..], b);
      assert (a + b)[1..] == a[1..] + b;
    }
  }

  /** A run goes on with any step enabled at its end. */
  lemma OneMore(g: Group, es: seq<Event>, e: Event)
    requires IsRun(g, es) && Enabled(Run(g, es), e)
    ensures IsRun(g, es + [e]) && Run(g, es + [e]) == Apply(Run(g, es), e)
    ensures Clear(g, es) && !e.ToRestore? ==> Clear(g, es + [e])
  {
    var h, last := Run(g, es), [e];
    assert last[0] == e && last[1..] == [];
    assert IsRun(Apply(h, e), []) && Clear(Apply(h, e), []);
    assert IsRun(h, last) && Run(h, last) == Apply(h, e);
    RunConcat(g, es, last);
  }

  ghost predicate Reachable(g: Group) {
    exists es, n: nat, k: nat ::
      n > 0 && k > 0 && IsRun(Start(n, k), es) && Clear(Start(n, k), es) && Run(Start(n, k), es) == g
  }

  lemma ReachableSafe(g: Group)
    requires Reachable(g)
    ensures Safe(g)
  {
    var es, n: nat, k: nat :|
      n > 0 && k > 0 && IsRun(Start(n, k), es) && Clear(Start(n, k), es) && Run(Start(n, k), es) == g;
    StartSafe(n, k);
    RunSafe(Start(n, k), es);
  }

  // ---------- what safety means ----------

  /** Page id `x`, read in `format`, stands for cell `c`. */
  ghost predicate Stands(g: Geometry, format: Format, x: nat, c: nat) {
    match format
    case Cell => x == c
    case Whole => c < g.Cells() && x == c % g.n
  }

  lemma StandsHits(g: Geometry, format: Format, p: seq<nat>, i: nat, c: nat)
    requires i < |p| && Stands(g, format, p[i], c)
    ensures Hits(g, format, p, c) >= 1
    ensures forall j | 0 <= j < |p| && j != i && Stands(g, format, p[j], c) :: Hits(g, format, p, c) >= 2
  {
    var x := match format case Cell => c case Whole => c % g.n;
    assert p[i] in multiset(p);
    forall j | 0 <= j < |p| && j != i && Stands(g, format, p[j], c) ensures Hits(g, format, p, c) >= 2 {
      RepeatedCount(p, if i < j then i else j, if i < j then j else i);
    }
  }

  lemma TwoTables(m: Tables, w: Slot -> nat, r: RequestId, q: RequestId)
    requires r in m && q in m && r != q
    ensures w(m[r]) + w(m[q]) <= Sum(m, w)
  {
    SumSplit(m, w, r);
    SumSplit(m - {r}, w, q);
  }

  /** A cell of a safe group belongs to one entry of one table at most, and then to no pool. */
  lemma SafeSharesNothing(g: Group, m: nat, r: RequestId, i: nat, q: RequestId, j: nat, c: nat)
    requires Safe(g) && m < g.k && c < Geo(g).Cells() + g.mgrs[m].numExtend
    requires var t := g.mgrs[m].table;
      && r in t && i < |t[r].pages| && Stands(Geo(g), t[r].format, t[r].pages[i], c)
      && q in t && j < |t[q].pages| && Stands(Geo(g), t[q].format, t[q].pages[j], c)
    ensures r == q && i == j
    ensures Pooled(Geo(g), g.mgrs[m], c) == 0
  {
    assert ManagerOk(g, m);
    var t, w := g.mgrs[m].table, HitsAt(Geo(g), c);
    assert Owners(Geo(g), g.mgrs[m], OutOf(g.taken, m), c) <= 1;
    StandsHits(Geo(g), t[r].format, t[r].pages, i, c);
    StandsHits(Geo(g), t[q].format, t[q].pages, j, c);
    SumMember(t, w, r);
    if r != q {
      TwoTables(t, w, r, q);
    }
  }

  /** So it is in every reachable state. */
  lemma NoSharing(g: Group, m: nat, r: RequestId, i: nat, q: RequestId, j: nat, c: nat)
    requires Reachable(g) && m < |g.mgrs| && Sized(g) && c < Geo(g).Cells() + g.mgrs[m].numExtend
    requires var t := g.mgrs[m].table;
      && r in t && i < |t[r].pages| && Stands(Geo(g), t[r].format, t[r].pages[i], c)
      && q in t && j < |t[q].pages| && Stands(Geo(g), t[q].format, t[q].pages[j], c)
    ensures r == q && i == j
    ensures Pooled(Geo(g), g.mgrs[m], c) == 0
  {
    ReachableSafe(g);
    SafeSharesNothing(g, m, r, i, q, j, c);
  }

  /** Blocks in flight for a live restore are in no table and in no pool. */
  lemma FlightIsPrivate(g: Group, m: nat, f: RequestId, i: nat, c: nat)
    requires Reachable(g) && Sized(g) && m < g.k && c < Geo(g).Cells()
    requires f in g.taken && g.taken[f].rank == m && i < |g.taken[f].pages| && c % g.n == g.taken[f].pages[i]
    ensures Pooled(Geo(g), g.mgrs[m], c) == 0 && Sum(g.mgrs[m].table, HitsAt(Geo(g), c)) == 0
  {
    ReachableSafe(g);
    assert ManagerOk(g, m);
    var out := OutOf(g.taken, m);
    assert out[f] == Slot(Whole, g.taken[f].pages);
    assert Owners(Geo(g), g.mgrs[m], out, c) == 1;
    StandsHits(Geo(g), Whole, out[f].pages, i, c);
    SumMember(out, HitsAt(Geo(g), c), f);
  }

  /** No cell is ever lost: the counts of all owners add up to one for each. */
  lemma Partition(g: Group, m: nat, c: nat)
    requires Reachable(g) && Sized(g) && m < g.k && c < Geo(g).Cells()
    ensures Owners(Geo(g), g.mgrs[m], OutOf(g.taken, m), c) == 1
  {
    ReachableSafe(g);
    assert ManagerOk(g, m);
  }

  lemma CapacityOf(g: Geometry, s: State, out: Tables, draining: bool)
    requires Sound(g, s, out, draining)
    ensures s.isFusion ==> s.maxFusion + g.k * s.maxReserved == g.k * g.n
    ensures !s.isFusion ==> g.k * s.maxGpu + s.maxReserved == g.k * g.n && s.numBase == g.n
    ensures s.fusionSize == g.k
  {
    assert g.Cells() == g.k * g.n;
  }

  /** The counters drift one by one, but not in this combination; the total in a conversion back to
      BALLOON is exactly `n`, and the assertion of `restore_from_fusion` cannot fail. */
  lemma CapacityConserved(g: Group, m: nat)
    requires Reachable(g) && Sized(g) && m < g.k
    ensures g.phase == Balloon ==> g.mgrs[m].maxFusion + g.k * g.mgrs[m].maxReserved == g.k * g.n
    ensures g.phase == Restore ==>
      && g.k * g.mgrs[m].maxGpu + g.mgrs[m].maxReserved == g.k * g.n
      && g.mgrs[m].fusionSize == g.k && g.mgrs[m].maxGpu + g.mgrs[m].maxReserved / g.k == g.n == g.mgrs[m].numBase
    ensures g.phase == Initially ==> g.mgrs[m].maxGpu == g.n == g.mgrs[m].numBase
  {
    ReachableSafe(g);
    assert ManagerOk(g, m);
    CapacityOf(Geo(g), g.mgrs[m], OutOf(g.taken, m), g.draining);
    if g.phase == Restore {
      ReserveTotal(Geo(g), g.mgrs[m]);
    }
  }
}

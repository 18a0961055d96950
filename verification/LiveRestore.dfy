/** Live restore: blocks are taken before the forward pass and installed after it, and any other steps
    of the engine may run in between. */
module LiveRestore {
  import opened Paging
  import opened Pools
  import opened Ownership
  import opened Phases
  import opened Transfers
  import opened Group
  import opened GroupSafety
  import opened Runs

  /** Everything the engine holds for `r` is as in `g`. */
  ghost predicate Undisturbed(g: Group, h: Group, r: RequestId) {
    && Sized(g) && Sized(h) && h.k == g.k && h.phase == g.phase
    && r in g.taken && r in h.taken && h.taken[r] == g.taken[r]
    && r in g.reqs && r in h.reqs && h.reqs[r] == g.reqs[r]
    && forall i | 0 <= i < g.k ::
         r in g.mgrs[i].table && r in h.mgrs[i].table && h.mgrs[i].table[r] == g.mgrs[i].table[r]
  }

  ghost predicate SameTable(s: State, t: State, r: RequestId) {
    (r in s.table <==> r in t.table) && (r in s.table ==> t.table[r] == s.table[r])
  }

  lemma AllocateOther(s: State, q: RequestId, f: Flags, i: nat, need: nat, r: RequestId)
    requires q != r
    ensures SameTable(s, AllocateOn(s, q, f, i, need), r)
  {
    if Uses(f, i) && Allocate(s, q, f.fusion, false, need).Some? {
      AllocateEffect(s, q, f.fusion, false, need);
    }
  }

  lemma ReleaseOther(g: Group, q: RequestId, i: nat, r: RequestId)
    requires Safe(g) && Enabled(g, Release(q)) && i < g.k && q != r
    ensures SameTable(g.mgrs[i], ReleaseOn(g.mgrs[i], q, g.reqs[q], i), r)
  {
    assert ManagerOk(g, i);
    assert FormatOf(g.mgrs[i], q) == Wanted(g.reqs, q, i);
    if Uses(g.reqs[q], i) {
      FreeMoves(Geo(g), g.mgrs[i], OutOf(g.taken, i), q, g.reqs[q].fusion, false, g.draining);
    }
  }

  lemma CompleteOther(g: Group, q: RequestId, i: nat, r: RequestId)
    requires Safe(g) && Enabled(g, Complete(q)) && i < g.k && q != r
    ensures SameTable(g.mgrs[i], Apply(g, Complete(q)).mgrs[i], r)
  {
    CompleteFrees(g, q, i);
  }

  lemma StepUndisturbed(g: Group, e: Event, r: RequestId)
    requires Safe(g) && Enabled(g, e) && r in g.taken && e != Complete(r)
    ensures Undisturbed(g, Apply(g, e), r)
  {
    var h := Apply(g, e);
    StepKeepsFlight(g, e, r);
    forall i | 0 <= i < g.k ensures |h.mgrs| == g.k && SameTable(g.mgrs[i], h.mgrs[i], r) {
      StepOther(g, e, r, i);
    }
    TablesUndisturbed(g, h, r);
  }

  lemma TablesUndisturbed(g: Group, h: Group, r: RequestId)
    requires Safe(g) && Sized(h) && h.k == g.k && h.phase == g.phase
    requires r in g.taken && r in h.taken && h.taken[r] == g.taken[r]
    requires r in g.reqs && r in h.reqs && h.reqs[r] == g.reqs[r]
    requires forall i | 0 <= i < g.k :: SameTable(g.mgrs[i], h.mgrs[i], r)
    ensures Undisturbed(g, h, r)
  {
    assert FlightOk(g, r, g.taken[r]);
    forall i | 0 <= i < g.k ensures r in g.mgrs[i].table && SameTable(g.mgrs[i], h.mgrs[i], r) {
      assert ManagerOk(g, i);
      assert FormatOf(g.mgrs[i], r) == Wanted(g.reqs, r, i);
    }
  }

  lemma StepKeepsFlight(g: Group, e: Event, r: RequestId)
    requires Safe(g) && Enabled(g, e) && r in g.taken && e != Complete(r)
    ensures var h := Apply(g, e);
      && h.phase == g.phase && h.n == g.n && h.k == g.k
      && r in h.taken && h.taken[r] == g.taken[r]
      && r in g.reqs && r in h.reqs && h.reqs[r] == g.reqs[r]
  {
    assert FlightOk(g, r, g.taken[r]);
  }

  lemma StepOther(g: Group, e: Event, r: RequestId, i: nat)
    requires Safe(g) && Enabled(g, e) && r in g.taken && e != Complete(r) && i < g.k
    ensures |Apply(g, e).mgrs| == g.k && SameTable(g.mgrs[i], Apply(g, e).mgrs[i], r)
  {
    if e.Admit? || e.Grow? {
      StepAllocates(g, e, r, i);
    } else if e.Release? || e.Complete? {
      StepReleases(g, e, r, i);
    } else {
      StepElsewhere(g, e, r, i);
    }
  }

  lemma StepReleases(g: Group, e: Event, r: RequestId, i: nat)
    requires Safe(g) && Enabled(g, e) && r in g.taken && e != Complete(r) && i < g.k && (e.Release? || e.Complete?)
    ensures |Apply(g, e).mgrs| == g.k && SameTable(g.mgrs[i], Apply(g, e).mgrs[i], r)
  {
    assert FlightOk(g, r, g.taken[r]);
    match e
    case Release(q) => ReleaseOther(g, q, i, r);
    case Complete(q) => CompleteOther(g, q, i, r);
  }

  lemma StepAllocates(g: Group, e: Event, r: RequestId, i: nat)
    requires Safe(g) && Enabled(g, e) && r in g.taken && i < g.k && (e.Admit? || e.Grow?)
    ensures |Apply(g, e).mgrs| == g.k && SameTable(g.mgrs[i], Apply(g, e).mgrs[i], r)
  {
    assert FlightOk(g, r, g.taken[r]);
    match e
    case Admit(q, rank, need) => AllocateOther(g.mgrs[i], q, Flags(false, rank, true), i, need, r);
    case Grow(q, j, need) => AllocateOther(g.mgrs[j], q, g.reqs[q], j, need, r);
  }

  /** No other step of RESTORE touches the table of a request in flight. */
  lemma StepElsewhere(g: Group, e: Event, r: RequestId, i: nat)
    requires Safe(g) && Enabled(g, e) && r in g.taken && i < g.k
    requires !e.Admit? && !e.Grow? && !e.Release? && !e.Complete?
    ensures |Apply(g, e).mgrs| == g.k && SameTable(g.mgrs[i], Apply(g, e).mgrs[i], r)
  {
    assert FlightOk(g, r, g.taken[r]);
  }

  lemma {:induction false} RunUndisturbed(g: Group, es: seq<Event>, r: RequestId)
    requires Safe(g) && IsRun(g, es) && r in g.taken && Complete(r) !in es
    ensures Undisturbed(g, Run(g, es), r) && Safe(Run(g, es))
    decreases |es|
  {
    assert FlightOk(g, r, g.taken[r]);
    if es == [] {
      forall i | 0 <= i < g.k ensures r in g.mgrs[i].table {
        assert ManagerOk(g, i);
        assert FormatOf(g.mgrs[i], r) == Wanted(g.reqs, r, i);
      }
    } else {
      StepSafe(g, es[0]);
      StepUndisturbed(g, es[0], r);
      RunUndisturbed(Apply(g, es[0]), es[1..], r);
    }
  }

  /** Completing gives the request the blocks taken for it, as its only table. */
  lemma CompletionGives(h: Group, r: RequestId)
    requires Safe(h) && r in h.taken
    ensures Enabled(h, Complete(r)) && h.taken[r].rank < h.k
    ensures var (d, rank) := (Apply(h, Complete(r)), h.taken[r].rank);
      && Safe(d) && |d.mgrs| == h.k
      && r in d.reqs && d.reqs[r] == Flags(false, rank, true)
      && r in d.mgrs[rank].table && d.mgrs[rank].table[r] == Slot(Whole, h.taken[r].pages)
      && (forall i | 0 <= i < h.k && i != rank :: r !in d.mgrs[i].table)
  {
    assert FlightOk(h, r, h.taken[r]);
    CompleteSafe(h, r);
    var d := Apply(h, Complete(r));
    forall i | 0 <= i < h.k && i != h.taken[r].rank ensures r !in d.mgrs[i].table {
      CompleteFrees(h, r, i);
    }
  }

  /** Once blocks are taken, any run of other steps leaves the completion possible; completing gives
      the request one table of the same length on `rank` and none elsewhere, in a safe state. */
  lemma LiveRestoreCompletes(g: Group, r: RequestId, rank: nat, es: seq<Event>)
    requires Safe(g) && Enabled(g, Take(r, rank)) && r in Apply(g, Take(r, rank)).taken
    requires IsRun(Apply(g, Take(r, rank)), es) && Complete(r) !in es
    ensures var h := Run(Apply(g, Take(r, rank)), es);
      && Enabled(h, Complete(r))
      && var d := Apply(h, Complete(r));
         && Safe(d)
         && d.reqs[r] == Flags(false, rank, true)
         && |d.mgrs| == g.k
         && FormatOf(d.mgrs[rank], r) == Some(Whole) && Held(d.mgrs[rank], r) == Held(g.mgrs[rank], r)
         && d.mgrs[rank].table[r].pages <= g.mgrs[rank].free
         && (forall i | 0 <= i < g.k && i != rank :: r !in d.mgrs[i].table)
  {
    var start := Apply(g, Take(r, rank));
    TakeSafe(g, r, rank);
    RunUndisturbed(start, es, r);
    var h := Run(start, es);
    CompletionGives(h, r);
    var (t, blocks) := TakeBlocks(g.mgrs[rank], Held(g.mgrs[rank], r));
    assert start.taken[r] == Flight(rank, blocks);
  }
}

/** A step leaves alone every request it is not about. */
module Frames {
  import opened Paging
  import opened Pools
  import opened Phases
  import opened Transfers
  import opened Group
  import opened GroupSafety
  import opened LiveRestore
  import Reshard

  function Subject(e: Event): Option<RequestId> {
    match e
    case Admit(r, _, _) => Some(r)
    case Grow(r, _, _) => Some(r)
    case Release(r) => Some(r)
    case BeginReshard(r, _) => Some(r)
    case EndReshard(r) => Some(r)
    case Park(r) => Some(r)
    case SwapIn(r, _, _) => Some(r)
    case Move(r, _) => Some(r)
    case Take(r, _) => Some(r)
    case Complete(r) => Some(r)
    case PackOne(r, _) => Some(r)
    case _ => None
  }

  /** Flags, tables, blocks in flight and place of `r` are as before. */
  ghost predicate Untouched(g: Group, h: Group, r: RequestId) {
    && Reshard.Kept(g, h, r)
    && (r in g.taken <==> r in h.taken) && (r in g.taken ==> h.taken[r] == g.taken[r])
    && (r in g.waiting <==> r in h.waiting)
  }

  lemma StepTables(g: Group, e: Event, r: RequestId, i: nat)
    requires Safe(g) && Enabled(g, e) && Subject(e) != Some(r) && i < g.k
    ensures |Apply(g, e).mgrs| == g.k && SameTable(g.mgrs[i], Apply(g, e).mgrs[i], r)
  {
    if Subject(e).None? {
      PoolStepTables(g, e, i);
    } else if e.Admit? || e.Grow? || e.BeginReshard? {
      AllocatingTables(g, e, r, i);
    } else {
      OwnTables(g, e, r, i);
    }
  }

  lemma AllocatingTables(g: Group, e: Event, r: RequestId, i: nat)
    requires Safe(g) && Enabled(g, e) && Subject(e) != Some(r) && i < g.k
    requires e.Admit? || e.Grow? || e.BeginReshard?
    ensures |Apply(g, e).mgrs| == g.k && SameTable(g.mgrs[i], Apply(g, e).mgrs[i], r)
  {
    match e
    case Admit(q, rank, need) => AllocateOther(g.mgrs[i], q, Flags(g.phase == Balloon, rank, true), i, need, r);
    case Grow(q, j, need) => AllocateOther(g.mgrs[j], q, g.reqs[q], j, need, r);
    case BeginReshard(q, need) => PreparedOther(g, q, need, i, r);
  }

  lemma OwnTables(g: Group, e: Event, r: RequestId, i: nat)
    requires Safe(g) && Enabled(g, e) && Subject(e).Some? && Subject(e) != Some(r) && i < g.k
    requires !e.Admit? && !e.Grow? && !e.BeginReshard?
    ensures |Apply(g, e).mgrs| == g.k && SameTable(g.mgrs[i], Apply(g, e).mgrs[i], r)
  {
    match e
    case Release(q) => ReleaseOther(g, q, i, r);
    case Complete(q) => CompleteOther(g, q, i, r);
    case _ =>
  }

  /** Conversions and turns of the waiting loop touch no table. */
  lemma PoolStepTables(g: Group, e: Event, i: nat)
    requires Safe(g) && Enabled(g, e) && Subject(e).None? && i < g.k
    ensures |Apply(g, e).mgrs| == g.k && Apply(g, e).mgrs[i].table == g.mgrs[i].table
  {
    match e
    case ToRestore(quota) => RestoredTables(g.mgrs[i], quota);
    case _ =>
  }

  lemma PreparedOther(g: Group, q: RequestId, need: nat, i: nat, r: RequestId)
    requires Safe(g) && Enabled(g, BeginReshard(q, need)) && q != r && i < g.k
    ensures SameTable(g.mgrs[i], PreparePeers(g.mgrs, q, g.reqs[q].home, need).0[i], r)
  {
    Reshard.AllOrNothing(g, q, need);
    var p := PreparePeers(g.mgrs, q, g.reqs[q].home, need);
    if i != g.reqs[q].home && p.1 {
      assert r in p.0[i].table <==> r in p.0[i].table - {q};
    }
  }

  lemma RestoredTables(s: State, quota: nat)
    ensures RestoreOne(s, quota).table == s.table
  {
  }

  /** Whatever the step: a request it is not about keeps everything. */
  lemma StepFrame(g: Group, e: Event, r: RequestId)
    requires Safe(g) && Enabled(g, e) && Subject(e) != Some(r)
    ensures Untouched(g, Apply(g, e), r)
  {
    StepRecords(g, e, r);
    forall i | 0 <= i < g.k ensures SameTable(g.mgrs[i], Apply(g, e).mgrs[i], r) {
      StepTables(g, e, r, i);
    }
  }

  lemma StepRecords(g: Group, e: Event, r: RequestId)
    requires Safe(g) && Enabled(g, e) && Subject(e) != Some(r)
    ensures var h := Apply(g, e);
      && Sized(h) && h.k == g.k
      && (r in g.reqs <==> r in h.reqs) && (r in g.reqs ==> h.reqs[r] == g.reqs[r])
      && (r in g.taken <==> r in h.taken) && (r in g.taken ==> h.taken[r] == g.taken[r])
      && (r in g.waiting <==> r in h.waiting)
  {
  }
}

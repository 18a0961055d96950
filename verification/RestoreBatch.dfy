/** Live restore of a whole batch: taking the new blocks before the forward, installing them after it. */
module RestoreBatch {
  import opened Paging
  import opened Counting
  import opened Pools
  import opened Group
  import opened GroupSafety
  import opened Runs
  import opened LiveRestore

  /** The request's cells are freed on every manager, then its new blocks become its table on `rank`. */
  function CompleteOne(mgrs: seq<State>, r: RequestId, rank: nat, pages: seq<nat>): (m: seq<State>)
    requires rank < |mgrs|
    ensures |m| == |mgrs|
  {
    var freed := seq(|mgrs|, i requires 0 <= i < |mgrs| => FreeOr(mgrs[i], r, true, false));
    freed[rank := Install(freed[rank], r, pages)]
  }

  function CompleteAll(mgrs: seq<State>, ids: seq<RequestId>, rank: nat, blocks: seq<seq<nat>>): (m: seq<State>)
    requires rank < |mgrs| && |blocks| <= |ids|
    ensures |m| == |mgrs|
    decreases |blocks|
  {
    if blocks == [] then mgrs
    else CompleteAll(CompleteOne(mgrs, ids[0], rank, blocks[0]), ids[1..], rank, blocks[1..])
  }

  function Takes(ids: seq<RequestId>, rank: nat): seq<Event> {
    if ids == [] then [] else [Take(ids[0], rank)] + Takes(ids[1..], rank)
  }

  function Completes(ids: seq<RequestId>): seq<Event> {
    if ids == [] then [] else [Complete(ids[0])] + Completes(ids[1..])
  }

  /** Fused requests, none of them already being restored. */
  ghost predicate Restorable(g: Group, ids: seq<RequestId>) {
    Distinct(ids) && forall i | 0 <= i < |ids| :: ids[i] in g.reqs && g.reqs[ids[i]].fusion && ids[i] !in g.taken
  }

  ghost predicate InFlight(g: Group, ids: seq<RequestId>, rank: nat, blocks: seq<seq<nat>>) {
    && Distinct(ids) && |blocks| <= |ids|
    && forall i | 0 <= i < |blocks| :: ids[i] in g.taken && g.taken[ids[i]] == Flight(rank, blocks[i])
  }

  lemma HasTable(g: Group, r: RequestId, i: nat)
    requires Safe(g) && r in g.reqs && g.reqs[r].fusion && i < g.k
    ensures r in g.mgrs[i].table
  {
    assert ManagerOk(g, i);
    assert FormatOf(g.mgrs[i], r) == Wanted(g.reqs, r, i);
  }

  ghost predicate TookAll(g: Group, ids: seq<RequestId>, rank: nat, t: State, blocks: seq<seq<nat>>, h: Group)
    requires Sized(g) && rank < g.k
  {
    && h.mgrs == g.mgrs[rank := t] && InFlight(h, ids, rank, blocks)
    && Safe(h) && h.phase == Restore && h.reqs == g.reqs
    && forall r | r in g.taken :: r in h.taken && h.taken[r] == g.taken[r]
  }

  /** `h` is what step `e` makes of `g`: runs of `h` are runs of `g` after it. */
  ghost predicate Follows(g: Group, e: Event, h: Group) {
    forall es :: IsRun(h, es) ==> IsRun(g, [e] + es) && Run(g, [e] + es) == Run(h, es)
  }

  lemma TookOne(g: Group, ids: seq<RequestId>, rank: nat) returns (h: Group)
    requires Safe(g) && g.phase == Restore && rank < g.k && Restorable(g, ids) && ids != []
    requires TakeBlocks(g.mgrs[rank], Held(g.mgrs[rank], ids[0])).1 != []
    ensures h.k == g.k && Follows(g, Take(ids[0], rank), h) && Restorable(h, ids[1..])
    ensures var (t, blocks) := TakeBlocks(g.mgrs[rank], Held(g.mgrs[rank], ids[0]));
      h.taken == g.taken[ids[0] := Flight(rank, blocks)] && TookAll(g, ids, rank, t, [blocks], h)
  {
    HasTable(g, ids[0], rank);
    TakeSafe(g, ids[0], rank);
    h := Apply(g, Take(ids[0], rank));
    forall es | IsRun(h, es)
      ensures IsRun(g, [Take(ids[0], rank)] + es) && Run(g, [Take(ids[0], rank)] + es) == Run(h, es)
    {
      assert ([Take(ids[0], rank)] + es)[1..] == es;
    }
  }

  /** `n` takes lead from `g` to `h`. */
  ghost predicate Chain(g: Group, ids: seq<RequestId>, rank: nat, n: nat, h: Group)
    requires n <= |ids|
    decreases n
  {
    if n == 0 then h == g
    else exists mid :: Follows(g, Take(ids[0], rank), mid) && Chain(mid, ids[1..], rank, n - 1, h)
  }

  lemma {:induction false} ChainIsRun(g: Group, ids: seq<RequestId>, rank: nat, n: nat, h: Group)
    requires n <= |ids| && Chain(g, ids, rank, n, h)
    ensures IsRun(g, Takes(ids[..n], rank)) && h == Run(g, Takes(ids[..n], rank))
    decreases n
  {
    if n > 0 {
      var mid :| Follows(g, Take(ids[0], rank), mid) && Chain(mid, ids[1..], rank, n - 1, h);
      ChainIsRun(mid, ids[1..], rank, n - 1, h);
      assert ids[..n][1..] == ids[1..][..n - 1];
      assert Takes(ids[..n], rank) == [Take(ids[0], rank)] + Takes(ids[1..][..n - 1], rank);
    }
  }

  lemma {:induction false} TakeAllChain(g: Group, ids: seq<RequestId>, rank: nat, cap: nat) returns (h: Group)
    requires Safe(g) && g.phase == Restore && rank < g.k && Restorable(g, ids)
    ensures var (t, blocks) := TakeAll(g.mgrs[rank], ids, cap);
      Chain(g, ids, rank, |blocks|, h) && TookAll(g, ids, rank, t, blocks, h)
    decreases |ids|, 1
  {
    h := g;
    if ids != [] && TakeBlocks(g.mgrs[rank], Held(g.mgrs[rank], ids[0])).1 != [] {
      var (t, blocks) := TakeBlocks(g.mgrs[rank], Held(g.mgrs[rank], ids[0]));
      var mid := TookOne(g, ids, rank);
      h := mid;
      if cap <= 1 {
        ChainMore(g, mid, ids, rank, 0, h);
      } else {
        h := TakeRest(g, mid, ids, rank, cap, t, blocks);
      }
    }
  }

  lemma TakeRest(g: Group, mid: Group, ids: seq<RequestId>, rank: nat, cap: nat, t: State, blocks: seq<nat>)
    returns (h: Group)
    requires Sized(g) && rank < g.k && Restorable(g, ids) && ids != [] && cap > 1
    requires mid.k == g.k && Restorable(mid, ids[1..]) && Follows(g, Take(ids[0], rank), mid)
    requires mid.taken == g.taken[ids[0] := Flight(rank, blocks)] && TookAll(g, ids, rank, t, [blocks], mid)
    ensures var (u, rest) := TakeAll(t, ids[1..], cap - 1);
      Chain(g, ids, rank, |rest| + 1, h) && TookAll(g, ids, rank, u, [blocks] + rest, h)
    decreases |ids|, 0
  {
    h := TakeAllChain(mid, ids[1..], rank, cap - 1);
    var (u, rest) := TakeAll(t, ids[1..], cap - 1);
    ChainMore(g, mid, ids, rank, |rest|, h);
    TookOneMore(g, ids, rank, blocks, mid, u, rest, h);
  }

  lemma ChainMore(g: Group, mid: Group, ids: seq<RequestId>, rank: nat, n: nat, h: Group)
    requires n < |ids| && Follows(g, Take(ids[0], rank), mid) && Chain(mid, ids[1..], rank, n, h)
    ensures Chain(g, ids, rank, n + 1, h)
  {
  }

  /** Taking for the batch is a run of takes, one for each request served, that gives each its own blocks. */
  lemma TakeAllIsRun(g: Group, ids: seq<RequestId>, rank: nat, cap: nat) returns (h: Group)
    requires Safe(g) && g.phase == Restore && rank < g.k && Restorable(g, ids)
    ensures var (t, blocks) := TakeAll(g.mgrs[rank], ids, cap);
      && IsRun(g, Takes(ids[..|blocks|], rank)) && h == Run(g, Takes(ids[..|blocks|], rank))
      && TookAll(g, ids, rank, t, blocks, h)
  {
    h := TakeAllChain(g, ids, rank, cap);
    ChainIsRun(g, ids, rank, |TakeAll(g.mgrs[rank], ids, cap).1|, h);
  }

  lemma OneMoreFlight(h: Group, ids: seq<RequestId>, rank: nat, first: seq<nat>, rest: seq<seq<nat>>)
    requires ids != [] && Distinct(ids) && |rest| <= |ids[1..]| && InFlight(h, ids[1..], rank, rest)
    requires ids[0] in h.taken && h.taken[ids[0]] == Flight(rank, first)
    ensures InFlight(h, ids, rank, [first] + rest)
  {
    forall i | 0 <= i < |rest| + 1 ensures ids[i] in h.taken && h.taken[ids[i]] == Flight(rank, ([first] + rest)[i]) {
      if i > 0 {
        assert ids[1..][i - 1] in h.taken;
      }
    }
  }

  lemma TookOneMore(g: Group, ids: seq<RequestId>, rank: nat, first: seq<nat>, mid: Group, u: State,
                    rest: seq<seq<nat>>, h: Group)
    requires Sized(g) && rank < g.k && ids != [] && Distinct(ids) && ids[0] !in g.taken
    requires Sized(mid) && mid.k == g.k && mid.reqs == g.reqs && mid.mgrs[rank := u] == g.mgrs[rank := u]
    requires mid.taken == g.taken[ids[0] := Flight(rank, first)]
    requires |rest| <= |ids[1..]| && TookAll(mid, ids[1..], rank, u, rest, h)
    ensures TookAll(g, ids, rank, u, [first] + rest, h)
  {
    assert ids[0] in mid.taken;
    OneMoreFlight(h, ids, rank, first, rest);
  }

  /** All the blocks, one request after the other. */
  ghost function AllOf(blocks: seq<seq<nat>>): seq<nat> {
    if blocks == [] then [] else blocks[0] + AllOf(blocks[1..])
  }

  lemma TakeBlocksExactly(s: State, count: nat)
    ensures var (t, blocks) := TakeBlocks(s, count);
      && t == s.(free := t.free) && s.free == blocks + t.free
      && |blocks| == (if count <= |s.free| then count else 0)
  {
    if count > |s.free| {
      assert [] + s.free == s.free;
    }
  }

  /** Each request served gets a new block for every page it holds, from the front of the free list. The next one is
      left out only if the batch limit is reached, it holds nothing, or too few blocks are left for it. */
  ghost predicate TakenFor(s: State, ids: seq<RequestId>, cap: nat, t: State, blocks: seq<seq<nat>>) {
    && t == s.(free := t.free) && s.free == AllOf(blocks) + t.free
    && |blocks| <= |ids| && |blocks| <= Limit(cap)
    && (forall i | 0 <= i < |blocks| :: |blocks[i]| == Held(s, ids[i]) > 0)
    && (|blocks| == |ids| || |blocks| == Limit(cap) || Held(s, ids[|blocks|]) == 0 || Held(s, ids[|blocks|]) > |t.free|)
  }

  function Limit(cap: nat): nat {
    if cap == 0 then 1 else cap
  }

  lemma TakenFirst(s: State, ids: seq<RequestId>, cap: nat, t: State, first: seq<nat>, u: State, rest: seq<seq<nat>>)
    requires ids != [] && cap > 1 && t == s.(free := t.free) && s.free == first + t.free
    requires |first| == Held(s, ids[0]) > 0 && TakenFor(t, ids[1..], cap - 1, u, rest)
    ensures TakenFor(s, ids, cap, u, [first] + rest)
  {
    var all := [first] + rest;
    assert all[1..] == rest;
    assert first + (AllOf(rest) + u.free) == AllOf(all) + u.free;
    forall i | 0 <= i < |all| ensures |all[i]| == Held(s, ids[i]) > 0 {
      if i > 0 {
        assert ids[1..][i - 1] == ids[i] && all[i] == rest[i - 1];
      }
    }
  }

  lemma {:induction false} TakeAllExactly(s: State, ids: seq<RequestId>, cap: nat)
    ensures TakenFor(s, ids, cap, TakeAll(s, ids, cap).0, TakeAll(s, ids, cap).1)
    decreases |ids|
  {
    assert AllOf([]) + s.free == s.free;
    if ids != [] {
      var (t, blocks) := TakeBlocks(s, Held(s, ids[0]));
      TakeBlocksExactly(s, Held(s, ids[0]));
      if blocks != [] && cap > 1 {
        TakeAllExactly(t, ids[1..], cap - 1);
        TakenFirst(s, ids, cap, t, blocks, TakeAll(t, ids[1..], cap - 1).0, TakeAll(t, ids[1..], cap - 1).1);
      } else if blocks != [] {
        assert AllOf([blocks]) == blocks + AllOf([blocks][1..]) == blocks;
      }
    }
  }

  /** One table of the request's new blocks on `rank`, none elsewhere. */
  ghost predicate Restored(g: Group, r: RequestId, rank: nat, pages: seq<nat>) {
    && Sized(g) && r in g.reqs && g.reqs[r] == Flags(false, rank, true) && r !in g.taken
    && forall i | 0 <= i < g.k ::
         if i == rank then r in g.mgrs[i].table && g.mgrs[i].table[r] == Slot(Whole, pages)
         else r !in g.mgrs[i].table
  }

  lemma CompleteRestores(g: Group, r: RequestId)
    requires Safe(g) && Enabled(g, Complete(r))
    ensures var h := Apply(g, Complete(r));
      && Safe(h) && h.mgrs == CompleteOne(g.mgrs, r, g.taken[r].rank, g.taken[r].pages)
      && Restored(h, r, g.taken[r].rank, g.taken[r].pages)
  {
    var h := Apply(g, Complete(r));
    CompleteSafe(g, r);
    forall i | 0 <= i < g.k && i != g.taken[r].rank ensures r !in h.mgrs[i].table {
      CompleteFrees(g, r, i);
    }
  }

  lemma RestoredStays(g: Group, q: RequestId, r: RequestId, rank: nat, pages: seq<nat>)
    requires Safe(g) && Enabled(g, Complete(q)) && q != r && Restored(g, r, rank, pages)
    ensures Restored(Apply(g, Complete(q)), r, rank, pages)
  {
    var h := Apply(g, Complete(q));
    forall i | 0 <= i < g.k ensures SameTable(g.mgrs[i], h.mgrs[i], r) {
      CompleteOther(g, q, i, r);
    }
  }

  lemma {:induction false} CompletesKeep(g: Group, ids: seq<RequestId>, rank: nat, blocks: seq<seq<nat>>, r: RequestId,
                                         at: nat, pages: seq<nat>)
    requires Safe(g) && g.phase == Restore && InFlight(g, ids, rank, blocks) && |ids| == |blocks|
    requires r !in ids && Restored(g, r, at, pages)
    ensures IsRun(g, Completes(ids)) && Restored(Run(g, Completes(ids)), r, at, pages)
    decreases |ids|
  {
    if ids != [] {
      var q := ids[0];
      assert FlightOk(g, q, g.taken[q]);
      CompleteRestores(g, q);
      RestoredStays(g, q, r, at, pages);
      StillInFlight(g, ids, rank, blocks);
      CompletesKeep(Apply(g, Complete(q)), ids[1..], rank, blocks[1..], r, at, pages);
      assert Completes(ids)[1..] == Completes(ids[1..]);
    }
  }

  lemma StillInFlight(g: Group, ids: seq<RequestId>, rank: nat, blocks: seq<seq<nat>>)
    requires blocks != [] && InFlight(g, ids, rank, blocks) && Enabled(g, Complete(ids[0]))
    ensures InFlight(Apply(g, Complete(ids[0])), ids[1..], rank, blocks[1..])
  {
  }

  lemma FirstCompleted(g: Group, ids: seq<RequestId>, rank: nat, blocks: seq<seq<nat>>) returns (mid: Group)
    requires Safe(g) && g.phase == Restore && rank < g.k && InFlight(g, ids, rank, blocks) && blocks != []
    ensures Enabled(g, Complete(ids[0])) && mid == Apply(g, Complete(ids[0]))
    ensures Safe(mid) && mid.phase == Restore && mid.k == g.k && InFlight(mid, ids[1..], rank, blocks[1..])
    ensures rank < |g.mgrs| && mid.mgrs == CompleteOne(g.mgrs, ids[0], rank, blocks[0])
    ensures Restored(mid, ids[0], rank, blocks[0])
  {
    assert FlightOk(g, ids[0], g.taken[ids[0]]);
    mid := Apply(g, Complete(ids[0]));
    CompleteRestores(g, ids[0]);
    StillInFlight(g, ids, rank, blocks);
  }

  lemma RunsOn(g: Group, mid: Group, ids: seq<RequestId>)
    requires ids != [] && Enabled(g, Complete(ids[0])) && mid == Apply(g, Complete(ids[0]))
    requires IsRun(mid, Completes(ids[1..]))
    ensures IsRun(g, Completes(ids)) && Run(g, Completes(ids)) == Run(mid, Completes(ids[1..]))
  {
    assert Completes(ids)[1..] == Completes(ids[1..]);
  }

  /** Completing the batch is a run of completions; afterwards every request of it has exactly its new
      blocks, on `rank` only. */
  lemma {:induction false} CompleteAllIsRun(g: Group, ids: seq<RequestId>, rank: nat, blocks: seq<seq<nat>>)
    returns (h: Group)
    requires Safe(g) && g.phase == Restore && rank < g.k && InFlight(g, ids, rank, blocks) && |ids| == |blocks|
    ensures IsRun(g, Completes(ids)) && h == Run(g, Completes(ids)) && Safe(h)
    ensures h.mgrs == CompleteAll(g.mgrs, ids, rank, blocks)
    ensures forall i | 0 <= i < |ids| :: Restored(h, ids[i], rank, blocks[i])
    decreases |ids|
  {
    h := g;
    if ids != [] {
      var mid := FirstCompleted(g, ids, rank, blocks);
      h := CompleteAllIsRun(mid, ids[1..], rank, blocks[1..]);
      RunsOn(g, mid, ids);
      CompletesKeep(mid, ids[1..], rank, blocks[1..], ids[0], rank, blocks[0]);
      forall i | 0 <= i < |ids| ensures Restored(h, ids[i], rank, blocks[i]) {
        if i > 0 {
          assert Restored(h, ids[1..][i - 1], rank, blocks[1..][i - 1]);
        }
      }
    }
  }
}

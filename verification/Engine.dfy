/**
  One virtual engine over the managers of the group: its queues are fields that the methods reassign.
  Each method is proved against the function the theorems are about; the group is a ghost argument
  where only its invariant rules out an exception halfway through.
 */
module Engine {
  import opened Counting
  import opened Paging
  import opened Pools
  import opened BlockManagerClass
  import opened Backend
  import opened Requests
  import opened Group
  import opened GroupSafety
  import opened Prefill
  import A = Admission
  import P = Preemption
  import B = RestoreBatch
  import I = Iteration
  import Reshard

  class VirtualEngine {
    const backend: FlashBackend
    const budget: nat
    const maxBatchSize: nat
    const rank: nat
    var running: seq<Req>
    var unaccepted: seq<Req>

    constructor (backend: FlashBackend, budget: nat, maxBatchSize: nat, rank: nat)
      ensures this.backend == backend && this.budget == budget && this.maxBatchSize == maxBatchSize && this.rank == rank
      ensures running == [] && unaccepted == []
    {
      this.backend, this.budget, this.maxBatchSize, this.rank := backend, budget, maxBatchSize, rank;
      running, unaccepted := [], [];
    }

    // ---------- pages of one request ----------

    /** `_allocate_blocks`; `false` when a manager raises. */
    method AllocateBlocks(q: Req) returns (ok: bool)
      requires backend.Valid() && (q.fusion || q.home < |backend.managers|)
      modifies backend.managers
      ensures backend.Valid()
      ensures (backend.Views(), ok) == P.GrowOn(old(backend.Views()), q, P.Need(backend.blockSize, q), 0)
    {
      var need := BlocksNeeded(NumTokens(q), backend.blockSize);
      if q.fusion {
        ghost var goal := P.GrowOn(backend.Views(), q, need, 0);
        var i := 0;
        while i < |backend.managers|
          invariant 0 <= i <= |backend.managers| && backend.Valid()
          invariant goal == P.GrowOn(backend.Views(), q, need, i)
        {
          ok := backend.AllocateAt(i, q.id, true, false, need);
          if !ok {
            return;
          }
          i := i + 1;
        }
        ok := true;
      } else {
        GrowAtHome(backend.Views(), q, need, 0);
        ok := backend.AllocateAt(q.home, q.id, false, false, need);
      }
    }

    /** `_free_blocks`, for a request whose release cannot raise halfway. */
    method FreeBlocks(q: Req)
      requires backend.Valid() && (q.fusion || q.home < |backend.managers|)
      requires Freeable(backend.Views(), q)
      modifies backend.managers
      ensures backend.Valid()
      ensures backend.Views() == P.ReleaseAll(old(backend.Views()), q)
    {
      ghost var goal := P.ReleaseAll(backend.Views(), q);
      if q.fusion {
        backend.FreeEverywhere(q.id);
      } else {
        var held := backend.FreeAt(q.home, q.id, false, false);
      }
      assert backend.Views() == goal;
    }

    // ---------- step 1 of the next batch ----------

    /** `get_latest_running_request`, without taking it out yet. */
    method GetLatestRunningRequest(fusion: bool, home: nat) returns (v: Option<nat>)
      ensures v == P.Victim(running, fusion, home)
    {
      var n := |running|;
      assert running[..n] == running;
      while n > 0
        invariant 0 <= n <= |running|
        invariant P.Victim(running, fusion, home) == P.Victim(running[..n], fusion, home)
      {
        assert running[..n][..n - 1] == running[..n - 1];
        if P.Eligible(running[n - 1], fusion, home) {
          return Some(n - 1);
        }
        n := n - 1;
      }
      v := None;
    }

    /** Allocates for one running request after the other, up to the first whose pages do not come. */
    method AllocateBatch() returns (j: nat)
      requires backend.Valid()
      requires forall i | 0 <= i < |running| :: running[i].fusion || running[i].home < |backend.managers|
      modifies backend.managers
      ensures backend.Valid()
      ensures (backend.Views(), j) == P.GrowAll(backend.blockSize, old(backend.Views()), running, 0)
    {
      ghost var goal := P.GrowAll(backend.blockSize, backend.Views(), running, 0);
      j := 0;
      while j < |running|
        invariant 0 <= j <= |running| && backend.Valid()
        invariant goal == P.GrowAll(backend.blockSize, backend.Views(), running, j)
      {
        var ok := AllocateBlocks(running[j]);
        if !ok {
          return;
        }
        j := j + 1;
      }
    }

    /** Takes a request out of the batch and puts it, all its output in the prompt, in front of the queue. */
    method Recompute(v: nat)
      requires backend.Valid() && v < |running| && (running[v].fusion || running[v].home < |backend.managers|)
      requires Freeable(backend.Views(), running[v])
      modifies this`running, this`unaccepted, backend.managers
      ensures backend.Valid()
      ensures backend.Views() == P.ReleaseAll(old(backend.Views()), old(running)[v])
      ensures running == Without(old(running), v)
      ensures unaccepted == [PrepareForRecompute(old(running)[v])] + old(unaccepted)
    {
      var q := running[v];
      running := Without(running, v);
      FreeBlocks(q);
      unaccepted := [PrepareForRecompute(q)] + unaccepted;
    }

    /** `trigger_recompute`: evicts the latest request that may be evicted for `q`, if there is one. */
    method TriggerRecompute(q: Req, ghost g: Group) returns (ok: bool, ghost h: Group)
      requires backend.Valid() && P.RunningIn(backend.blockSize, g, running) && backend.Views() == g.mgrs
      modifies this`running, this`unaccepted, backend.managers
      ensures backend.Valid() && P.RunningIn(backend.blockSize, h, running) && backend.Views() == h.mgrs
      ensures match P.Victim(old(running), q.fusion, q.home)
              case None => !ok && running == old(running) && unaccepted == old(unaccepted) && h == g
              case Some(v) =>
                && ok && h.mgrs == P.ReleaseAll(g.mgrs, old(running)[v])
                && running == Without(old(running), v)
                && unaccepted == [PrepareForRecompute(old(running)[v])] + old(unaccepted)
    {
      var v := GetLatestRunningRequest(q.fusion, q.home);
      if v.None? {
        return false, g;
      }
      HomesKnown(backend.blockSize, g, running);
      VictimFreeable(backend.blockSize, g, running, v.value);
      h := P.EvictSafe(backend.blockSize, g, running, v.value);
      Recompute(v.value);
      ok := true;
    }

    /** Step 1 of `_get_next_batch`: evicts until the pages suffice; `false` when nobody is left to evict. */
    method AllocateRunning(ghost g: Group) returns (ok: bool)
      requires backend.Valid() && P.RunningIn(backend.blockSize, g, running) && backend.Views() == g.mgrs
      modifies this`running, this`unaccepted, backend.managers
      ensures backend.Valid()
      ensures P.Outcome(backend.Views(), running, unaccepted, ok)
           == P.AllocateRunning(backend.blockSize, old(backend.Views()), old(running), old(unaccepted))
    {
      ghost var cur := g;
      ghost var goal := P.AllocateRunning(backend.blockSize, backend.Views(), running, unaccepted);
      ok := true;
      while ok
        invariant backend.Valid() && P.RunningIn(backend.blockSize, cur, running) && backend.Views() == cur.mgrs
        invariant if ok then goal == P.AllocateRunning(backend.blockSize, backend.Views(), running, unaccepted)
                  else goal == P.Outcome(backend.Views(), running, unaccepted, false)
        decreases |running|, ok
      {
        HomesKnown(backend.blockSize, cur, running);
        cur := P.GrowAllSafe(backend.blockSize, cur, running, 0);
        var j := AllocateBatch();
        if j == |running| {
          return true;
        }
        ok, cur := TriggerRecompute(running[j], cur);
      }
    }

    // ---------- composing the batch ----------

    function Settings(fused: bool): Config {
      Config(budget, maxBatchSize, backend.blockSize, fused, rank)
    }

    ghost function Batched(): Batch
      reads this, backend.managers
    {
      Batch(running, unaccepted, backend.Views())
    }

    /** The running requests with prompt left move on to their next chunk; the budget left is passed along. */
    method NextChunks(free: int) returns (left: int)
      modifies this`running
      ensures (running, left) == Prefill.NextChunks(old(running), free)
    {
      ghost var all := running;
      left := free;
      var j := 0;
      while j < |running|
        invariant 0 <= j <= |running| == |all|
        invariant Prefill.NextChunks(all[..j], free) == (running[..j], left)
        invariant running[j..] == all[j..]
      {
        NextChunksStep(all, j, free);
        var q := running[j];
        assert q == running[j..][0] == all[j];
        if HaveFollowUp(q) {
          var (n, rest) := Requests.AllocateNextChunk(q, left);
          ChangeAt(running, j, n);
          running, left := running[j := n], rest;
        } else {
          ChangeAt(running, j, q);
          assert running[j := q] == running;
        }
        j := j + 1;
      }
      assert running[..j] == running && all[..j] == all;
    }

    /** The block part of `_check_add_to_cur_batch`: no manager is short of pages. */
    method HasBlocks(fused: bool, q: Req) returns (fit: bool)
      requires backend.Valid() && rank < |backend.managers|
      ensures fit == BlocksFit(Settings(fused), backend.Views(), q)
    {
      var need := BlocksNeeded(NumTokens(q), backend.blockSize);
      if !fused {
        return need <= backend.managers[rank].GetNumFreeGpuBlocks();
      }
      var i := 0;
      while i < |backend.managers|
        invariant 0 <= i <= |backend.managers|
        invariant forall j | 0 <= j < i :: need <= FreeCount(backend.Views()[j])
      {
        if need > backend.managers[i].GetNumFreeGpuBlocks() {
          return false;
        }
        i := i + 1;
      }
      fit := true;
    }

    /** `_try_add_to_cur_batch`: pages for the head of the queue, which joins as `q`. */
    method TryAddToCurBatch(fused: bool, q: Req, ghost g: Group) returns (ghost h: Group)
      requires backend.Valid() && unaccepted != [] && A.Matches(Settings(fused), g, Batched())
      requires q.fusion == fused && q.home == rank && q.id !in g.reqs && BlocksFit(Settings(fused), backend.Views(), q)
      modifies this`running, this`unaccepted, backend.managers
      ensures backend.Valid() && A.Matches(Settings(fused), h, Batched()) && h.reqs == g.reqs[q.id := FlagsOf(q)]
      ensures Batched() == Push(Settings(fused), old(Batched()), q)
    {
      h := A.PushIsAdmit(Settings(fused), g, Batched(), q);
      AdmissionGrows(Settings(fused), g, Batched(), q);
      var ok := AllocateBlocks(q);
      running, unaccepted := running + [q], unaccepted[1..];
    }

    /** Admits requests from the head of the queue while they fit; `false` when a chunk would be empty. */
    method AdmitQueue(fused: bool, ghost g: Group) returns (ok: bool)
      requires backend.Valid() && A.Matches(Settings(fused), g, Batched()) && A.NewQueue(g, unaccepted)
      modifies this`running, this`unaccepted, backend.managers
      ensures backend.Valid()
      ensures AdmitLoop(Settings(fused), old(Batched())) == if ok then Some(Batched()) else None
    {
      ghost var cur, goal := g, AdmitLoop(Settings(fused), Batched());
      while unaccepted != []
        invariant backend.Valid() && A.Matches(Settings(fused), cur, Batched()) && A.NewQueue(cur, unaccepted)
        invariant goal == AdmitLoop(Settings(fused), Batched())
        decreases |unaccepted|
      {
        var v;
        v, cur := AdmitHead(fused, cur);
        match v
        case Wait => return true;
        case Fail => return false;
        case Join(_, more) =>
          if !more {
            return true;
          }
      }
      ok := true;
    }

    /** The checks on the head of the queue, in their order, and what they decide. */
    method CheckHead(fused: bool) returns (v: Verdict)
      requires backend.Valid() && unaccepted != [] && rank < |backend.managers|
      ensures v == Consider(Settings(fused), Batched())
    {
      var q := Tagged(Settings(fused), unaccepted[0]);
      var fit := HasBlocks(fused, q);
      var count := TokenCount(running);
      if !fit || |running| + 1 > maxBatchSize {
        return Wait;
      }
      if count + InputCount(q) <= budget {
        return Join(q, true);
      }
      if count == budget {
        return Wait;
      }
      if count > budget {
        return Fail;
      }
      q := Requests.SetChunk(q, budget - count).0;
      v := Join(q, !HaveFollowUp(q));
    }

    method AdmitHead(fused: bool, ghost g: Group) returns (v: Verdict, ghost h: Group)
      requires backend.Valid() && unaccepted != []
      requires A.Matches(Settings(fused), g, Batched()) && A.NewQueue(g, unaccepted)
      modifies this`running, this`unaccepted, backend.managers
      ensures backend.Valid() && v == Consider(Settings(fused), old(Batched()))
      ensures v.Wait? ==>
        Batched() == old(Batched()).(queue := [Tagged(Settings(fused), old(unaccepted)[0])] + old(unaccepted)[1..])
      ensures v.Join? ==>
        && Batched() == Push(Settings(fused), old(Batched()), v.q)
        && A.Matches(Settings(fused), h, Batched()) && A.NewQueue(h, unaccepted)
    {
      v := CheckHead(fused);
      h := g;
      if v.Join? {
        ghost var queue := unaccepted;
        h := TryAddToCurBatch(fused, v.q, g);
        A.NewTail(g, queue, h, FlagsOf(v.q));
      } else {
        unaccepted := [Tagged(Settings(fused), unaccepted[0])] + unaccepted[1..];
      }
    }

    /** `schedule_prefill`. */
    method SchedulePrefill(fused: bool, ghost g: Group) returns (ok: bool)
      requires backend.Valid() && A.Matches(Settings(fused), g, Batched()) && A.NewQueue(g, unaccepted)
      modifies this`running, this`unaccepted, backend.managers
      ensures backend.Valid()
      ensures Prefill.SchedulePrefill(Settings(fused), old(Batched())) == if ok then Some(Batched()) else None
    {
      ghost var goal := Prefill.SchedulePrefill(Settings(fused), Batched());
      var left := NextChunks(budget - TokenCount(running));
      assert goal == AdmitLoop(Settings(fused), Batched());
      ok := AdmitQueue(fused, g);
    }

    // ---------- a whole iteration ----------

    /** `pop_finished_requests`, and freeing what it returns. */
    method PopFinished(ghost g: Group)
      requires backend.Valid() && P.RunningIn(backend.blockSize, g, running) && backend.Views() == g.mgrs
      modifies this`running, backend.managers
      ensures backend.Valid()
      ensures (backend.Views(), running) == I.PopFinished(old(backend.Views()), old(running))
    {
      ghost var cur := g;
      var all, rest, i := running, [], 0;
      while i < |all|
        invariant 0 <= i <= |all| && running == all && backend.Valid() && backend.Views() == cur.mgrs
        invariant Popped(backend.blockSize, g, all, i, cur, rest)
      {
        var q := all[i];
        ghost var next := PopNext(backend.blockSize, g, all, i, cur, rest);
        if q.finished {
          FreeBlocks(q);
        } else {
          rest := rest + [q];
        }
        cur := next;
        i := i + 1;
      }
      assert all[..i] == all;
      running := rest;
    }

    /** Step 2 of `_get_next_batch`: the ready requests of the waiting queue come back until one does not fit. */
    method FetchWaiting(fused: bool, back: seq<Req>) returns (rest: seq<Req>)
      modifies this`running
      ensures (running, rest) == I.ComeBack(Settings(fused), old(running), back)
    {
      ghost var goal := I.ComeBack(Settings(fused), running, back);
      rest := back;
      while rest != []
        invariant goal == I.ComeBack(Settings(fused), running, rest)
        decreases |rest|
      {
        var q := Tagged(Settings(fused), rest[0]);
        if TokenCount(running) + InputCount(q) > budget || |running| + 1 > maxBatchSize {
          rest := [q] + rest[1..];
          return;
        }
        running, rest := running + [q], rest[1..];
      }
    }

    /** `_get_next_batch`: leaves in place what executes next; `false` for a failed assertion. */
    method GetNextBatch(fused: bool, back: seq<Req>, ghost g: Group) returns (ok: bool, rest: seq<Req>)
      requires backend.Valid() && I.EngineSafe(Settings(fused), g, Batched())
      requires I.BackOk(Settings(fused), g, Batched(), back)
      modifies this`running, this`unaccepted, backend.managers
      ensures backend.Valid()
      ensures I.NextBatch(Settings(fused), old(Batched()), back) == if ok then Some((Batched(), rest)) else None
    {
      ghost var before := Batched();
      ghost var popped := I.PopReady(Settings(fused), g, before);
      PopFinished(g);
      var served := AllocateRunning(popped);
      if !served {
        return true, back;
      }
      ghost var mid, c, d := I.BackReady(Settings(fused), g, before, back);
      rest := FetchWaiting(fused, back);
      assert Batched() == d;
      ok := SchedulePrefill(fused, mid);
    }

    /** `finish_one_iteration` over the batch: each request that executed takes its token. */
    method FinishOneIteration(tokens: seq<Option<Token>>)
      modifies this`running
      ensures running == I.Iterated(old(running), tokens)
    {
      ghost var before := running;
      var i := 0;
      while i < |running| && i < |tokens|
        invariant 0 <= i <= |running| == |before| && i <= |tokens|
        invariant forall j | 0 <= j < |running| ::
          running[j] == if j < i then I.Executed(before[j], tokens[j]) else before[j]
      {
        if tokens[i].Some? && !HaveFollowUp(running[i]) {
          running := running[i := AddGenerated(running[i], tokens[i].value)];
        }
        i := i + 1;
      }
    }

    // ---------- live restore ----------

    /** Before the forward: new blocks for the first requests of the batch, at most `cap` of them. */
    method TakeNewBlocks(cap: nat) returns (blocks: seq<seq<nat>>)
      requires backend.Valid() && rank < |backend.managers|
      modifies backend.managers
      ensures backend.Valid()
      ensures var (t, taken) := TakeAll(old(backend.Views())[rank], RequestIds(old(running)), cap);
        backend.Views() == old(backend.Views())[rank := t] && blocks == taken
    {
      blocks := backend.TakeAllAt(rank, RequestIds(running), cap);
    }

    /** After the forward: the cells of each request served are freed everywhere and its new blocks installed. */
    method InstallNewBlocks(blocks: seq<seq<nat>>, ghost g: Group)
      requires backend.Valid() && backend.Views() == g.mgrs && Safe(g) && g.phase == Restore && rank < g.k
      requires |blocks| <= |running| && B.InFlight(g, RequestIds(running), rank, blocks)
      modifies this`running, backend.managers
      ensures backend.Valid()
      ensures backend.Views() == B.CompleteAll(old(backend.Views()), RequestIds(old(running)), rank, blocks)
      ensures running == SentHome(old(running), |blocks|, rank)
    {
      InstallTables(RequestIds(running), blocks, g);
      SendHome(|blocks|);
    }

    method SendHome(n: nat)
      requires n <= |running|
      modifies this`running
      ensures running == SentHome(old(running), n, rank)
    {
      var j := 0;
      while j < n
        invariant 0 <= j <= n <= |running| && running == SentHome(old(running), j, rank)
      {
        running := running[j := running[j].(fusion := false, home := rank)];
        j := j + 1;
      }
    }

    method InstallTables(ids: seq<RequestId>, blocks: seq<seq<nat>>, ghost g: Group)
      requires backend.Valid() && backend.Views() == g.mgrs && Safe(g) && g.phase == Restore && rank < g.k
      requires |blocks| <= |ids| && B.InFlight(g, ids, rank, blocks)
      modifies backend.managers
      ensures backend.Valid() && backend.Views() == B.CompleteAll(old(backend.Views()), ids, rank, blocks)
    {
      ghost var cur, goal := g, B.CompleteAll(backend.Views(), ids, rank, blocks);
      var j := 0;
      while j < |blocks|
        invariant 0 <= j <= |blocks| && backend.Valid() && cur.mgrs == backend.Views() && cur.k == g.k
        invariant Safe(cur) && cur.phase == Restore && B.InFlight(cur, ids[j..], rank, blocks[j..])
        invariant goal == B.CompleteAll(backend.Views(), ids[j..], rank, blocks[j..])
      {
        CompleteStep(backend.Views(), ids, rank, blocks, j);
        cur := FinishRestore(ids[j], blocks[j], ids[j..], blocks[j..], cur);
        j := j + 1;
      }
    }

    method FinishRestore(r: RequestId, pages: seq<nat>,
                         ghost ids: seq<RequestId>, ghost blocks: seq<seq<nat>>, ghost g: Group)
      returns (ghost h: Group)
      requires backend.Valid() && backend.Views() == g.mgrs && Safe(g) && g.phase == Restore && rank < g.k
      requires ids != [] && blocks != [] && ids[0] == r && blocks[0] == pages && B.InFlight(g, ids, rank, blocks)
      modifies backend.managers
      ensures backend.Valid() && backend.Views() == h.mgrs && Safe(h) && h.phase == Restore && h.k == g.k
      ensures backend.Views() == B.CompleteOne(old(backend.Views()), r, rank, pages)
      ensures B.InFlight(h, ids[1..], rank, blocks[1..])
    {
      assert FlightOk(g, r, g.taken[r]);
      h := Apply(g, Complete(r));
      B.CompleteRestores(g, r);
      B.StillInFlight(g, ids, rank, blocks);
      RestoredFreeable(g, r);
      backend.FreeEverywhere(r);
      backend.InstallAt(rank, r, pages);
    }
  }

  lemma CompleteStep(mgrs: seq<State>, ids: seq<RequestId>, rank: nat, blocks: seq<seq<nat>>, j: nat)
    requires rank < |mgrs| && j < |blocks| <= |ids|
    ensures B.CompleteAll(mgrs, ids[j..], rank, blocks[j..])
         == B.CompleteAll(B.CompleteOne(mgrs, ids[j], rank, blocks[j]), ids[j + 1..], rank, blocks[j + 1..])
    ensures ids[j..][1..] == ids[j + 1..] && blocks[j..][1..] == blocks[j + 1..]
  {
    assert ids[j..][1..] == ids[j + 1..] && blocks[j..][1..] == blocks[j + 1..];
  }

  /** The first `n` requests are normal ones of instance `rank` again. */
  function SentHome(reqs: seq<Req>, n: nat, rank: nat): (r: seq<Req>)
    ensures |r| == |reqs|
    ensures forall i | 0 <= i < |r| :: r[i] == if i < n then reqs[i].(fusion := false, home := rank) else reqs[i]
  {
    seq(|reqs|, i requires 0 <= i < |reqs| => if i < n then reqs[i].(fusion := false, home := rank) else reqs[i])
  }

  function RequestIds(reqs: seq<Req>): (r: seq<RequestId>)
    ensures |r| == |reqs| && forall i | 0 <= i < |r| :: r[i] == reqs[i].id
  {
    seq(|reqs|, i requires 0 <= i < |reqs| => reqs[i].id)
  }

  lemma RestoredFreeable(g: Group, r: RequestId)
    requires Safe(g) && Enabled(g, Complete(r))
    ensures forall i | 0 <= i < g.k :: FreeableAt(g.mgrs[i], r)
  {
    forall i | 0 <= i < g.k ensures FreeableAt(g.mgrs[i], r) {
      CompleteFrees(g, r, i);
    }
  }

  /** The first `i` requests have been looked at: those that are finished are gone. */
  ghost predicate Popped(blockSize: nat, g: Group, all: seq<Req>, i: nat, cur: Group, rest: seq<Req>) {
    && i <= |all| && (cur.mgrs, rest) == I.PopFinished(g.mgrs, all[..i])
    && P.RunningIn(blockSize, cur, rest) && A.Onward(g, cur)
    && (forall j | 0 <= j < |rest| :: P.Has(all[..i], rest[j].id))
    && (forall p | !P.Has(all[..i], p) :: Reshard.Kept(g, cur, p))
  }

  lemma PoppedTo(blockSize: nat, g: Group, all: seq<Req>, i: nat) returns (h: Group, rest: seq<Req>)
    requires P.RunningIn(blockSize, g, all) && i <= |all|
    ensures Popped(blockSize, g, all, i, h, rest)
  {
    h := I.PopFinishedSafe(blockSize, g, all[..i]);
    rest := I.PopFinished(g.mgrs, all[..i]).1;
  }

  /** What PopFinished finds at request `i`, and what it makes of it. */
  lemma PopNext(blockSize: nat, g: Group, all: seq<Req>, i: nat, cur: Group, rest: seq<Req>) returns (h: Group)
    requires P.RunningIn(blockSize, g, all) && i < |all| && Popped(blockSize, g, all, i, cur, rest)
    ensures all[i].home < |cur.mgrs| && Freeable(cur.mgrs, all[i])
    ensures h.mgrs == if all[i].finished then P.ReleaseAll(cur.mgrs, all[i]) else cur.mgrs
    ensures Popped(blockSize, g, all, i + 1, h, if all[i].finished then rest else rest + [all[i]])
  {
    var q := all[i];
    assert all[..i + 1][..i] == all[..i] && all[..i + 1] == all[..i] + [q];
    I.AppendDistinct(blockSize, g, cur, all[..i], rest, q);
    assert (rest + [q])[|rest|] == q;
    VictimFreeable(blockSize, cur, rest + [q], |rest|);
    HomesKnown(blockSize, cur, rest + [q]);
    var after;
    h, after := PoppedTo(blockSize, g, all, i + 1);
  }

  lemma ChangeAt(p: seq<Req>, j: nat, q: Req)
    requires j < |p|
    ensures p[j := q][..j + 1] == p[..j] + [q] && p[j := q][j + 1..] == p[j..][1..]
  {
  }

  lemma {:induction false} GrowEverywhere(mgrs: seq<State>, q: Req, need: nat, i: nat)
    requires i <= |mgrs|
    requires forall j | i <= j < |mgrs| && Uses(FlagsOf(q), j) :: Allocate(mgrs[j], q.id, q.fusion, false, need).Some?
    ensures var p := P.GrowOn(mgrs, q, need, i);
      p.1 && forall j | 0 <= j < |mgrs| ::
        p.0[j] == if j < i then mgrs[j] else AllocateOn(mgrs[j], q.id, FlagsOf(q), j, need)
    decreases |mgrs| - i
  {
    if i < |mgrs| {
      if Uses(FlagsOf(q), i) {
        GrowEverywhere(mgrs[i := Allocate(mgrs[i], q.id, q.fusion, false, need).value], q, need, i + 1);
      } else {
        GrowEverywhere(mgrs, q, need, i + 1);
      }
    }
  }

  /** What the check admits, the managers grant. */
  lemma AdmissionGrows(cfg: Config, g: Group, b: Batch, q: Req)
    requires A.Matches(cfg, g, b) && q.fusion == cfg.fused && q.home == cfg.rank
    requires q.id !in g.reqs && BlocksFit(cfg, b.mgrs, q)
    ensures P.GrowOn(b.mgrs, q, P.Need(cfg.blockSize, q), 0) == (AllocateFor(b.mgrs, q, P.Need(cfg.blockSize, q)), true)
  {
    var need := P.Need(cfg.blockSize, q);
    forall j | 0 <= j < g.k && Uses(FlagsOf(q), j)
      ensures Allocate(g.mgrs[j], q.id, q.fusion, false, need).Some?
    {
      assert ManagerOk(g, j);
      assert FormatOf(g.mgrs[j], q.id) == Wanted(g.reqs, q.id, j);
      AdmittedFits(Geo(g), g.mgrs[j], OutOf(g.taken, j), q.id, need);
    }
    GrowEverywhere(b.mgrs, q, need, 0);
    assert P.GrowOn(b.mgrs, q, need, 0).0 == AllocateFor(b.mgrs, q, need);
  }

  lemma HomesKnown(blockSize: nat, g: Group, running: seq<Req>)
    requires P.RunningIn(blockSize, g, running)
    ensures forall i | 0 <= i < |running| :: running[i].home < g.k
  {
    forall i | 0 <= i < |running| ensures running[i].home < g.k {
      assert P.Tracked(blockSize, g, running[i]);
      assert FlagsOk(g, g.reqs[running[i].id]);
    }
  }

  lemma VictimFreeable(blockSize: nat, g: Group, running: seq<Req>, v: nat)
    requires P.RunningIn(blockSize, g, running) && v < |running|
    ensures Freeable(g.mgrs, running[v])
  {
    var q := running[v];
    assert P.Tracked(blockSize, g, q);
    forall i | 0 <= i < g.k && Uses(FlagsOf(q), i)
      ensures g.mgrs[i].fusionSize > 0 && g.mgrs[i].numBase > 0 && Free(g.mgrs[i], q.id, q.fusion, false).Some?
    {
      ReleasePossible(g, q.id, i);
    }
  }

  lemma ReleasePossible(g: Group, r: RequestId, i: nat)
    requires Safe(g) && Enabled(g, Release(r)) && i < g.k && Uses(g.reqs[r], i)
    ensures g.mgrs[i].fusionSize > 0 && g.mgrs[i].numBase > 0 && Free(g.mgrs[i], r, g.reqs[r].fusion, false).Some?
  {
    assert ManagerOk(g, i);
    ReleaseManager(g, r, i);
  }

  ghost predicate Freeable(mgrs: seq<State>, q: Req) {
    forall i | 0 <= i < |mgrs| && Uses(FlagsOf(q), i) ::
      && mgrs[i].fusionSize > 0 && mgrs[i].numBase > 0
      && (q.id in mgrs[i].table ==> Free(mgrs[i], q.id, q.fusion, false).Some?)
  }

  lemma {:induction false} GrowAtHome(mgrs: seq<State>, q: Req, need: nat, i: nat)
    requires !q.fusion && i <= q.home < |mgrs|
    ensures P.GrowOn(mgrs, q, need, i) ==
      match Allocate(mgrs[q.home], q.id, false, false, need)
      case None => (mgrs, false)
      case Some(t) => (mgrs[q.home := t], true)
    decreases q.home - i
  {
    if i < q.home {
      GrowAtHome(mgrs, q, need, i + 1);
    } else if Allocate(mgrs[i], q.id, false, false, need).Some? {
      GrowPastHome(mgrs[i := Allocate(mgrs[i], q.id, false, false, need).value], q, need, i + 1);
    }
  }

  lemma {:induction false} GrowPastHome(mgrs: seq<State>, q: Req, need: nat, i: nat)
    requires !q.fusion && q.home < i <= |mgrs|
    ensures P.GrowOn(mgrs, q, need, i) == (mgrs, true)
    decreases |mgrs| - i
  {
    if i < |mgrs| {
      GrowPastHome(mgrs, q, need, i + 1);
    }
  }
}

/**
  Whole iterations of one engine: finished requests leave, the others get their pages, the batch is
  filled up, everybody in it executes. What holds before an iteration holds after it.
 */
module Iteration {
  import opened Paging
  import opened Counting
  import opened Pools
  import opened Requests
  import opened RequestLife
  import opened Group
  import opened GroupSafety
  import opened LiveRestore
  import opened Prefill
  import opened PrefillRuns
  import opened Admission
  import opened Preemption
  import Reshard

  // ---------- what an iteration does ----------

  /** `pop_finished_requests`, and freeing the pages of what it returns. */
  function PopFinished(mgrs: seq<State>, running: seq<Req>): (p: (seq<State>, seq<Req>))
    ensures |p.0| == |mgrs| && |p.1| <= |running|
  {
    if running == [] then (mgrs, [])
    else
      var last := running[|running| - 1];
      var (m, rest) := PopFinished(mgrs, running[..|running| - 1]);
      if last.finished then (ReleaseAll(m, last), rest) else (m, rest + [last])
  }

  /** A request that is not part of what executes comes without a token. */
  function Executed(q: Req, token: Option<Token>): Req {
    match token
    case None => q
    case Some(t) => FinishIteration(q, t)
  }

  /** All or some of the batch executes: in BALLOON the fused requests, in RESTORE both kinds in turn. */
  function Iterated(running: seq<Req>, tokens: seq<Option<Token>>): (r: seq<Req>)
    ensures |r| == |running|
    ensures forall i | 0 <= i < |r| :: r[i] == if i < |tokens| then Executed(running[i], tokens[i]) else running[i]
  {
    seq(|running|, i requires 0 <= i < |running| =>
      if i < |tokens| then Executed(running[i], tokens[i]) else running[i])
  }

  /** The ready requests of the waiting queue come back in turn, tagged by the check, until one does not fit:
      the batch, and who waits on. */
  function ComeBack(cfg: Config, running: seq<Req>, back: seq<Req>): (p: (seq<Req>, seq<Req>))
    decreases |back|
  {
    if back == [] then (running, [])
    else
      var q := Tagged(cfg, back[0]);
      if TokenCount(running) + InputCount(q) > cfg.budget || |running| + 1 > cfg.maxBatch then
        (running, [q] + back[1..])
      else ComeBack(cfg, running + [q], back[1..])
  }

  /** `_get_next_batch`: the batch and who waits on; `None` stands for a failed assertion. What it leaves running
      executes next, even when no pages came and nobody could be evicted. */
  function NextBatch(cfg: Config, b: Batch, back: seq<Req>): Option<(Batch, seq<Req>)>
    requires cfg.blockSize > 0
  {
    var (m, rest) := PopFinished(b.mgrs, b.running);
    var o := AllocateRunning(cfg.blockSize, m, rest, b.queue);
    if !o.ok then Some((Batch(o.running, o.queue, o.mgrs), back))
    else
      var (running, waiting) := ComeBack(cfg, o.running, back);
      match SchedulePrefill(cfg, Batch(running, o.queue, o.mgrs))
      case None => None
      case Some(r) => Some((r, waiting))
  }

  /** One iteration; new requests have queued up before it. */
  function Iterate(cfg: Config, b: Batch, arrivals: seq<Req>, back: seq<Req>, tokens: seq<Option<Token>>):
      Option<(Batch, seq<Req>)>
    requires cfg.blockSize > 0
  {
    match NextBatch(cfg, b.(queue := b.queue + arrivals), back)
    case None => None
    case Some((r, waiting)) => Some((r.(running := Iterated(r.running, tokens)), waiting))
  }

  // ---------- the invariant ----------

  ghost predicate BatchOk(cfg: Config, running: seq<Req>) {
    TokenCount(running) <= cfg.budget && AllChunksOk(running)
  }

  /** Requests whose prompt is ahead of them and that no migration holds back. */
  ghost predicate QueueOk(g: Group, queue: seq<Req>) {
    NewQueue(g, queue) && AllFresh(queue) && NobodyMoves(queue)
  }

  /** No request is held back by a migration, and in the context stage each holds exactly its pages. */
  ghost predicate PagesOk(blockSize: nat, g: Group, running: seq<Req>) {
    RunningIn(blockSize, g, running) && NobodyMoves(running) && ContextProvided(blockSize, g, running)
  }

  /** Nothing is said about the budget, which requests moved between engines can exceed. */
  ghost predicate EngineSafe(cfg: Config, g: Group, b: Batch) {
    Matches(cfg, g, b) && PagesOk(cfg.blockSize, g, b.running) && QueueOk(g, b.queue)
  }

  /** A request the group knows, with no more pages than its tokens need and in the context stage just as many. */
  ghost predicate MayJoin(blockSize: nat, g: Group, q: Req) {
    && Sized(g) && blockSize > 0 && Tracked(blockSize, g, q) && !q.moving
    && (InContext(q) ==> Provided(blockSize, g, q))
  }

  /** Those who can come back: known to the group, each once, and none of them the engine's already. */
  ghost predicate BackOk(cfg: Config, g: Group, b: Batch, back: seq<Req>) {
    && DistinctIds(back)
    && forall i | 0 <= i < |back| :: MayJoin(cfg.blockSize, g, Tagged(cfg, back[i])) && !Holds(b, back[i].id)
  }

  /** Those who can come back hold exactly their pages. */
  ghost predicate BackProvided(cfg: Config, g: Group, back: seq<Req>) {
    forall i | 0 <= i < |back| :: Provided(cfg.blockSize, g, Tagged(cfg, back[i]))
  }

  /** Request `p` is one of the engine's. */
  ghost predicate Holds(b: Batch, p: RequestId) {
    Has(b.running, p) || Has(b.queue, p)
  }

  /** All the engine did concerns its own requests, and of these the group knows just the running ones. */
  ghost predicate Within(g: Group, b: Batch, h: Group, r: Batch) {
    && Onward(g, h)
    && (forall p | Holds(r, p) :: Holds(b, p))
    && (forall p | !Holds(b, p) :: Reshard.Kept(g, h, p))
    && (forall p | p in h.reqs :: Has(r.running, p) || (p in g.reqs && !Has(b.running, p)))
  }

  /** The same with those who come back. */
  ghost predicate WithinBack(g: Group, b: Batch, back: seq<Req>, h: Group, r: Batch) {
    && Onward(g, h)
    && (forall p | Holds(r, p) :: Holds(b, p) || Has(back, p))
    && (forall p | !Holds(b, p) :: Reshard.Kept(g, h, p))
    && (forall p | p in h.reqs :: Has(r.running, p) || (p in g.reqs && !Has(b.running, p)))
  }

  lemma BackWithin(g: Group, b: Batch, back: seq<Req>, mid: Group, c: Batch, d: Batch, h: Group, r: Batch)
    requires Within(g, b, mid, c) && Within(mid, d, h, r)
    requires forall p | p in mid.reqs :: Reshard.Kept(mid, h, p)
    requires d.queue == c.queue && forall p | Has(back, p) :: p in mid.reqs
    requires forall p :: Has(d.running, p) ==> Has(c.running, p) || Has(back, p)
    requires forall p :: Has(c.running, p) ==> Has(d.running, p)
    ensures WithinBack(g, b, back, h, r)
  {
    forall p | !Holds(b, p) ensures Reshard.Kept(g, h, p) {
      assert !Holds(c, p) && (p in mid.reqs || !Holds(d, p));
      Reshard.KeptTrans(g, mid, h, p);
    }
    forall p | Holds(r, p) ensures Holds(b, p) || Has(back, p) {
      assert Holds(d, p);
    }
  }

  lemma WithinTrans(g: Group, b: Batch, mid: Group, c: Batch, h: Group, r: Batch)
    requires Within(g, b, mid, c) && Within(mid, c, h, r)
    ensures Within(g, b, h, r)
  {
    forall p | !Holds(b, p) ensures Reshard.Kept(g, h, p) {
      assert !Holds(c, p);
      Reshard.KeptTrans(g, mid, h, p);
    }
  }

  // ---------- finished requests leave ----------

  lemma AppendDistinct(blockSize: nat, g: Group, h: Group, front: seq<Req>, rest: seq<Req>, last: Req)
    requires RunningIn(blockSize, g, front + [last]) && RunningIn(blockSize, h, rest) && Onward(g, h)
    requires forall i | 0 <= i < |rest| :: Has(front, rest[i].id)
    requires forall p | !Has(front, p) :: Reshard.Kept(g, h, p)
    ensures RunningIn(blockSize, h, rest + [last])
  {
    var all, p := front + [last], rest + [last];
    assert all[|front|] == last;
    forall i | 0 <= i < |front| ensures front[i].id != last.id {
      assert all[i] == front[i];
    }
    assert !Has(front, last.id);
    TrackedKept(blockSize, g, h, last);
    forall i, j | 0 <= i < j < |p| ensures p[i].id != p[j].id {
      if j == |rest| {
        assert Has(front, rest[i].id);
      }
    }
  }

  lemma AppendContext(blockSize: nat, g: Group, h: Group, front: seq<Req>, rest: seq<Req>, last: Req)
    requires RunningIn(blockSize, g, front + [last])
    requires ContextProvided(blockSize, g, front) ==> ContextProvided(blockSize, h, rest)
    requires forall p | !Has(front, p) :: Reshard.Kept(g, h, p)
    ensures ContextProvided(blockSize, g, front + [last]) ==> ContextProvided(blockSize, h, rest + [last])
  {
    var all := front + [last];
    assert all[|front|] == last;
    if ContextProvided(blockSize, g, all) {
      forall i | 0 <= i < |front| ensures front[i] == all[i] && front[i].id != last.id {
      }
      assert !Has(front, last.id);
      if InContext(last) {
        ProvidedKept(blockSize, g, h, last);
      }
    }
  }

  lemma HasAppended(front: seq<Req>, rest: seq<Req>, last: Req, r: RequestId)
    requires Has(front + [last], r) && (Has(front, r) ==> Has(rest, r))
    ensures r == last.id || Has(rest, r)
    ensures Has(rest + [last], r)
  {
    var all, p := front + [last], rest + [last];
    var i :| 0 <= i < |all| && all[i].id == r;
    assert p[|rest|].id == last.id;
    if i < |front| {
      assert front[i].id == r;
      var j :| 0 <= j < |rest| && rest[j].id == r;
      assert p[j].id == r;
    }
  }

  lemma {:induction false} PopFinishedSafe(blockSize: nat, g: Group, running: seq<Req>) returns (h: Group)
    requires RunningIn(blockSize, g, running)
    ensures var p := PopFinished(g.mgrs, running);
      && h.mgrs == p.0 && Onward(g, h) && RunningIn(blockSize, h, p.1)
      && (forall i | 0 <= i < |p.1| :: Has(running, p.1[i].id))
      && (forall r | Has(running, r) && r in h.reqs :: Has(p.1, r))
      && (ContextProvided(blockSize, g, running) ==> ContextProvided(blockSize, h, p.1))
    ensures forall p | !Has(running, p) :: Reshard.Kept(g, h, p)
  {
    h := g;
    if running != [] {
      var n := |running| - 1;
      var front, last := running[..n], running[n];
      assert running == front + [last];
      var mid := PopFinishedSafe(blockSize, g, front);
      var rest := PopFinished(g.mgrs, front).1;
      AppendDistinct(blockSize, g, mid, front, rest, last);
      AppendContext(blockSize, g, mid, front, rest, last);
      h := mid;
      if last.finished {
        h := EvictSafe(blockSize, mid, rest + [last], |rest|);
        assert Without(rest + [last], |rest|) == rest;
        if ContextProvided(blockSize, g, running) {
          ContextLeft(blockSize, mid, rest + [last], |rest|, h);
        }
      }
      HasPrefix(running, n, rest);
      forall r | Has(running, r) && r in h.reqs ensures Has(PopFinished(g.mgrs, running).1, r) {
        HasAppended(front, rest, last, r);
      }
      forall p | !Has(running, p) ensures Reshard.Kept(g, h, p) {
        assert running[n].id != p;
        if Has(front, p) {
          HasFront(running, n, p);
        }
        if last.finished {
          Reshard.KeptTrans(g, mid, h, p);
        }
      }
    }
  }

  lemma HasFront(running: seq<Req>, n: nat, p: RequestId)
    requires n <= |running| && Has(running[..n], p)
    ensures Has(running, p)
  {
    var i :| 0 <= i < n && running[..n][i].id == p;
    assert running[i].id == p;
  }

  lemma HasPrefix(running: seq<Req>, n: nat, rest: seq<Req>)
    requires n < |running| && forall i | 0 <= i < |rest| :: Has(running[..n], rest[i].id)
    ensures forall i | 0 <= i < |rest| :: Has(running, rest[i].id)
    ensures Has(running, running[n].id)
  {
    forall i | 0 <= i < |rest| ensures Has(running, rest[i].id) {
      HasFront(running, n, rest[i].id);
    }
  }

  lemma {:induction false} PopFinishedBatch(cfg: Config, mgrs: seq<State>, running: seq<Req>)
    ensures var rest := PopFinished(mgrs, running).1;
      && TokenCount(rest) <= TokenCount(running) && Partials(rest) <= Partials(running)
      && (AllChunksOk(running) ==> AllChunksOk(rest))
  {
    if running != [] {
      var front, last := running[..|running| - 1], running[|running| - 1];
      PopFinishedBatch(cfg, mgrs, front);
      PushCounts(PopFinished(mgrs, front).1, last);
    }
  }

  // ---------- eviction ----------

  lemma {:induction false} AllocateRunningBatch(blockSize: nat, mgrs: seq<State>, running: seq<Req>, queue: seq<Req>)
    requires blockSize > 0
    ensures var o := AllocateRunning(blockSize, mgrs, running, queue);
      && TokenCount(o.running) <= TokenCount(running) && (AllChunksOk(running) ==> AllChunksOk(o.running))
      && Partials(o.running) <= Partials(running)
      && (AllFresh(queue) ==> AllFresh(o.queue))
    decreases |running|
  {
    var (m, j) := GrowAll(blockSize, mgrs, running, 0);
    if j < |running| && Victim(running, running[j].fusion, running[j].home).Some? {
      var v := Victim(running, running[j].fusion, running[j].home).value;
      EvictedBatch(running, v, queue);
      AllocateRunningBatch(blockSize, ReleaseAll(m, running[v]), Without(running, v),
                           [PrepareForRecompute(running[v])] + queue);
    }
  }

  lemma EvictedBatch(running: seq<Req>, v: nat, queue: seq<Req>)
    requires v < |running| && !InContext(running[v])
    ensures TokenCount(Without(running, v)) <= TokenCount(running) && Partials(Without(running, v)) <= Partials(running)
    ensures AllChunksOk(running) ==> AllChunksOk(Without(running, v))
    ensures AllFresh(queue) ==> AllFresh([PrepareForRecompute(running[v])] + queue)
  {
    CountsAt(running, v);
    RecomputedFresh(running[v]);
    FreshInFront(PrepareForRecompute(running[v]), queue);
  }

  lemma RecomputedFresh(q: Req)
    requires !InContext(q)
    ensures Fresh(PrepareForRecompute(q))
  {
  }

  lemma FreshInFront(q: Req, queue: seq<Req>)
    requires Fresh(q)
    ensures AllFresh(queue) ==> AllFresh([q] + queue)
  {
  }

  lemma {:induction false} OnlyOnce(running: seq<Req>, q: Req)
    requires DistinctIds(running)
    ensures multiset(running)[q] <= 1
  {
    if running != [] {
      var n := |running| - 1;
      var front, last := running[..n], running[n];
      assert running == front + [last];
      OnlyOnce(front, q);
      forall i | 0 <= i < n ensures front[i] != last {
        assert running[i].id != running[n].id;
      }
    }
  }

  /** Victims are some of the running requests, each once. */
  lemma VictimsDistinct(kept: seq<Req>, victims: seq<Req>, running: seq<Req>)
    requires DistinctIds(running) && multiset(kept) + multiset(victims) == multiset(running)
    ensures DistinctIds(victims) && forall i | 0 <= i < |victims| :: victims[i] in running
  {
    forall i | 0 <= i < |victims| ensures victims[i] in running {
      assert victims[i] in multiset(victims);
      assert victims[i] in multiset(running);
    }
    forall i, j | 0 <= i < j < |victims| ensures victims[i].id != victims[j].id {
      OnlyOnce(running, victims[i]);
      assert multiset(victims)[victims[i]] <= (multiset(kept) + multiset(victims))[victims[i]];
      if victims[i] == victims[j] {
        RepeatedCount(victims, i, j);
      } else {
        var a :| 0 <= a < |running| && running[a] == victims[i];
        var b :| 0 <= b < |running| && running[b] == victims[j];
      }
    }
  }

  /** Evicted requests wait like new ones. */
  lemma QueueStaysNew(blockSize: nat, g: Group, running: seq<Req>, queue: seq<Req>, h: Group, o: Outcome,
                      victims: seq<Req>)
    requires RunningIn(blockSize, g, running) && NewQueue(g, queue)
    requires Resolved(blockSize, g, running, queue, h, o, victims)
    ensures NewQueue(h, o.queue)
  {
    VictimsDistinct(o.running, victims, running);
    forall i | 0 <= i < |queue| ensures queue[i].id !in h.reqs && !Has(running, queue[i].id) {
      NotRunning(blockSize, g, running, queue[i].id);
      assert Reshard.Kept(g, h, queue[i].id);
    }
    forall i | 0 <= i < |victims| ensures Has(running, victims[i].id) {
      var a :| 0 <= a < |running| && running[a] == victims[i];
    }
    NewBehind(h, running, victims, Recomputed(victims), queue);
  }

  lemma NewBehind(h: Group, running: seq<Req>, victims: seq<Req>, back: seq<Req>, queue: seq<Req>)
    requires DistinctIds(victims) && DistinctIds(queue)
    requires forall i | 0 <= i < |victims| :: victims[i].id !in h.reqs && Has(running, victims[i].id)
    requires forall i | 0 <= i < |queue| :: queue[i].id !in h.reqs && !Has(running, queue[i].id)
    requires |back| == |victims| && forall i | 0 <= i < |back| :: back[i].id == victims[i].id
    ensures NewQueue(h, back + queue)
  {
    var all, n := back + queue, |victims|;
    forall i | 0 <= i < |all| ensures all[i].id == if i < n then victims[i].id else queue[i - n].id {
    }
    forall i, j | 0 <= i < j < |all| ensures all[i].id != all[j].id {
      if i < n <= j {
        assert Has(running, victims[i].id) && !Has(running, queue[j - n].id);
      }
    }
  }

  lemma NotRunning(blockSize: nat, g: Group, running: seq<Req>, r: RequestId)
    requires RunningIn(blockSize, g, running) && r !in g.reqs
    ensures !Has(running, r)
  {
    forall i | 0 <= i < |running| ensures running[i].id != r {
      assert Tracked(blockSize, g, running[i]);
    }
  }

  // ---------- filling the batch ----------

  /** Moving on to the next chunk changes neither identity nor pages. */
  ghost predicate SameButChunk(p: Req, q: Req) {
    && q.id == p.id && FlagsOf(q) == FlagsOf(p) && q.moving == p.moving
    && q.generated == p.generated && NumTokens(q) == NumTokens(p)
  }

  lemma {:induction false} NextChunksSame(running: seq<Req>, free: int)
    ensures forall i | 0 <= i < |running| :: SameButChunk(running[i], NextChunks(running, free).0[i])
  {
    if running != [] {
      NextChunksSame(running[..|running| - 1], free);
    }
  }

  /** Everybody holds exactly the pages needed, wherever it runs. */
  ghost predicate AllProvided(blockSize: nat, g: Group, running: seq<Req>) {
    forall i | 0 <= i < |running| :: Provided(blockSize, g, running[i])
  }

  lemma ChunkedOne(blockSize: nat, g: Group, p: Req, q: Req)
    requires blockSize > 0 && Sized(g) && SameButChunk(p, q) && Tracked(blockSize, g, p)
    ensures Tracked(blockSize, g, q) && (InContext(q) <==> InContext(p))
    ensures Provided(blockSize, g, p) ==> Provided(blockSize, g, q)
  {
  }

  lemma ChunkedPages(blockSize: nat, g: Group, running: seq<Req>, free: int)
    requires PagesOk(blockSize, g, running)
    ensures PagesOk(blockSize, g, NextChunks(running, free).0)
    ensures AllProvided(blockSize, g, running) ==> AllProvided(blockSize, g, NextChunks(running, free).0)
  {
    NextChunksSame(running, free);
    var r := NextChunks(running, free).0;
    forall i | 0 <= i < |r|
      ensures r[i].id == running[i].id && r[i].moving == running[i].moving && Tracked(blockSize, g, r[i])
      ensures InContext(r[i]) <==> InContext(running[i])
      ensures Provided(blockSize, g, running[i]) ==> Provided(blockSize, g, r[i])
    {
      ChunkedOne(blockSize, g, running[i], r[i]);
    }
  }

  /** Requests that join find those already there with the pages they had. */
  lemma JoinedPages(cfg: Config, g: Group, b: Batch, h: Group, r: Batch)
    requires Matches(cfg, g, b) && NewQueue(g, b.queue) && PagesOk(cfg.blockSize, g, b.running)
    requires Safe(h) && MovedOver(b, r) && Joined(cfg, h, r.running, |b.running|) && NobodyMoves(r.running)
    requires OnlyJoined(g, h, b.queue, |r.running| - |b.running|)
    requires forall p | p in g.reqs :: Reshard.Kept(g, h, p)
    ensures PagesOk(cfg.blockSize, h, r.running)
    ensures AllProvided(cfg.blockSize, g, b.running) ==> AllProvided(cfg.blockSize, h, r.running)
  {
    var n := |b.running|;
    forall i | 0 <= i < |r.running|
      ensures Tracked(cfg.blockSize, h, r.running[i])
      ensures i < n ==> r.running[i] == b.running[i] && r.running[i].id in g.reqs
      ensures i < n && Provided(cfg.blockSize, g, b.running[i]) ==> Provided(cfg.blockSize, h, r.running[i])
      ensures i >= n ==> r.running[i].id == b.queue[i - n].id && Provided(cfg.blockSize, h, r.running[i])
    {
      if i < n {
        StayerPages(cfg, g, b, h, r, i);
      } else {
        assert r.running[n + (i - n)].id == b.queue[i - n].id;
        UntakenNew(g, b.queue[i - n].id);
      }
    }
    forall i, j | 0 <= i < j < |r.running| ensures r.running[i].id != r.running[j].id {
      if j < n {
        assert b.running[i].id != b.running[j].id;
      }
    }
  }

  lemma StayerPages(cfg: Config, g: Group, b: Batch, h: Group, r: Batch, i: nat)
    requires RunningIn(cfg.blockSize, g, b.running) && MovedOver(b, r) && i < |b.running|
    requires Sized(h) && Alike(g, h) && forall p | p in g.reqs :: Reshard.Kept(g, h, p)
    ensures i < |r.running| && r.running[i] == b.running[i] && r.running[i].id in g.reqs
    ensures Tracked(cfg.blockSize, h, r.running[i])
    ensures Provided(cfg.blockSize, g, b.running[i]) ==> Provided(cfg.blockSize, h, r.running[i])
  {
    var q := b.running[i];
    assert r.running[i] == r.running[..|b.running|][i] == q;
    assert Tracked(cfg.blockSize, g, q);
    TrackedKept(cfg.blockSize, g, h, q);
    if Provided(cfg.blockSize, g, q) {
      ProvidedKept(cfg.blockSize, g, h, q);
    }
  }

  lemma UntakenNew(g: Group, r: RequestId)
    requires Safe(g) && r !in g.reqs
    ensures r !in g.taken && r !in g.waiting
  {
    assert r in g.taken ==> FlightOk(g, r, g.taken[r]);
  }

  // ---------- execution ----------

  lemma ExecutedCount(q: Req, token: Option<Token>)
    requires ChunkOk(q)
    ensures var e := Executed(q, token);
      InputCount(e) <= InputCount(q) && ChunkOk(e) && (HaveFollowUp(e) ==> HaveFollowUp(q))
  {
    InputOf(q);
    InputOf(Executed(q, token));
  }

  lemma IteratedLast(running: seq<Req>, tokens: seq<Option<Token>>, n: nat)
    requires n + 1 == |running|
    ensures Iterated(running, tokens)
         == Iterated(running[..n], tokens) + [Executed(running[n], if n < |tokens| then tokens[n] else None)]
    ensures running == running[..n] + [running[n]]
  {
  }

  /** Executing never adds to the tokens of the batch nor to its partial requests. */
  lemma {:induction false} IteratedBatch(running: seq<Req>, tokens: seq<Option<Token>>)
    requires AllChunksOk(running)
    ensures var r := Iterated(running, tokens);
      TokenCount(r) <= TokenCount(running) && Partials(r) <= Partials(running) && AllChunksOk(r)
  {
    if running != [] {
      var n := |running| - 1;
      var front, last := running[..n], running[n];
      var e := Executed(last, if n < |tokens| then tokens[n] else None);
      IteratedBatch(front, tokens);
      ExecutedCount(last, if n < |tokens| then tokens[n] else None);
      IteratedLast(running, tokens, n);
      PushCounts(front, last);
      PushCounts(Iterated(front, tokens), e);
    }
  }

  /** A token more can only raise what a request needs, so the next batch finds nobody with too much. */
  lemma ExecutedTracked(blockSize: nat, g: Group, q: Req, token: Option<Token>)
    requires blockSize > 0 && Sized(g) && Tracked(blockSize, g, q)
    ensures Tracked(blockSize, g, Executed(q, token))
  {
    BlocksMonotone(NumTokens(q), NumTokens(Executed(q, token)), blockSize);
  }

  lemma ExecutedPages(blockSize: nat, g: Group, running: seq<Req>, tokens: seq<Option<Token>>)
    requires PagesOk(blockSize, g, running)
    ensures PagesOk(blockSize, g, Iterated(running, tokens))
  {
    var r := Iterated(running, tokens);
    forall i | 0 <= i < |r|
      ensures r[i].id == running[i].id && r[i].moving == running[i].moving && Tracked(blockSize, g, r[i])
      ensures InContext(r[i]) ==> r[i] == running[i]
    {
      ExecutedTracked(blockSize, g, running[i], if i < |tokens| then tokens[i] else None);
    }
  }

  /** Whoever takes a token has room for it on its last page. */
  predicate Roomy(blockSize: nat, running: seq<Req>, tokens: seq<Option<Token>>)
    requires blockSize > 0
  {
    forall i | 0 <= i < |running| && i < |tokens| ::
      tokens[i].None? || HaveFollowUp(running[i]) || NumTokens(running[i]) % blockSize != 0
  }

  lemma ExecutedProvided(blockSize: nat, g: Group, q: Req, token: Option<Token>)
    requires blockSize > 0 && Safe(g) && Provided(blockSize, g, q)
    ensures Provided(blockSize, g, Executed(q, token)) <==>
      token.None? || HaveFollowUp(q) || NumTokens(q) % blockSize != 0
  {
    if token.Some? && !HaveFollowUp(q) {
      NextTokenFits(NumTokens(q), blockSize);
      assert FlagsOk(g, g.reqs[q.id]) && Uses(FlagsOf(q), q.home);
    }
  }

  /** A batch in which everybody holds exactly its pages executes once more with exactly the pages needed if and
      only if nobody who took a token had its last page full. */
  lemma StillExact(blockSize: nat, g: Group, running: seq<Req>, tokens: seq<Option<Token>>)
    requires blockSize > 0 && Safe(g) && AllProvided(blockSize, g, running)
    ensures AllProvided(blockSize, g, Iterated(running, tokens)) <==> Roomy(blockSize, running, tokens)
  {
    var r := Iterated(running, tokens);
    forall i | 0 <= i < |r|
      ensures Provided(blockSize, g, r[i]) <==>
        i >= |tokens| || tokens[i].None? || HaveFollowUp(running[i]) || NumTokens(running[i]) % blockSize != 0
    {
      ExecutedProvided(blockSize, g, running[i], if i < |tokens| then tokens[i] else None);
    }
  }

  /** Executing changes no id. */
  lemma ExecutedHas(running: seq<Req>, tokens: seq<Option<Token>>, p: RequestId)
    ensures Has(Iterated(running, tokens), p) <==> Has(running, p)
  {
    var r := Iterated(running, tokens);
    forall i | 0 <= i < |r| ensures r[i].id == running[i].id && r[i].moving == running[i].moving {
    }
  }

  // ---------- the whole iteration ----------

  lemma PopReady(cfg: Config, g: Group, b: Batch) returns (h: Group)
    requires EngineSafe(cfg, g, b)
    ensures var (m, rest) := PopFinished(b.mgrs, b.running);
      var c := Batch(rest, b.queue, m);
      EngineSafe(cfg, h, c) && Within(g, b, h, c)
  {
    h := PopFinishedSafe(cfg.blockSize, g, b.running);
    var rest := PopFinished(b.mgrs, b.running).1;
    PopFinishedStill(b.mgrs, b.running);
    forall i | 0 <= i < |b.queue| ensures b.queue[i].id !in h.reqs {
      NotRunning(cfg.blockSize, g, b.running, b.queue[i].id);
      assert Reshard.Kept(g, h, b.queue[i].id);
    }
    StillKnown(cfg.blockSize, g, b.running, rest, h);
  }

  lemma {:induction false} PopFinishedStill(mgrs: seq<State>, running: seq<Req>)
    requires NobodyMoves(running)
    ensures NobodyMoves(PopFinished(mgrs, running).1)
  {
    if running != [] {
      PopFinishedStill(mgrs, running[..|running| - 1]);
    }
  }

  /** Whoever the group still knows is running or was no concern of the engine. */
  lemma StillKnown(blockSize: nat, g: Group, running: seq<Req>, rest: seq<Req>, h: Group)
    requires RunningIn(blockSize, g, running) && Sized(h)
    requires forall p | !Has(running, p) :: Reshard.Kept(g, h, p)
    requires forall p | Has(running, p) && p in h.reqs :: Has(rest, p)
    ensures forall p | p in h.reqs :: Has(rest, p) || (p in g.reqs && !Has(running, p))
  {
    forall p | p in h.reqs && !Has(running, p) ensures p in g.reqs {
      assert Reshard.Kept(g, h, p);
    }
  }

  lemma AllocateReady(cfg: Config, g: Group, b: Batch) returns (h: Group)
    requires EngineSafe(cfg, g, b)
    ensures var o := AllocateRunning(cfg.blockSize, b.mgrs, b.running, b.queue);
      var c := Batch(o.running, o.queue, o.mgrs);
      o.ok && EngineSafe(cfg, h, c) && Within(g, b, h, c) && AllProvided(cfg.blockSize, h, o.running)
  {
    var o := AllocateRunning(cfg.blockSize, b.mgrs, b.running, b.queue);
    var victims;
    AlwaysServed(cfg.blockSize, g, b.running, b.queue);
    h, victims := AllocateRunningSafe(cfg.blockSize, g, b.running, b.queue);
    AllocateRunningBatch(cfg.blockSize, b.mgrs, b.running, b.queue);
    QueueStaysNew(cfg.blockSize, g, b.running, b.queue, h, o, victims);
    ResolvedWithin(cfg.blockSize, g, b.running, b.queue, h, o, victims);
  }

  /** Those who run and those who were evicted were running, and nobody moves. */
  lemma ResolvedWithin(blockSize: nat, g: Group, running: seq<Req>, queue: seq<Req>, h: Group, o: Outcome,
                       victims: seq<Req>)
    requires RunningIn(blockSize, g, running) && NobodyMoves(running) && NobodyMoves(queue)
    requires Resolved(blockSize, g, running, queue, h, o, victims)
    ensures NobodyMoves(o.running) && NobodyMoves(o.queue)
    ensures Within(g, Batch(running, queue, g.mgrs), h, Batch(o.running, o.queue, o.mgrs))
  {
    VictimsDistinct(o.running, victims, running);
    forall i | 0 <= i < |o.running| ensures !o.running[i].moving && Has(running, o.running[i].id) {
      StaysHas(o.running, victims, running, i);
    }
    forall i | 0 <= i < |o.queue|
      ensures !o.queue[i].moving && (Has(running, o.queue[i].id) || Has(queue, o.queue[i].id))
    {
      if i < |victims| {
        var a :| 0 <= a < |running| && running[a] == victims[i];
      } else {
        assert o.queue[i] == queue[i - |victims|];
      }
    }
    forall p | Has(running, p) && p in h.reqs ensures Has(o.running, p) {
      EvictedOrRunning(o.running, victims, running, p);
    }
    StillKnown(blockSize, g, running, o.running, h);
  }

  lemma StaysHas(kept: seq<Req>, victims: seq<Req>, running: seq<Req>, i: nat)
    requires multiset(kept) + multiset(victims) == multiset(running) && i < |kept|
    ensures kept[i] in running && Has(running, kept[i].id)
  {
    assert kept[i] in multiset(kept);
    assert kept[i] in multiset(running);
    var a :| 0 <= a < |running| && running[a] == kept[i];
  }

  lemma EvictedOrRunning(kept: seq<Req>, victims: seq<Req>, running: seq<Req>, p: RequestId)
    requires multiset(kept) + multiset(victims) == multiset(running) && Has(running, p)
    ensures Has(kept, p) || Has(victims, p)
  {
    var i :| 0 <= i < |running| && running[i].id == p;
    assert running[i] in multiset(running);
    if running[i] in multiset(kept) {
      var a :| 0 <= a < |kept| && kept[a] == running[i];
    } else {
      assert running[i] in multiset(victims);
      var a :| 0 <= a < |victims| && victims[a] == running[i];
    }
  }

  // ---------- who comes back ----------

  lemma OneComesBack(blockSize: nat, g: Group, running: seq<Req>, q: Req)
    requires PagesOk(blockSize, g, running) && MayJoin(blockSize, g, q) && !Has(running, q.id)
    ensures PagesOk(blockSize, g, running + [q])
    ensures AllProvided(blockSize, g, running) && Provided(blockSize, g, q) ==> AllProvided(blockSize, g, running + [q])
    ensures forall p :: Has(running + [q], p) <==> Has(running, p) || p == q.id
  {
    var all := running + [q];
    assert all[|running|] == q;
    forall i | 0 <= i < |running| ensures all[i] == running[i] && all[i].id != q.id {
    }
    forall p | Has(all, p) ensures Has(running, p) || p == q.id {
      var i :| 0 <= i < |all| && all[i].id == p;
      if i < |running| {
        assert running[i].id == p;
      }
    }
  }

  /** Whoever comes back brings its pages; everybody in the batch has exactly its own if those did. */
  lemma {:induction false} BackPages(cfg: Config, g: Group, running: seq<Req>, back: seq<Req>)
    requires PagesOk(cfg.blockSize, g, running) && DistinctIds(back)
    requires forall i | 0 <= i < |back| :: MayJoin(cfg.blockSize, g, Tagged(cfg, back[i])) && !Has(running, back[i].id)
    ensures var r := ComeBack(cfg, running, back).0;
      && PagesOk(cfg.blockSize, g, r)
      && (forall p :: Has(r, p) ==> Has(running, p) || Has(back, p))
      && (forall p :: Has(running, p) ==> Has(r, p))
      && (AllProvided(cfg.blockSize, g, running) && BackProvided(cfg, g, back) ==> AllProvided(cfg.blockSize, g, r))
    decreases |back|
  {
    if back != [] {
      var q, rest := Tagged(cfg, back[0]), back[1..];
      if TokenCount(running) + InputCount(q) <= cfg.budget && |running| + 1 <= cfg.maxBatch {
        OneComesBack(cfg.blockSize, g, running, q);
        forall i | 0 <= i < |rest|
          ensures MayJoin(cfg.blockSize, g, Tagged(cfg, rest[i])) && !Has(running + [q], rest[i].id)
        {
          assert rest[i] == back[i + 1];
        }
        BackPages(cfg, g, running + [q], rest);
        TailHas(back);
      }
    }
  }

  /** Those who come back do so in order, and the first who does not would exceed the budget or the batch size. */
  lemma {:induction false} BackStops(cfg: Config, running: seq<Req>, back: seq<Req>) returns (n: nat)
    ensures var (r, rest) := ComeBack(cfg, running, back);
      && n <= |back| && |r| == |running| + n && |rest| == |back| - n && r[..|running|] == running
      && (forall i | 0 <= i < n :: r[|running| + i] == back[i].(fusion := cfg.fused, home := cfg.rank))
      && (forall i | 0 <= i < |rest| :: rest[i].id == back[n + i].id)
      && (n < |back| ==> TokenCount(r) + InputCount(rest[0]) > cfg.budget || |r| >= cfg.maxBatch)
    decreases |back|
  {
    n := 0;
    if back != [] {
      var q := Tagged(cfg, back[0]);
      if TokenCount(running) + InputCount(q) <= cfg.budget && |running| + 1 <= cfg.maxBatch {
        n := BackStops(cfg, running + [q], back[1..]);
        var r := ComeBack(cfg, running, back).0;
        assert r[..|running|] == r[..|running| + 1][..|running|] && r[|running|] == r[..|running| + 1][|running|];
        forall i | 0 <= i < n + 1 ensures r[|running| + i] == back[i].(fusion := cfg.fused, home := cfg.rank) {
          if i > 0 {
            assert r[|running + [q]| + (i - 1)] == back[1..][i - 1].(fusion := cfg.fused, home := cfg.rank);
          }
        }
        n := n + 1;
      }
    }
  }

  lemma TailHas(back: seq<Req>)
    requires back != []
    ensures forall p :: Has(back[1..], p) ==> Has(back, p)
    ensures Has(back, back[0].id)
  {
    forall p | Has(back[1..], p) ensures Has(back, p) {
      var i :| 0 <= i < |back[1..]| && back[1..][i].id == p;
      assert back[i + 1].id == p;
    }
  }

  lemma {:induction false} BackFits(cfg: Config, running: seq<Req>, back: seq<Req>)
    requires BatchOk(cfg, running) && AllChunksOk(back)
    ensures var r := ComeBack(cfg, running, back).0;
      BatchOk(cfg, r) && Partials(r) <= Partials(running) + Partials(back)
    decreases |back|
  {
    if back != [] {
      var q, rest := Tagged(cfg, back[0]), back[1..];
      assert ChunkOk(back[0]);
      PartialsHead(back);
      if TokenCount(running) + InputCount(q) <= cfg.budget && |running| + 1 <= cfg.maxBatch {
        PushCounts(running, q);
        BackFits(cfg, running + [q], rest);
      }
    }
  }

  lemma PartialsHead(back: seq<Req>)
    requires back != []
    ensures Partials(back) == (if HaveFollowUp(back[0]) then 1 else 0) + Partials(back[1..])
  {
    CountsAt(back, 0);
    assert Without(back, 0) == back[1..];
  }

  // ---------- composing the batch ----------

  /** The batch composed: every request known, with no page too many, the queue new to the group. */
  ghost predicate Composed(cfg: Config, h: Group, r: Batch) {
    Matches(cfg, h, r) && QueueOk(h, r.queue) && PagesOk(cfg.blockSize, h, r.running)
  }

  lemma ScheduleReady(cfg: Config, g: Group, b: Batch) returns (h: Group)
    requires EngineSafe(cfg, g, b) && SchedulePrefill(cfg, b).Some?
    ensures var r := SchedulePrefill(cfg, b).value;
      && Composed(cfg, h, r) && Within(g, b, h, r)
      && (AllProvided(cfg.blockSize, g, b.running) ==> AllProvided(cfg.blockSize, h, r.running))
      && forall p | p in g.reqs :: Reshard.Kept(g, h, p)
  {
    var free := cfg.budget - TokenCount(b.running);
    var c := b.(running := NextChunks(b.running, free).0);
    ChunkedPages(cfg.blockSize, g, b.running, free);
    ChunkedHas(b.running, free);
    h := AdmitReady(cfg, g, c);
    ChunkedFirst(g, b, c, h, AdmitLoop(cfg, c).value);
  }

  lemma ChunkedHas(running: seq<Req>, free: int)
    ensures forall p :: Has(NextChunks(running, free).0, p) <==> Has(running, p)
  {
    NextChunksSame(running, free);
    var r := NextChunks(running, free).0;
    forall i | 0 <= i < |r| ensures r[i].id == running[i].id {
      assert SameButChunk(running[i], r[i]);
    }
  }

  lemma ChunkedFirst(g: Group, b: Batch, c: Batch, h: Group, r: Batch)
    requires Within(g, c, h, r) && c.queue == b.queue && forall p :: Has(c.running, p) <==> Has(b.running, p)
    ensures Within(g, b, h, r)
  {
    forall p ensures Holds(b, p) <==> Holds(c, p) {
    }
  }

  lemma AdmitReady(cfg: Config, g: Group, b: Batch) returns (h: Group)
    requires Matches(cfg, g, b) && QueueOk(g, b.queue) && PagesOk(cfg.blockSize, g, b.running)
    requires AdmitLoop(cfg, b).Some?
    ensures var r := AdmitLoop(cfg, b).value;
      && Composed(cfg, h, r) && Within(g, b, h, r)
      && (AllProvided(cfg.blockSize, g, b.running) ==> AllProvided(cfg.blockSize, h, r.running))
      && forall p | p in g.reqs :: Reshard.Kept(g, h, p)
  {
    h := AdmitLoopInGroup(cfg, g, b);
    var r := AdmitLoop(cfg, b).value;
    AdmitStill(cfg, b);
    JoinedPages(cfg, g, b, h, r);
    RestIsNew(g, h, b, r);
    MovedWithin(cfg, g, b, h, r);
  }

  lemma {:induction false} AdmitStill(cfg: Config, b: Batch)
    requires cfg.blockSize > 0 && NobodyMoves(b.running) && NobodyMoves(b.queue) && AllFresh(b.queue)
    requires AdmitLoop(cfg, b).Some?
    ensures var r := AdmitLoop(cfg, b).value; NobodyMoves(r.running) && NobodyMoves(r.queue) && AllFresh(r.queue)
    decreases |b.queue|
  {
    if b.queue != [] && Consider(cfg, b).Join? && Consider(cfg, b).more {
      AdmitStill(cfg, Push(cfg, b, Consider(cfg, b).q));
    }
  }

  /** Who joined was queued, who is known runs or was no concern of the engine. */
  lemma MovedWithin(cfg: Config, g: Group, b: Batch, h: Group, r: Batch)
    requires Matches(cfg, g, b) && Safe(h) && NewQueue(g, b.queue)
    requires MovedOver(b, r) && OnlyJoined(g, h, b.queue, |r.running| - |b.running|)
    requires forall p | p in g.reqs :: Reshard.Kept(g, h, p)
    ensures Within(g, b, h, r)
  {
    var n, m := |b.running|, |r.running| - |b.running|;
    forall i | 0 <= i < |r.running| ensures Holds(b, r.running[i].id) {
      if i < n {
        assert r.running[i] == r.running[..n][i] == b.running[i];
      } else {
        assert r.running[n + (i - n)].id == b.queue[i - n].id;
      }
    }
    forall i | 0 <= i < |r.queue| ensures Has(b.queue, r.queue[i].id) {
      assert r.queue[(i + m) - m].id == b.queue[i + m].id;
    }
    forall p | p in h.reqs ensures Has(r.running, p) || (p in g.reqs && !Has(b.running, p)) {
      KnownRuns(b, r, g, h, p);
    }
    forall p | !Holds(b, p) ensures Reshard.Kept(g, h, p) {
      OutsiderKept(g, h, b, m, p);
    }
  }

  lemma KnownRuns(b: Batch, r: Batch, g: Group, h: Group, p: RequestId)
    requires MovedOver(b, r) && OnlyJoined(g, h, b.queue, |r.running| - |b.running|) && p in h.reqs
    ensures Has(r.running, p) || (p in g.reqs && !Has(b.running, p))
  {
    var n := |b.running|;
    if p !in g.reqs {
      var i :| 0 <= i < |r.running| - n && i < |b.queue| && b.queue[i].id == p;
      assert r.running[n + i].id == p;
    } else if Has(b.running, p) {
      var i :| 0 <= i < n && b.running[i].id == p;
      assert r.running[i] == r.running[..n][i] == b.running[i];
    }
  }

  lemma OutsiderKept(g: Group, h: Group, b: Batch, n: int, p: RequestId)
    requires Safe(g) && Safe(h) && OnlyJoined(g, h, b.queue, n) && !Holds(b, p)
    requires forall q | q in g.reqs :: Reshard.Kept(g, h, q)
    ensures Reshard.Kept(g, h, p)
  {
    if p !in g.reqs {
      assert p !in h.reqs;
      UnknownHoldsNothing(g, p);
      UnknownHoldsNothing(h, p);
    }
  }

  lemma BackStillOk(cfg: Config, g: Group, b: Batch, back: seq<Req>, mid: Group, c: Batch)
    requires EngineSafe(cfg, g, b) && BackOk(cfg, g, b, back) && Within(g, b, mid, c) && Safe(mid)
    ensures BackOk(cfg, mid, c, back) && (BackProvided(cfg, g, back) ==> BackProvided(cfg, mid, back))
  {
    forall i | 0 <= i < |back|
      ensures MayJoin(cfg.blockSize, mid, Tagged(cfg, back[i])) && !Holds(c, back[i].id)
      ensures Provided(cfg.blockSize, g, Tagged(cfg, back[i])) ==> Provided(cfg.blockSize, mid, Tagged(cfg, back[i]))
    {
      var q := Tagged(cfg, back[i]);
      assert MayJoin(cfg.blockSize, g, q) && Reshard.Kept(g, mid, q.id);
      TrackedKept(cfg.blockSize, g, mid, q);
      if Provided(cfg.blockSize, g, q) {
        ProvidedKept(cfg.blockSize, g, mid, q);
      }
    }
  }

  lemma BackKnown(cfg: Config, g: Group, b: Batch, back: seq<Req>)
    requires BackOk(cfg, g, b, back)
    ensures forall p | Has(back, p) :: p in g.reqs
  {
    forall p | Has(back, p) ensures p in g.reqs {
      var i :| 0 <= i < |back| && back[i].id == p;
      assert MayJoin(cfg.blockSize, g, Tagged(cfg, back[i]));
    }
  }

  /** The batch before admission: finished requests gone, pages allocated, and who came back. */
  lemma BackReady(cfg: Config, g: Group, b: Batch, back: seq<Req>) returns (h: Group, c: Batch, d: Batch)
    requires EngineSafe(cfg, g, b) && BackOk(cfg, g, b, back)
    ensures var (m, rest) := PopFinished(b.mgrs, b.running);
      var o := AllocateRunning(cfg.blockSize, m, rest, b.queue);
      && o.ok && c == Batch(o.running, o.queue, o.mgrs) && d == c.(running := ComeBack(cfg, c.running, back).0)
    ensures Within(g, b, h, c) && EngineSafe(cfg, h, d) && forall p | Has(back, p) :: p in h.reqs
    ensures forall p :: Has(d.running, p) ==> Has(c.running, p) || Has(back, p)
    ensures forall p :: Has(c.running, p) ==> Has(d.running, p)
    ensures BackProvided(cfg, g, back) ==> AllProvided(cfg.blockSize, h, d.running)
  {
    var (m, rest) := PopFinished(b.mgrs, b.running);
    var popped := PopReady(cfg, g, b);
    var p := Batch(rest, b.queue, m);
    h := AllocateReady(cfg, popped, p);
    var o := AllocateRunning(cfg.blockSize, m, rest, b.queue);
    c := Batch(o.running, o.queue, o.mgrs);
    d := c.(running := ComeBack(cfg, c.running, back).0);
    WithinTrans(g, b, popped, p, h, c);
    BackStillOk(cfg, g, b, back, h, c);
    BackKnown(cfg, h, c, back);
    BackPages(cfg, h, c.running, back);
  }

  /** The pages always come, and the batch composed is as described; everybody in it holds exactly its pages if
      those did who came back, and nobody of others is touched. */
  lemma NextBatchSafe(cfg: Config, g: Group, b: Batch, back: seq<Req>) returns (h: Group)
    requires EngineSafe(cfg, g, b) && BackOk(cfg, g, b, back) && NextBatch(cfg, b, back).Some?
    ensures var r := NextBatch(cfg, b, back).value.0;
      && Composed(cfg, h, r) && WithinBack(g, b, back, h, r)
      && (BackProvided(cfg, g, back) ==> AllProvided(cfg.blockSize, h, r.running))
  {
    var mid, c, d := BackReady(cfg, g, b, back);
    h := ScheduleReady(cfg, mid, d);
    BackWithin(g, b, back, mid, c, d, h, SchedulePrefill(cfg, d).value);
  }

  /** With the batch within its budget no assertion fails, it stays within, and nobody is left in the queue without
      a reason; with one partial request at most, come back or there before, there is one at most after, and then
      the budget is used up. */
  lemma NextBatchFits(cfg: Config, g: Group, b: Batch, back: seq<Req>)
    requires EngineSafe(cfg, g, b) && BackOk(cfg, g, b, back) && BatchOk(cfg, b.running) && AllChunksOk(back)
    ensures NextBatch(cfg, b, back).Some?
    ensures var r := NextBatch(cfg, b, back).value.0;
      && BatchOk(cfg, r.running) && Stopped(cfg, r)
      && (Partials(b.running) + Partials(back) <= 1 ==> FullIfPartial(cfg, r.running))
  {
    var mid, c, d := BackReady(cfg, g, b, back);
    PopFinishedBatch(cfg, b.mgrs, b.running);
    var (m, rest) := PopFinished(b.mgrs, b.running);
    AllocateRunningBatch(cfg.blockSize, m, rest, b.queue);
    BackFits(cfg, c.running, back);
    SchedulePrefillSafe(cfg, d);
  }

  // ---------- nobody is lost ----------

  ghost predicate Unfinished(running: seq<Req>, p: RequestId) {
    exists i :: 0 <= i < |running| && running[i].id == p && !running[i].finished
  }

  ghost predicate NoneFinished(running: seq<Req>) {
    forall i | 0 <= i < |running| :: !running[i].finished
  }

  lemma {:induction false} UnfinishedStay(mgrs: seq<State>, running: seq<Req>, p: RequestId)
    ensures var rest := PopFinished(mgrs, running).1;
      NoneFinished(rest) && (Unfinished(running, p) ==> Has(rest, p))
  {
    if running != [] {
      var n := |running| - 1;
      var front, last := running[..n], running[n];
      UnfinishedStay(mgrs, front, p);
      var rest := PopFinished(mgrs, front).1;
      if Unfinished(running, p) {
        var i :| 0 <= i < |running| && running[i].id == p && !running[i].finished;
        if i < n {
          assert front[i].id == p;
          HasMore(rest, last, p);
        } else {
          assert (rest + [last])[|rest|].id == p;
        }
      }
    }
  }

  lemma HasMore(rest: seq<Req>, q: Req, p: RequestId)
    requires Has(rest, p)
    ensures Has(rest + [q], p)
  {
    var i :| 0 <= i < |rest| && rest[i].id == p;
    assert (rest + [q])[i].id == p;
  }

  /** Allocating keeps everybody, in the batch or, evicted, in the queue. */
  lemma AllocatedHold(cfg: Config, g: Group, b: Batch, p: RequestId)
    requires EngineSafe(cfg, g, b) && Holds(b, p)
    ensures var o := AllocateRunning(cfg.blockSize, b.mgrs, b.running, b.queue); Has(o.running, p) || Has(o.queue, p)
  {
    var h, victims := AllocateRunningSafe(cfg.blockSize, g, b.running, b.queue);
    var o := AllocateRunning(cfg.blockSize, b.mgrs, b.running, b.queue);
    if Has(b.running, p) {
      EvictedOrRunning(o.running, victims, b.running, p);
    }
    QueuedAgain(victims, b.queue, o.queue, p);
  }

  lemma QueuedAgain(victims: seq<Req>, queue: seq<Req>, all: seq<Req>, p: RequestId)
    requires all == Recomputed(victims) + queue
    ensures Has(victims, p) || Has(queue, p) ==> Has(all, p)
  {
    if Has(victims, p) {
      var i :| 0 <= i < |victims| && victims[i].id == p;
      assert all[i].id == p;
    } else if Has(queue, p) {
      var i :| 0 <= i < |queue| && queue[i].id == p;
      assert all[|victims| + i].id == p;
    }
  }

  lemma ScheduledHold(cfg: Config, g: Group, b: Batch, p: RequestId)
    requires EngineSafe(cfg, g, b) && SchedulePrefill(cfg, b).Some? && Holds(b, p)
    ensures Holds(SchedulePrefill(cfg, b).value, p)
  {
    var c := b.(running := NextChunks(b.running, cfg.budget - TokenCount(b.running)).0);
    var r := SchedulePrefill(cfg, b).value;
    ChunkedPages(cfg.blockSize, g, b.running, cfg.budget - TokenCount(b.running));
    ChunkedHas(b.running, cfg.budget - TokenCount(b.running));
    var h := AdmitLoopInGroup(cfg, g, c);
    MovedHold(c, r, p);
  }

  lemma MovedHold(b: Batch, r: Batch, p: RequestId)
    requires MovedOver(b, r) && Holds(b, p)
    ensures Holds(r, p)
  {
    var n, m := |b.running|, |r.running| - |b.running|;
    if Has(b.running, p) {
      var i :| 0 <= i < n && b.running[i].id == p;
      assert r.running[i] == r.running[..n][i];
    } else {
      var i :| 0 <= i < |b.queue| && b.queue[i].id == p;
      if i < m {
        assert r.running[n + i].id == p;
      } else {
        assert r.queue[i - m].id == p;
      }
    }
  }

  /** Whoever runs unfinished or waits in the queue is in the batch or the queue afterwards. */
  lemma NobodyLost(cfg: Config, g: Group, b: Batch, back: seq<Req>, p: RequestId)
    requires EngineSafe(cfg, g, b) && BackOk(cfg, g, b, back) && NextBatch(cfg, b, back).Some?
    requires Unfinished(b.running, p) || Has(b.queue, p)
    ensures Holds(NextBatch(cfg, b, back).value.0, p)
  {
    var (m, rest) := PopFinished(b.mgrs, b.running);
    var popped := PopReady(cfg, g, b);
    UnfinishedStay(b.mgrs, b.running, p);
    AllocatedHold(cfg, popped, Batch(rest, b.queue, m), p);
    var h, c, d := BackReady(cfg, g, b, back);
    assert Holds(d, p);
    ScheduledHold(cfg, h, d, p);
  }

  /** The batch begins with these requests, moved on to their next chunk. */
  ghost predicate Leads(before: seq<Req>, r: Batch) {
    |before| <= |r.running| && forall i | 0 <= i < |before| :: SameButChunk(before[i], r.running[i])
  }

  ghost predicate StillRun(b: Batch, stay: seq<Req>) {
    forall i | 0 <= i < |stay| :: !stay[i].finished && Has(b.running, stay[i].id)
  }

  /** In front of the batch composed stand, unfinished, those who stayed, then the first ready ones in order; the next
      ready one, if there is one, would have exceeded the budget or the batch size before anybody was admitted. */
  ghost predicate InFront(cfg: Config, b: Batch, back: seq<Req>, r: Batch, rest: seq<Req>, stay: nat, n: nat,
                          before: seq<Req>) {
    && n <= |back| && stay + n == |before| <= |r.running| && |rest| == |back| - n
    && Leads(before, r)
    && (forall i | 0 <= i < stay :: !before[i].finished && Has(b.running, before[i].id))
    && (forall i | 0 <= i < n :: before[stay + i] == back[i].(fusion := cfg.fused, home := cfg.rank))
    && (forall i | 0 <= i < |rest| :: rest[i].id == back[n + i].id)
    && (n < |back| ==> TokenCount(before) + InputCount(rest[0]) > cfg.budget || |before| >= cfg.maxBatch)
  }

  lemma NextBatchIs(cfg: Config, b: Batch, back: seq<Req>, c: Batch, d: Batch)
    requires cfg.blockSize > 0 && NextBatch(cfg, b, back).Some?
    requires var (m, rest) := PopFinished(b.mgrs, b.running);
      var o := AllocateRunning(cfg.blockSize, m, rest, b.queue);
      && o.ok && c == Batch(o.running, o.queue, o.mgrs) && d == c.(running := ComeBack(cfg, c.running, back).0)
    ensures SchedulePrefill(cfg, d).Some?
    ensures NextBatch(cfg, b, back).value == (SchedulePrefill(cfg, d).value, ComeBack(cfg, c.running, back).1)
  {
  }

  lemma InFrontOf(cfg: Config, b: Batch, back: seq<Req>, stay: seq<Req>, r: Batch) returns (n: nat)
    requires StillRun(b, stay) && Leads(ComeBack(cfg, stay, back).0, r)
    ensures var (before, rest) := ComeBack(cfg, stay, back);
      InFront(cfg, b, back, r, rest, |stay|, n, before)
  {
    n := BackStops(cfg, stay, back);
    var before := ComeBack(cfg, stay, back).0;
    forall i | 0 <= i < |stay| ensures before[i] == stay[i] {
      assert before[i] == before[..|stay|][i];
    }
  }

  lemma StayersOf(cfg: Config, g: Group, b: Batch, c: Batch)
    requires EngineSafe(cfg, g, b)
    requires var (m, rest) := PopFinished(b.mgrs, b.running);
      c.running == AllocateRunning(cfg.blockSize, m, rest, b.queue).running
    ensures StillRun(b, c.running)
  {
    var (m, rest) := PopFinished(b.mgrs, b.running);
    var popped := PopReady(cfg, g, b);
    var h := PopFinishedSafe(cfg.blockSize, g, b.running);
    UnfinishedStay(b.mgrs, b.running, 0);
    StayersUnfinished(cfg.blockSize, popped, b.running, b.queue, rest, c.running);
  }

  /** What the call makes of those who run and of those who are ready to come back. */
  lemma WhoRuns(cfg: Config, g: Group, b: Batch, back: seq<Req>)
    returns (r: Batch, rest: seq<Req>, stay: nat, n: nat, before: seq<Req>)
    requires EngineSafe(cfg, g, b) && BackOk(cfg, g, b, back) && NextBatch(cfg, b, back).Some?
    ensures NextBatch(cfg, b, back) == Some((r, rest)) && InFront(cfg, b, back, r, rest, stay, n, before)
  {
    var h, c, d := BackReady(cfg, g, b, back);
    stay, before, rest := |c.running|, d.running, ComeBack(cfg, c.running, back).1;
    StayersOf(cfg, g, b, c);
    NextBatchIs(cfg, b, back, c, d);
    r := SchedulePrefill(cfg, d).value;
    StandInFront(cfg, h, d);
    n := InFrontOf(cfg, b, back, c.running, r);
  }

  lemma StandInFront(cfg: Config, g: Group, b: Batch)
    requires EngineSafe(cfg, g, b) && SchedulePrefill(cfg, b).Some?
    ensures Leads(b.running, SchedulePrefill(cfg, b).value)
  {
    var free := cfg.budget - TokenCount(b.running);
    var e := b.(running := NextChunks(b.running, free).0);
    NextChunksSame(b.running, free);
    ChunkedPages(cfg.blockSize, g, b.running, free);
    var j := AdmitLoopInGroup(cfg, g, e);
    var r := SchedulePrefill(cfg, b).value;
    forall i | 0 <= i < |b.running| ensures i < |r.running| && r.running[i] == e.running[i] {
      assert r.running[i] == r.running[..|e.running|][i];
    }
  }

  lemma StayersUnfinished(blockSize: nat, g1: Group, running: seq<Req>, queue: seq<Req>, popped: seq<Req>,
                          stay: seq<Req>)
    requires RunningIn(blockSize, g1, popped) && stay == AllocateRunning(blockSize, g1.mgrs, popped, queue).running
    requires forall i | 0 <= i < |popped| :: !popped[i].finished && Has(running, popped[i].id)
    ensures forall i | 0 <= i < |stay| :: !stay[i].finished && Has(running, stay[i].id)
  {
    var o, victims := AllocateRunningSafe(blockSize, g1, popped, queue);
    forall i | 0 <= i < |stay| ensures !stay[i].finished && Has(running, stay[i].id) {
      StaysHas(stay, victims, popped, i);
      var a :| 0 <= a < |popped| && popped[a] == stay[i];
    }
  }

  /** What holds before an iteration holds after it, whatever arrives, comes back or is generated; and if those who
      come back hold exactly their pages, then everybody does afterwards just when nobody's last page was full. */
  lemma IterateSafe(cfg: Config, g: Group, b: Batch, arrivals: seq<Req>, back: seq<Req>, tokens: seq<Option<Token>>)
    returns (h: Group)
    requires EngineSafe(cfg, g, b) && QueueOk(g, b.queue + arrivals)
    requires BackOk(cfg, g, b.(queue := b.queue + arrivals), back)
    requires Iterate(cfg, b, arrivals, back, tokens).Some?
    ensures var (r, c) := (Iterate(cfg, b, arrivals, back, tokens).value.0, b.(queue := b.queue + arrivals));
      && EngineSafe(cfg, h, r) && WithinBack(g, c, back, h, r)
      && (BackProvided(cfg, g, back) ==>
           (AllProvided(cfg.blockSize, h, r.running) <==>
              Roomy(cfg.blockSize, NextBatch(cfg, c, back).value.0.running, tokens)))
  {
    var c := b.(queue := b.queue + arrivals);
    h := NextBatchSafe(cfg, g, c, back);
    var r := NextBatch(cfg, c, back).value.0;
    ExecutedPages(cfg.blockSize, h, r.running, tokens);
    ExecutedWithin(g, c, back, h, r, tokens);
    if BackProvided(cfg, g, back) {
      StillExact(cfg.blockSize, h, r.running, tokens);
    }
  }

  lemma ExecutedWithin(g: Group, b: Batch, back: seq<Req>, h: Group, r: Batch, tokens: seq<Option<Token>>)
    requires WithinBack(g, b, back, h, r)
    ensures WithinBack(g, b, back, h, r.(running := Iterated(r.running, tokens)))
  {
    forall p ensures Has(Iterated(r.running, tokens), p) <==> Has(r.running, p) {
      ExecutedHas(r.running, tokens, p);
    }
  }

  lemma IterateFits(cfg: Config, g: Group, b: Batch, arrivals: seq<Req>, back: seq<Req>, tokens: seq<Option<Token>>)
    requires EngineSafe(cfg, g, b) && QueueOk(g, b.queue + arrivals)
    requires BackOk(cfg, g, b.(queue := b.queue + arrivals), back) && BatchOk(cfg, b.running) && AllChunksOk(back)
    ensures Iterate(cfg, b, arrivals, back, tokens).Some?
    ensures var r := Iterate(cfg, b, arrivals, back, tokens).value.0;
      BatchOk(cfg, r.running) && (Partials(b.running) + Partials(back) <= 1 ==> Partials(r.running) <= 1)
  {
    var c := b.(queue := b.queue + arrivals);
    NextBatchFits(cfg, g, c, back);
    IteratedBatch(NextBatch(cfg, c, back).value.0.running, tokens);
  }

  // ---------- any number of iterations ----------

  datatype Input = Input(arrivals: seq<Req>, tokens: seq<Option<Token>>)

  ghost function IdSet(reqs: seq<Req>): set<RequestId> {
    set i | 0 <= i < |reqs| :: reqs[i].id
  }

  /** New requests bring ids nobody has had before. */
  ghost predicate FreshInputs(used: set<RequestId>, inputs: seq<Input>)
    decreases |inputs|
  {
    inputs == [] ||
    (&& AllFresh(inputs[0].arrivals) && NobodyMoves(inputs[0].arrivals)
     && DistinctIds(inputs[0].arrivals) && IdSet(inputs[0].arrivals) !! used
     && FreshInputs(used + IdSet(inputs[0].arrivals), inputs[1..]))
  }

  function IterateAll(cfg: Config, b: Batch, inputs: seq<Input>): Option<Batch>
    requires cfg.blockSize > 0
    decreases |inputs|
  {
    if inputs == [] then Some(b)
    else match Iterate(cfg, b, inputs[0].arrivals, [], inputs[0].tokens)
         case None => None
         case Some((c, _)) => IterateAll(cfg, c, inputs[1..])
  }

  ghost predicate Accounted(g: Group, b: Batch, used: set<RequestId>) {
    && (forall p | p in g.reqs :: p in used)
    && forall i | 0 <= i < |b.queue| :: b.queue[i].id in used
  }

  lemma ArrivalsNew(g: Group, b: Batch, used: set<RequestId>, arrivals: seq<Req>)
    requires NewQueue(g, b.queue) && Accounted(g, b, used) && DistinctIds(arrivals) && IdSet(arrivals) !! used
    ensures NewQueue(g, b.queue + arrivals)
  {
    var all, n := b.queue + arrivals, |b.queue|;
    forall i | 0 <= i < |arrivals| ensures arrivals[i].id !in used {
      assert arrivals[i].id in IdSet(arrivals);
    }
    forall i | 0 <= i < |all|
      ensures all[i].id !in g.reqs
      ensures i < n ==> all[i].id in used
      ensures i >= n ==> all[i].id !in used
    {
      if i >= n {
        assert all[i] == arrivals[i - n];
      }
    }
  }

  lemma StillAccounted(g: Group, b: Batch, used: set<RequestId>, arrivals: seq<Req>, h: Group, r: Batch)
    requires Accounted(g, b, used) && WithinBack(g, b.(queue := b.queue + arrivals), [], h, r)
    requires forall p | Has(b.running, p) :: p in g.reqs
    ensures Accounted(h, r, used + IdSet(arrivals))
  {
    var all := b.(queue := b.queue + arrivals);
    forall p | Holds(all, p) ensures p in used + IdSet(arrivals) {
      if Has(all.queue, p) {
        var i :| 0 <= i < |all.queue| && all.queue[i].id == p;
        if i >= |b.queue| {
          assert arrivals[i - |b.queue|].id == p;
        }
      }
    }
    forall i | 0 <= i < |r.queue| ensures Holds(r, r.queue[i].id) {
    }
    forall p | p in h.reqs ensures p in used + IdSet(arrivals) {
      if Has(r.running, p) {
        assert Holds(r, p);
      }
    }
  }

  lemma RunningKnown(blockSize: nat, g: Group, running: seq<Req>)
    requires RunningIn(blockSize, g, running)
    ensures forall p | Has(running, p) :: p in g.reqs
  {
    forall p | Has(running, p) ensures p in g.reqs {
      var i :| 0 <= i < |running| && running[i].id == p;
      assert Tracked(blockSize, g, running[i]);
    }
  }

  /** Over any number of iterations in which nobody comes back no assertion fails and the invariant holds, so that
      the next batch is always one that NextBatchSafe and NextBatchFits describe. */
  lemma {:induction false} IterationsSafe(cfg: Config, g: Group, b: Batch, used: set<RequestId>, inputs: seq<Input>)
    returns (h: Group)
    requires EngineSafe(cfg, g, b) && BatchOk(cfg, b.running) && Accounted(g, b, used) && FreshInputs(used, inputs)
    ensures IterateAll(cfg, b, inputs).Some?
    ensures var r := IterateAll(cfg, b, inputs).value;
      EngineSafe(cfg, h, r) && BatchOk(cfg, r.running) && (Partials(b.running) <= 1 ==> Partials(r.running) <= 1)
    decreases |inputs|
  {
    h := g;
    if inputs != [] {
      var arrivals, tokens := inputs[0].arrivals, inputs[0].tokens;
      ArrivalsNew(g, b, used, arrivals);
      IterateFits(cfg, g, b, arrivals, [], tokens);
      var mid := IterateSafe(cfg, g, b, arrivals, [], tokens);
      var c := Iterate(cfg, b, arrivals, [], tokens).value.0;
      RunningKnown(cfg.blockSize, g, b.running);
      StillAccounted(g, b, used, arrivals, mid, c);
      h := IterationsSafe(cfg, mid, c, used + IdSet(arrivals), inputs[1..]);
    }
  }

  /** An engine without requests on any safe group is where it can start. */
  lemma EngineStarts(cfg: Config, g: Group)
    requires cfg.blockSize > 0 && Safe(g) && cfg.fused == (g.phase == Balloon) && cfg.rank < g.k
    ensures EngineSafe(cfg, g, Batch([], [], g.mgrs)) && BatchOk(cfg, [])
    ensures Accounted(g, Batch([], [], g.mgrs), g.reqs.Keys)
  {
  }
}

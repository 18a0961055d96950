/** Composing a batch, seen from the group: every admission is a step of the group that cannot fail. */
module Admission {
  import opened Paging
  import opened Pools
  import opened Ownership
  import opened Requests
  import opened Group
  import opened GroupSafety
  import opened LiveRestore
  import opened Prefill
  import Reshard

  /** The same phase, and nobody taken for a restore or parked. */
  ghost predicate Alike(g: Group, h: Group) {
    && h.n == g.n && h.k == g.k && h.phase == g.phase && h.draining == g.draining
    && h.taken == g.taken && h.waiting == g.waiting && h.holder == g.holder && h.resharding == g.resharding
  }

  ghost predicate Onward(g: Group, h: Group) {
    Safe(h) && Alike(g, h)
  }

  ghost predicate Matches(cfg: Config, g: Group, b: Batch) {
    && cfg.blockSize > 0 && Safe(g) && b.mgrs == g.mgrs
    && cfg.fused == (g.phase == Balloon) && cfg.rank < g.k
  }

  /** The queue holds different requests, none of which the group knows. */
  ghost predicate NewQueue(g: Group, queue: seq<Req>) {
    && (forall i | 0 <= i < |queue| :: queue[i].id !in g.reqs)
    && (forall i, j | 0 <= i < j < |queue| :: queue[i].id != queue[j].id)
  }

  /** The request is known to the group and holds exactly the pages its tokens need, wherever it runs. */
  ghost predicate Provided(blockSize: nat, g: Group, q: Req) {
    && blockSize > 0 && Sized(g) && q.id in g.reqs && g.reqs[q.id] == FlagsOf(q)
    && forall i | 0 <= i < g.k && Uses(FlagsOf(q), i) ::
         Held(g.mgrs[i], q.id) == BlocksNeeded(NumTokens(q), blockSize)
  }

  lemma ProvidedKept(blockSize: nat, g: Group, h: Group, q: Req)
    requires Provided(blockSize, g, q) && Reshard.Kept(g, h, q.id)
    ensures Provided(blockSize, h, q)
  {
    forall i | 0 <= i < g.k ensures Held(h.mgrs[i], q.id) == Held(g.mgrs[i], q.id) {
      assert SameTable(g.mgrs[i], h.mgrs[i], q.id);
    }
  }

  /** The check lets a request pass exactly when each manager it is to use has as many pages as it needs in the pool
      it will draw from, extend pages included. */
  lemma BlocksFitExactly(cfg: Config, g: Group, q: Req)
    requires cfg.blockSize > 0 && Safe(g) && cfg.fused == (g.phase == Balloon) && cfg.rank < g.k
    requires q.fusion == cfg.fused && q.home == cfg.rank
    ensures BlocksFit(cfg, g.mgrs, q) <==>
      forall i | 0 <= i < g.k && Uses(FlagsOf(q), i) ::
        BlocksNeeded(NumTokens(q), cfg.blockSize) <= |PoolFor(g.mgrs[i], q.fusion, false)|
  {
    forall i | 0 <= i < g.k ensures FreeCount(g.mgrs[i]) == |PoolFor(g.mgrs[i], cfg.fused, false)| {
      assert ManagerOk(g, i);
    }
  }

  lemma PushIsAdmit(cfg: Config, g: Group, b: Batch, q: Req) returns (h: Group)
    requires Matches(cfg, g, b) && b.queue != [] && q.fusion == cfg.fused && q.home == cfg.rank
    requires q.id !in g.reqs && BlocksFit(cfg, b.mgrs, q)
    ensures Matches(cfg, h, Push(cfg, b, q)) && h.reqs == g.reqs[q.id := FlagsOf(q)] && Alike(g, h)
    ensures Provided(cfg.blockSize, h, q)
    ensures forall p | p != q.id :: Reshard.Kept(g, h, p)
  {
    var need := BlocksNeeded(NumTokens(q), cfg.blockSize);
    var e := Admit(q.id, cfg.rank, need);
    h := Apply(g, e);
    AdmitSafe(g, q.id, cfg.rank, need);
    assert h.mgrs == Push(cfg, b, q).mgrs;
    forall i | 0 <= i < g.k && Uses(FlagsOf(q), i) ensures Held(h.mgrs[i], q.id) == need {
      AdmitManager(g, q.id, cfg.rank, need, i);
    }
    forall p | p != q.id ensures Reshard.Kept(g, h, p) {
      forall i | 0 <= i < g.k ensures SameTable(g.mgrs[i], h.mgrs[i], p) {
        AllocateOther(g.mgrs[i], q.id, FlagsOf(q), i, need, p);
      }
    }
  }

  /** The requests from `from` on joined the batch with all their pages. */
  ghost predicate Joined(cfg: Config, g: Group, running: seq<Req>, from: nat) {
    forall i | from <= i < |running| :: Provided(cfg.blockSize, g, running[i])
  }

  /** The queue moved over in order, no request lost and none twice. */
  ghost predicate MovedOver(b: Batch, r: Batch) {
    var n := |r.running| - |b.running|;
    && 0 <= n <= |b.queue| && |r.queue| == |b.queue| - n
    && r.running[..|b.running|] == b.running
    && (forall i | 0 <= i < n :: r.running[|b.running| + i].id == b.queue[i].id)
    && (forall i | n <= i < |b.queue| :: r.queue[i - n].id == b.queue[i].id)
  }

  lemma MovedOneMore(cfg: Config, b: Batch, q: Req, r: Batch)
    requires cfg.blockSize > 0 && b.queue != [] && q.id == b.queue[0].id && MovedOver(Push(cfg, b, q), r)
    ensures MovedOver(b, r)
  {
    var p := Push(cfg, b, q);
    assert r.running[..|b.running|] == r.running[..|p.running|][..|b.running|];
    assert r.running[..|p.running|][|b.running|] == q;
    forall i | 0 <= i < |r.running| - |b.running| ensures r.running[|b.running| + i].id == b.queue[i].id {
      if i > 0 {
        assert p.queue[i - 1] == b.queue[i] && r.running[|p.running| + (i - 1)].id == p.queue[i - 1].id;
      }
    }
    var n := |r.running| - |b.running|;
    forall i | n <= i < |b.queue| ensures r.queue[i - n].id == b.queue[i].id {
      assert p.queue[i - 1] == b.queue[i] && r.queue[(i - 1) - (n - 1)].id == p.queue[i - 1].id;
    }
  }

  /** One admission followed by what admission did next. */
  lemma JoinOneMore(cfg: Config, g: Group, b: Batch, q: Req, h: Group, r: Batch, j: Group)
    requires Matches(cfg, g, b) && b.queue != [] && q.id == b.queue[0].id && NewQueue(g, b.queue)
    requires h.reqs == g.reqs[q.id := FlagsOf(q)] && Provided(cfg.blockSize, h, q)
    requires forall p | p != q.id :: Reshard.Kept(g, h, p)
    requires MovedOver(Push(cfg, b, q), r) && Joined(cfg, j, r.running, |b.running| + 1)
    requires forall p | p in h.reqs :: Reshard.Kept(h, j, p)
    ensures MovedOver(b, r) && Joined(cfg, j, r.running, |b.running|)
    ensures forall p | p in g.reqs :: Reshard.Kept(g, j, p)
  {
    MovedOneMore(cfg, b, q, r);
    var p := Push(cfg, b, q);
    assert r.running[..|p.running|][|b.running|] == q;
    ProvidedKept(cfg.blockSize, h, j, q);
    forall p | p in g.reqs ensures Reshard.Kept(g, j, p) {
      Reshard.KeptTrans(g, h, j, p);
    }
  }

  lemma NewTail(g: Group, queue: seq<Req>, h: Group, f: Flags)
    requires NewQueue(g, queue) && queue != [] && h.reqs == g.reqs[queue[0].id := f]
    ensures NewQueue(h, queue[1..])
  {
  }

  /** Besides those it knew, the group knows the first `n` of the queue at most. */
  ghost predicate OnlyJoined(g: Group, h: Group, queue: seq<Req>, n: int) {
    && Alike(g, h)
    && forall p | p in h.reqs :: p in g.reqs || exists i :: 0 <= i < n && i < |queue| && queue[i].id == p
  }

  lemma OnlyOneMore(g: Group, mid: Group, h: Group, queue: seq<Req>, n: int, f: Flags)
    requires queue != [] && mid.reqs == g.reqs[queue[0].id := f] && Alike(g, mid) && n >= 1
    requires OnlyJoined(mid, h, queue[1..], n - 1)
    ensures OnlyJoined(g, h, queue, n)
  {
    forall p | p in h.reqs ensures p in g.reqs || exists i :: 0 <= i < n && i < |queue| && queue[i].id == p {
      if p !in mid.reqs {
        var i :| 0 <= i < n - 1 && i < |queue[1..]| && queue[1..][i].id == p;
        assert queue[i + 1].id == p;
      } else if p !in g.reqs {
        assert queue[0].id == p;
      }
    }
  }

  /** Whoever still waits is still unknown to the group. */
  lemma RestIsNew(g: Group, h: Group, b: Batch, r: Batch)
    requires NewQueue(g, b.queue) && MovedOver(b, r) && OnlyJoined(g, h, b.queue, |r.running| - |b.running|)
    ensures NewQueue(h, r.queue)
  {
    var n := |r.running| - |b.running|;
    forall i | 0 <= i < |r.queue| ensures r.queue[i].id == b.queue[i + n].id {
      assert r.queue[(i + n) - n].id == b.queue[i + n].id;
    }
  }

  /** What admission made of batch `b`: it is still a run of the group, each request that joined holds exactly
      what it needs, everybody else keeps what he had, and the queue moved over in order. */
  ghost predicate Grown(cfg: Config, g: Group, b: Batch, h: Group, r: Batch) {
    && Matches(cfg, h, r) && MovedOver(b, r) && Joined(cfg, h, r.running, |b.running|)
    && OnlyJoined(g, h, b.queue, |r.running| - |b.running|)
    && forall p | p in g.reqs :: Reshard.Kept(g, h, p)
  }

  lemma NothingKept(g: Group)
    requires Sized(g)
    ensures forall p: RequestId :: Reshard.Kept(g, g, p)
  {
  }

  lemma NobodyJoins(cfg: Config, g: Group, b: Batch, r: Batch)
    requires Matches(cfg, g, b) && r.running == b.running && r.mgrs == b.mgrs && |r.queue| == |b.queue|
    requires forall i | 0 <= i < |r.queue| :: r.queue[i].id == b.queue[i].id
    ensures Grown(cfg, g, b, g, r)
  {
    assert r.running[..|b.running|] == b.running;
    NothingKept(g);
  }

  lemma OneJoins(cfg: Config, g: Group, b: Batch, q: Req, mid: Group, h: Group, r: Batch)
    requires Matches(cfg, g, b) && b.queue != [] && q.id == b.queue[0].id && NewQueue(g, b.queue)
    requires mid.reqs == g.reqs[q.id := FlagsOf(q)] && Provided(cfg.blockSize, mid, q) && Alike(g, mid)
    requires forall p | p != q.id :: Reshard.Kept(g, mid, p)
    requires Grown(cfg, mid, Push(cfg, b, q), h, r)
    ensures Grown(cfg, g, b, h, r)
  {
    JoinOneMore(cfg, g, b, q, mid, r, h);
    OnlyOneMore(g, mid, h, b.queue, |r.running| - |b.running|, FlagsOf(q));
  }

  lemma JoinedHead(cfg: Config, b: Batch)
    requires cfg.blockSize > 0 && b.queue != [] && Consider(cfg, b).Join?
    ensures var q := Consider(cfg, b).q;
      q.id == b.queue[0].id && q.fusion == cfg.fused && q.home == cfg.rank && BlocksFit(cfg, b.mgrs, q)
  {
  }

  /** Admission is a run of the group, and pages never fail to come. */
  lemma {:induction false} AdmitLoopInGroup(cfg: Config, g: Group, b: Batch) returns (h: Group)
    requires Matches(cfg, g, b) && NewQueue(g, b.queue) && AdmitLoop(cfg, b).Some?
    ensures Grown(cfg, g, b, h, AdmitLoop(cfg, b).value)
    decreases |b.queue|
  {
    var r := AdmitLoop(cfg, b).value;
    if b.queue != [] && Consider(cfg, b).Join? {
      var q, more := Consider(cfg, b).q, Consider(cfg, b).more;
      JoinedHead(cfg, b);
      var mid := PushIsAdmit(cfg, g, b, q);
      if more {
        NewTail(g, b.queue, mid, FlagsOf(q));
        h := AdmitLoopInGroup(cfg, mid, Push(cfg, b, q));
      } else {
        NobodyJoins(cfg, mid, Push(cfg, b, q), Push(cfg, b, q));
        h := mid;
      }
      OneJoins(cfg, g, b, q, mid, h, r);
    } else {
      NobodyJoins(cfg, g, b, r);
      h := g;
    }
  }
}

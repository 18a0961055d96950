/** The packing variant, seen from the group: the long request is admitted like the others, with all its pages. */
module PackedAdmission {
  import opened Paging
  import opened Counting
  import opened Pools
  import opened Ownership
  import opened Requests
  import opened Group
  import opened GroupSafety
  import opened Prefill
  import opened Admission
  import opened PackedPrefill
  import opened Iteration
  import Reshard

  // ---------- the inputs that make the mean ----------

  /** The inputs of the short requests. */
  ghost function Inputs(reqs: seq<Req>, threshold: real): seq<nat> {
    if reqs == [] then []
    else
      var last := reqs[|reqs| - 1];
      Inputs(reqs[..|reqs| - 1], threshold) + (if Short(last, threshold) then [InputCount(last)] else [])
  }

  /** How many of the requests run `x` tokens next. */
  ghost function WithInput(reqs: seq<Req>, x: nat): set<nat> {
    set i: nat | i < |reqs| && InputCount(reqs[i]) == x
  }

  lemma WithInputLast(reqs: seq<Req>, x: nat)
    requires reqs != []
    ensures |WithInput(reqs, x)|
         == |WithInput(reqs[..|reqs| - 1], x)| + (if InputCount(reqs[|reqs| - 1]) == x then 1 else 0)
  {
    var n := |reqs| - 1;
    var front := WithInput(reqs[..n], x);
    if InputCount(reqs[n]) == x {
      assert WithInput(reqs, x) == front + {n};
    } else {
      assert WithInput(reqs, x) == front;
    }
  }

  /** An input counts as often as there are requests with it, if it is within the threshold, and else not at all. */
  lemma {:induction false} InputsExactly(reqs: seq<Req>, threshold: real, x: nat)
    ensures multiset(Inputs(reqs, threshold))[x] == if x as real <= threshold then |WithInput(reqs, x)| else 0
    ensures ShortCount(reqs, threshold) == |Inputs(reqs, threshold)|
    ensures ShortTokens(reqs, threshold) == Total(Inputs(reqs, threshold))
  {
    if reqs == [] {
      assert WithInput(reqs, x) == {};
    } else {
      var front, last := reqs[..|reqs| - 1], reqs[|reqs| - 1];
      InputsExactly(front, threshold, x);
      WithInputLast(reqs, x);
      var inputs := Inputs(front, threshold);
      if Short(last, threshold) {
        assert (inputs + [InputCount(last)])[..|inputs|] == inputs;
      } else {
        assert inputs + [] == inputs;
      }
    }
  }

  lemma {:induction false} ContextsExactly(running: seq<Req>, q: Req)
    ensures multiset(Contexts(running))[q] == if q.generated == [] then multiset(running)[q] else 0
  {
    if running != [] {
      var front, last := running[..|running| - 1], running[|running| - 1];
      ContextsExactly(front, q);
      assert running == front + [last];
      assert Contexts(front) + [] == Contexts(front);
    }
  }

  /** The floor of the mean over the short inputs, or of the threshold if there are none. */
  ghost predicate IsMean(inputs: seq<nat>, threshold: real, m: nat) {
    if inputs == [] then m == threshold.Floor
    else m * |inputs| <= Total(inputs) < (m + 1) * |inputs|
  }

  lemma Quotient(total: nat, count: nat)
    requires count > 0
    ensures var m := total / count; m * count <= total < (m + 1) * count
  {
    var m := total / count;
    assert total == m * count + total % count;
    assert (m + 1) * count == m * count + count;
  }

  lemma MeanIs(reqs: seq<Req>, threshold: real)
    requires threshold >= 0.0
    ensures IsMean(Inputs(reqs, threshold), threshold, MeanInput(reqs, threshold))
  {
    InputsExactly(reqs, threshold, 0);
    if Inputs(reqs, threshold) != [] {
      Quotient(ShortTokens(reqs, threshold), ShortCount(reqs, threshold));
    }
  }

  // ---------- the call as steps of the group ----------

  /** Those who join: the long request, if it is taken, and then the queue. */
  function Candidates(b: Batch, long: seq<Req>, took: bool): seq<Req> {
    if took && long != [] then [long[0]] + b.queue else b.queue
  }

  /** The running requests after their next chunk, before anybody joins. */
  ghost predicate Moved(b: Batch, c: Batch) {
    && c.mgrs == b.mgrs && |c.running| == |b.running|
    && forall i | 0 <= i < |b.running| :: SameButChunk(b.running[i], c.running[i])
  }

  lemma LongAdmitted(cfg: Config, g: Group, b: Batch, long: seq<Req>, size: int) returns (h: Group)
    requires Matches(cfg, g, b) && TakesLong(cfg, b, long, size) && NewQueue(g, Candidates(b, long, true))
    ensures var d := WithLong(cfg, b, long, size);
      Matches(cfg, h, d) && NewQueue(h, d.queue)
    ensures AdmitLoop(cfg, WithLong(cfg, b, long, size)).Some? ==> forall j: Group ::
      Grown(cfg, h, WithLong(cfg, b, long, size), j, AdmitLoop(cfg, WithLong(cfg, b, long, size)).value) ==>
        Grown(cfg, g, b.(queue := Candidates(b, long, true)), j, AdmitLoop(cfg, WithLong(cfg, b, long, size)).value)
  {
    var all := b.(queue := Candidates(b, long, true));
    var q := SetChunk(Tagged(cfg, long[0]), size).0;
    assert all.queue[0] == long[0] && all.queue[1..] == b.queue;
    assert NumTokens(q) == NumTokens(Tagged(cfg, long[0]));
    assert Push(cfg, all, q) == WithLong(cfg, b, long, size);
    h := PushIsAdmit(cfg, g, all, q);
    NewTail(g, all.queue, h, FlagsOf(q));
    var o := AdmitLoop(cfg, WithLong(cfg, b, long, size));
    if o.Some? {
      forall j: Group | Grown(cfg, h, Push(cfg, all, q), j, o.value) ensures Grown(cfg, g, all, j, o.value) {
        OneJoins(cfg, g, all, q, h, j, o.value);
      }
    }
  }

  lemma JoinedInGroup(cfg: Config, g: Group, b: Batch, long: seq<Req>, size: int) returns (h: Group)
    requires Matches(cfg, g, b) && NewQueue(g, Candidates(b, long, true))
    requires AdmitLoop(cfg, WithLong(cfg, b, long, size)).Some?
    ensures var took := TakesLong(cfg, b, long, size);
      Grown(cfg, g, b.(queue := Candidates(b, long, took)), h, AdmitLoop(cfg, WithLong(cfg, b, long, size)).value)
  {
    if TakesLong(cfg, b, long, size) {
      var mid := LongAdmitted(cfg, g, b, long, size);
      h := AdmitLoopInGroup(cfg, mid, WithLong(cfg, b, long, size));
    } else {
      ShorterNew(g, b, long);
      h := AdmitLoopInGroup(cfg, g, b);
    }
  }

  lemma ShorterNew(g: Group, b: Batch, long: seq<Req>)
    requires NewQueue(g, Candidates(b, long, true))
    ensures NewQueue(g, b.queue)
  {
    var all := Candidates(b, long, true);
    if long != [] {
      forall i | 0 <= i < |b.queue| ensures b.queue[i] == all[i + 1] {
      }
    }
  }

  /** The smaller of the free budget and the mean, with which a long request starts. */
  ghost predicate Starts(cfg: Config, threshold: real, b: Batch, own: nat, before: seq<Req>, size: int)
    requires own <= |b.queue|
  {
    exists m: nat ::
      IsMean(Inputs(Contexts(b.running) + b.queue[..own], threshold), threshold, m)
      && size == Min(cfg.budget - TokenCount(before), m)
  }

  lemma FirstMoves(cfg: Config, threshold: real, b: Batch, own: nat) returns (d: Batch, size: int)
    requires threshold >= 0.0 && own <= |b.queue|
    ensures (d, size) == FirstPart(cfg, threshold, b, own) && Moved(b, d) && d.queue == b.queue
    ensures TokenCount(b.running) <= cfg.budget && AllChunksOk(b.running) ==>
      Starts(cfg, threshold, b, own, d.running, size)
  {
    var reqs := Contexts(b.running) + b.queue[..own];
    d, size := FirstPart(cfg, threshold, b, own).0, FirstPart(cfg, threshold, b, own).1;
    NextChunksSame(b.running, cfg.budget - TokenCount(b.running));
    if TokenCount(b.running) <= cfg.budget && AllChunksOk(b.running) {
      NextChunksConserve(b.running, cfg.budget - TokenCount(b.running));
      MeanIs(reqs, threshold);
      assert size == Min(cfg.budget - TokenCount(d.running), MeanInput(reqs, threshold));
    }
  }

  /** The pages of the request are there on every manager it is to use. */
  ghost predicate PagesFor(cfg: Config, g: Group, q: Req) {
    cfg.blockSize > 0 && forall i | 0 <= i < |g.mgrs| && (cfg.fused || i == cfg.rank) ::
      BlocksNeeded(NumTokens(q), cfg.blockSize) <= |PoolFor(g.mgrs[i], cfg.fused, false)|
  }

  lemma TakenExactly(cfg: Config, g: Group, b: Batch, long: seq<Req>, size: int)
    requires Matches(cfg, g, b)
    ensures TakesLong(cfg, b, long, size) <==>
      long != [] && size > 0 && |b.running| < cfg.maxBatch && PagesFor(cfg, g, long[0])
  {
    if long != [] {
      BlocksFitExactly(cfg, g, Tagged(cfg, long[0]));
    }
  }

  /** What the long request is when it joins: its first chunk has `size` tokens. */
  function Started(cfg: Config, q: Req, size: int): Req {
    q.(fusion := cfg.fused, home := cfg.rank, chunk := size, end := Min(|q.prompt|, q.begin + size))
  }

  lemma JoinsStarted(cfg: Config, g: Group, b: Batch, long: seq<Req>, size: int)
    requires cfg.blockSize > 0 && TakesLong(cfg, b, long, size)
    requires AdmitLoop(cfg, WithLong(cfg, b, long, size)).Some?
    ensures var r := AdmitLoop(cfg, WithLong(cfg, b, long, size)).value;
      |b.running| < |r.running| && r.running[|b.running|] == Started(cfg, long[0], size)
  {
    AdmitLoopAppends(cfg, WithLong(cfg, b, long, size));
    var r := AdmitLoop(cfg, WithLong(cfg, b, long, size)).value;
    assert WithLong(cfg, b, long, size).running[|b.running|] == r.running[|b.running|];
  }

  /** What one call makes of batch `b`, which has come to `c` before anybody joins. */
  ghost predicate Packed(cfg: Config, threshold: real, g: Group, b: Batch, own: nat, long: seq<Req>, h: Group, c: Batch,
                         r: Batch, rest: seq<Req>, took: bool, size: int)
    requires own <= |b.queue|
  {
    && Moved(b, c) && c.queue == Candidates(b, long, took) && Grown(cfg, g, c, h, r)
    && (took <==> long != [] && size > 0 && |b.running| < cfg.maxBatch && PagesFor(cfg, g, long[0]))
    && rest == LongLeft(cfg, long, took)
    && (took ==> |c.running| < |r.running| && r.running[|c.running|] == Started(cfg, long[0], size))
    && (TokenCount(b.running) <= cfg.budget && AllChunksOk(b.running) ==>
          Starts(cfg, threshold, b, own, c.running, size))
  }

  /** A call of the packing variant is a run of admissions: the batch goes on; the long request joins exactly when
      the smaller of the free budget and the mean is not nothing, the batch is not full and its pages are there, and
      starts with just that many tokens; then the queue moves over in order. Everybody who joins holds exactly the
      pages needed, and everybody else keeps what he has. */
  lemma PackedInGroup(cfg: Config, threshold: real, g: Group, b: Batch, own: nat, long: seq<Req>)
    returns (h: Group, c: Batch, took: bool, size: int)
    requires Matches(cfg, g, b) && threshold >= 0.0 && own <= |b.queue|
    requires NewQueue(g, Candidates(b, long, true)) && SchedulePacked(cfg, threshold, b, own, long).Some?
    ensures var (r, rest) := SchedulePacked(cfg, threshold, b, own, long).value;
      Packed(cfg, threshold, g, b, own, long, h, c, r, rest, took, size)
  {
    var d;
    d, size := FirstMoves(cfg, threshold, b, own);
    took := TakesLong(cfg, d, long, size);
    c := d.(queue := Candidates(d, long, took));
    h := JoinedInGroup(cfg, g, d, long, size);
    TakenExactly(cfg, g, d, long, size);
    if took {
      JoinsStarted(cfg, g, d, long, size);
    }
  }
}

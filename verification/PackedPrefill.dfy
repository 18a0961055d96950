/** The packing variant: one long request per step, cut down to the size of a typical short one. */
module PackedPrefill {
  import opened Paging
  import opened Pools
  import opened Requests
  import opened Group
  import opened Prefill

  predicate Short(q: Req, threshold: real) {
    InputCount(q) as real <= threshold
  }

  function ShortTokens(reqs: seq<Req>, threshold: real): nat {
    if reqs == [] then 0
    else
      var last := reqs[|reqs| - 1];
      ShortTokens(reqs[..|reqs| - 1], threshold) + (if Short(last, threshold) then InputCount(last) else 0)
  }

  function ShortCount(reqs: seq<Req>, threshold: real): nat {
    if reqs == [] then 0
    else ShortCount(reqs[..|reqs| - 1], threshold) + (if Short(reqs[|reqs| - 1], threshold) then 1 else 0)
  }

  function Contexts(running: seq<Req>): seq<Req> {
    if running == [] then []
    else
      var last := running[|running| - 1];
      Contexts(running[..|running| - 1]) + (if InContext(last) then [last] else [])
  }

  /** The mean input of the short requests, or the threshold itself when there are none. */
  function MeanInput(reqs: seq<Req>, threshold: real): nat
    requires threshold >= 0.0
  {
    if ShortCount(reqs, threshold) > 0 then ShortTokens(reqs, threshold) / ShortCount(reqs, threshold)
    else threshold.Floor
  }

  /** The head of the long queue joins with a first chunk of `size` tokens. */
  function PushLong(cfg: Config, b: Batch, q: Req, size: nat): Batch
    requires cfg.blockSize > 0
  {
    var c := SetChunk(Tagged(cfg, q), size).0;
    b.(running := b.running + [c], mgrs := AllocateFor(b.mgrs, c, BlocksNeeded(NumTokens(c), cfg.blockSize)))
  }

  predicate TakesLong(cfg: Config, b: Batch, long: seq<Req>, size: int)
    requires cfg.blockSize > 0
  {
    long != [] && BlocksFit(cfg, b.mgrs, Tagged(cfg, long[0])) && |b.running| + 1 <= cfg.maxBatch && size > 0
  }

  /** The batch once the long request, if it is taken, has joined. */
  function WithLong(cfg: Config, b: Batch, long: seq<Req>, size: int): Batch
    requires cfg.blockSize > 0
  {
    if TakesLong(cfg, b, long, size) then PushLong(cfg, b, long[0], size) else b
  }

  /** The size of that chunk, and the batch before it joins. */
  function FirstPart(cfg: Config, threshold: real, b: Batch, own: nat): (Batch, int)
    requires threshold >= 0.0 && own <= |b.queue|
  {
    var mean := MeanInput(Contexts(b.running) + b.queue[..own], threshold);
    var p := NextChunks(b.running, cfg.budget - TokenCount(b.running));
    (b.(running := p.0), Min(p.1, mean))
  }

  /** The long queue afterwards: the check tags its head even when it does not take it. */
  function LongLeft(cfg: Config, long: seq<Req>, taken: bool): (r: seq<Req>)
    ensures taken && long != [] ==> r == long[1..]
    ensures !taken || long == [] ==> |r| == |long| && forall i | 0 <= i < |r| :: r[i].id == long[i].id
  {
    if long == [] then []
    else if taken then long[1..]
    else [Tagged(cfg, long[0])] + long[1..]
  }

  /** `schedule_packed_prefill`; the engine's own short requests are the first `own` of the queue. */
  function SchedulePacked(cfg: Config, threshold: real, b: Batch, own: nat, long: seq<Req>): Option<(Batch, seq<Req>)>
    requires cfg.blockSize > 0 && threshold >= 0.0 && own <= |b.queue|
  {
    var (c, size) := FirstPart(cfg, threshold, b, own);
    match AdmitLoop(cfg, WithLong(cfg, c, long, size))
    case None => None
    case Some(r) => Some((r, LongLeft(cfg, long, TakesLong(cfg, c, long, size))))
  }

  lemma OneMore(count: nat, top: nat)
    ensures (count + 1) * top == count * top + top
  {
  }

  lemma BelowFloor(count: nat, threshold: real, top: nat)
    requires top == threshold.Floor
    ensures count as real <= threshold ==> count <= top
  {
  }

  lemma {:induction false} ShortBound(reqs: seq<Req>, threshold: real, top: nat)
    requires top == threshold.Floor
    ensures ShortTokens(reqs, threshold) <= ShortCount(reqs, threshold) * top
  {
    if reqs != [] {
      var front, last := reqs[..|reqs| - 1], reqs[|reqs| - 1];
      ShortBound(front, threshold, top);
      OneMore(ShortCount(front, threshold), top);
      var count, short := InputCount(last), Short(last, threshold);
      BelowFloor(count, threshold, top);
      assert ShortCount(reqs, threshold) == ShortCount(front, threshold) + if short then 1 else 0;
      assert ShortTokens(reqs, threshold) == ShortTokens(front, threshold) + if short then count else 0;
    }
  }

  lemma QuotientBound(total: nat, n: nat, top: nat)
    requires n > 0 && total <= n * top
    ensures total / n <= top
  {
    MulMonotone(top + 1, total / n, n);
    assert (top + 1) * n == n * top + n;
  }

  /** The chunk given to a long request is never above the threshold that makes a request long. */
  lemma MeanWithinThreshold(reqs: seq<Req>, threshold: real)
    requires threshold >= 0.0
    ensures MeanInput(reqs, threshold) as real <= threshold
  {
    ShortBound(reqs, threshold, threshold.Floor);
    if ShortCount(reqs, threshold) > 0 {
      QuotientBound(ShortTokens(reqs, threshold), ShortCount(reqs, threshold), threshold.Floor);
    }
  }

  lemma {:induction false} AdmitLoopAppends(cfg: Config, b: Batch)
    requires cfg.blockSize > 0 && AdmitLoop(cfg, b).Some?
    ensures b.running <= AdmitLoop(cfg, b).value.running
    decreases |b.queue|
  {
    if b.queue != [] && Consider(cfg, b).Join? && Consider(cfg, b).more {
      AdmitLoopAppends(cfg, Push(cfg, b, Consider(cfg, b).q));
    }
  }

  /** A long request joins partial, with exactly the chunk computed for it. */
  lemma PushLongOk(cfg: Config, b: Batch, q: Req, size: nat, threshold: real)
    requires cfg.blockSize > 0 && TokenCount(b.running) + size <= cfg.budget && AllChunksOk(b.running)
    requires Fresh(q) && 0 < size && size as real <= threshold < |q.prompt| as real
    ensures var c := PushLong(cfg, b, q, size);
      && TokenCount(c.running) == TokenCount(b.running) + size && AllChunksOk(c.running)
      && |c.running| == |b.running| + 1
      && var n := c.running[|b.running|]; n.id == q.id && n.begin == 0 && n.end == size && HaveFollowUp(n)
  {
    var c := SetChunk(Tagged(cfg, q), size).0;
    InputOf(c);
    PushCounts(b.running, c);
  }

  ghost predicate LongJoined(running: seq<Req>, at: nat, q: Req, size: int) {
    && at < |running|
    && var n := running[at]; n.id == q.id && n.begin == 0 && n.end == size && HaveFollowUp(n)
  }

  lemma WithLongOk(cfg: Config, b: Batch, long: seq<Req>, size: int, threshold: real)
    requires cfg.blockSize > 0 && TokenCount(b.running) <= cfg.budget && TokenCount(b.running) + size <= cfg.budget
    requires AllChunksOk(b.running) && AllFresh(long)
    requires size as real <= threshold && forall i | 0 <= i < |long| :: threshold < |long[i].prompt| as real
    ensures var c := WithLong(cfg, b, long, size);
      && c.queue == b.queue && TokenCount(c.running) <= cfg.budget && AllChunksOk(c.running)
      && (TakesLong(cfg, b, long, size) ==> LongJoined(c.running, |b.running|, long[0], size))
  {
    if TakesLong(cfg, b, long, size) {
      PushLongOk(cfg, b, long[0], size, threshold);
    }
  }

  lemma FirstPartOk(cfg: Config, threshold: real, b: Batch, own: nat)
    requires TokenCount(b.running) <= cfg.budget && threshold >= 0.0 && own <= |b.queue| && AllChunksOk(b.running)
    ensures var (c, size) := FirstPart(cfg, threshold, b, own);
      && size as real <= threshold
      && TokenCount(c.running) <= cfg.budget && TokenCount(c.running) + size <= cfg.budget
      && |c.running| == |b.running| && c.queue == b.queue && AllChunksOk(c.running)
  {
    var mean := MeanInput(Contexts(b.running) + b.queue[..own], threshold);
    MeanWithinThreshold(Contexts(b.running) + b.queue[..own], threshold);
    var p := NextChunks(b.running, cfg.budget - TokenCount(b.running));
    NextChunksConserve(b.running, cfg.budget - TokenCount(b.running));
    var (c, size) := FirstPart(cfg, threshold, b, own);
    assert size == Min(p.1, mean) && c.running == p.0;
    LessIsLess(size, mean, threshold);
  }

  lemma LessIsLess(a: int, b: nat, threshold: real)
    requires a <= b && b as real <= threshold
    ensures a as real <= threshold
  {
  }

  /** The budget is kept and no chunk is empty; a long request that joins gets a first chunk of
      `min(free, mean)` tokens, which neither exceeds the threshold nor covers its prompt, and it is left
      out only if nothing is free, the batch is full or its pages do not fit. */
  lemma SchedulePackedSafe(cfg: Config, threshold: real, b: Batch, own: nat, long: seq<Req>)
    requires cfg.blockSize > 0 && TokenCount(b.running) <= cfg.budget && threshold >= 0.0 && own <= |b.queue|
    requires AllChunksOk(b.running) && AllFresh(b.queue) && AllFresh(long)
    requires forall i | 0 <= i < |long| :: threshold < |long[i].prompt| as real
    ensures SchedulePacked(cfg, threshold, b, own, long).Some?
    ensures var (r, rest) := SchedulePacked(cfg, threshold, b, own, long).value;
      && TokenCount(r.running) <= cfg.budget && AllChunksOk(r.running) && AllFresh(r.queue) && Stopped(cfg, r)
      && var (c, size) := FirstPart(cfg, threshold, b, own);
         && size as real <= threshold
         && if TakesLong(cfg, c, long, size)
            then rest == long[1..] && LongJoined(r.running, |b.running|, long[0], size)
            else rest == LongLeft(cfg, long, false)
  {
    var (c, size) := FirstPart(cfg, threshold, b, own);
    FirstPartOk(cfg, threshold, b, own);
    WithLongOk(cfg, c, long, size, threshold);
    AdmitLoopSafe(cfg, WithLong(cfg, c, long, size));
    AdmitLoopAppends(cfg, WithLong(cfg, c, long, size));
  }

  /** Packing fails its assertion exactly when the batch, moved on and the long request in it, is over its
      budget and the head of the queue would otherwise fit. */
  lemma PackedFailsExactly(cfg: Config, threshold: real, b: Batch, own: nat, long: seq<Req>)
    requires cfg.blockSize > 0 && threshold >= 0.0 && own <= |b.queue|
    ensures var (c, size) := FirstPart(cfg, threshold, b, own);
      var d := WithLong(cfg, c, long, size);
      SchedulePacked(cfg, threshold, b, own, long).None? <==> TokenCount(d.running) > cfg.budget && HeadFits(cfg, d)
  {
    var (c, size) := FirstPart(cfg, threshold, b, own);
    AdmitFailsExactly(cfg, WithLong(cfg, c, long, size));
  }
}

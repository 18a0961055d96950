/** Chunked prefill: composing the next batch of one virtual engine within its token budget. */
module Prefill {
  import opened Paging
  import opened Pools
  import opened Group
  import opened Requests

  /** Chunked prefill is on and the zigzag variant off. */
  datatype Config = Config(budget: nat, maxBatch: nat, blockSize: nat, fused: bool, rank: nat)

  /** The running requests, the queue (the engine's own requests before the global ones) and the managers. */
  datatype Batch = Batch(running: seq<Req>, queue: seq<Req>, mgrs: seq<State>)

  function InputCount(q: Req): nat {
    if InContext(q) then Max(Bound(|q.prompt|, q.end) - Bound(|q.prompt|, q.begin), 0) else 1
  }

  /** `get_num_input_tokens` counts the tokens of the next step. */
  lemma InputCountIsLength(q: Req)
    ensures InputCount(q) == |InputTokens(q)|
  {
  }

  function TokenCount(running: seq<Req>): nat {
    if running == [] then 0 else TokenCount(running[..|running| - 1]) + InputCount(running[|running| - 1])
  }

  /** Every request with prompt left moves on to its next chunk; what one leaves unused the next may use.
      A batch over its budget starts with less than nothing. */
  function NextChunks(running: seq<Req>, free: int): (p: (seq<Req>, int))
    ensures |p.0| == |running|
  {
    if running == [] then ([], free)
    else
      var last := running[|running| - 1];
      var p := NextChunks(running[..|running| - 1], free);
      if HaveFollowUp(last) then
        var (q, left) := AllocateNextChunk(last, p.1);
        (p.0 + [q], left)
      else (p.0 + [last], p.1)
  }

  /** The check overwrites where the request is to run, admitted or not. */
  function Tagged(cfg: Config, q: Req): Req {
    q.(fusion := cfg.fused, home := cfg.rank)
  }

  /** Where the pages of a request are, for the group of managers. */
  function FlagsOf(q: Req): Flags {
    Flags(q.fusion, q.home, true)
  }

  predicate BlocksFit(cfg: Config, mgrs: seq<State>, q: Req)
    requires cfg.blockSize > 0
  {
    var need := BlocksNeeded(NumTokens(q), cfg.blockSize);
    if cfg.fused then forall i | 0 <= i < |mgrs| :: need <= FreeCount(mgrs[i])
    else cfg.rank < |mgrs| && need <= FreeCount(mgrs[cfg.rank])
  }

  /** `_allocate_blocks` right after the check. */
  function AllocateFor(mgrs: seq<State>, q: Req, need: nat): (r: seq<State>)
    ensures |r| == |mgrs|
  {
    seq(|mgrs|, i requires 0 <= i < |mgrs| => AllocateOn(mgrs[i], q.id, FlagsOf(q), i, need))
  }

  /** The head of the queue joins the batch as `q`. */
  function Push(cfg: Config, b: Batch, q: Req): Batch
    requires cfg.blockSize > 0 && b.queue != []
  {
    Batch(b.running + [q], b.queue[1..], AllocateFor(b.mgrs, q, BlocksNeeded(NumTokens(q), cfg.blockSize)))
  }

  /** What admission does with the head of the queue: leave it, fail an assertion, or let it join, going on or not. */
  datatype Verdict = Wait | Fail | Join(q: Req, more: bool)

  function Consider(cfg: Config, b: Batch): Verdict
    requires cfg.blockSize > 0 && b.queue != []
  {
    var q := Tagged(cfg, b.queue[0]);
    var count := TokenCount(b.running);
    if !BlocksFit(cfg, b.mgrs, q) || |b.running| + 1 > cfg.maxBatch then Wait
    else if count + InputCount(q) <= cfg.budget then Join(q, true)
    else if count == cfg.budget then Wait
    else if count > cfg.budget then Fail
    else
      var c := SetChunk(q, cfg.budget - count).0;
      Join(c, !HaveFollowUp(c))
  }

  function AdmitLoop(cfg: Config, b: Batch): Option<Batch>
    requires cfg.blockSize > 0
    decreases |b.queue|
  {
    if b.queue == [] then Some(b)
    else match Consider(cfg, b)
         case Wait => Some(b.(queue := [Tagged(cfg, b.queue[0])] + b.queue[1..]))
         case Fail => None
         case Join(q, more) => if more then AdmitLoop(cfg, Push(cfg, b, q)) else Some(Push(cfg, b, q))
  }

  /** `schedule_prefill`. */
  function SchedulePrefill(cfg: Config, b: Batch): Option<Batch>
    requires cfg.blockSize > 0
  {
    AdmitLoop(cfg, b.(running := NextChunks(b.running, cfg.budget - TokenCount(b.running)).0))
  }

  // ---------- invariants ----------

  predicate ChunkOk(q: Req) {
    InContext(q) ==>
      && 0 <= q.begin < q.end <= |q.prompt|
      && (HaveFollowUp(q) ==> q.end - q.begin == q.chunk)
  }

  ghost predicate AllChunksOk(running: seq<Req>) {
    forall i | 0 <= i < |running| :: ChunkOk(running[i])
  }

  /** A request waiting for admission has its whole prompt ahead of it. */
  predicate Fresh(q: Req) {
    InContext(q) && q.begin == 0 && q.end == |q.prompt| > 0
  }

  ghost predicate AllFresh(queue: seq<Req>) {
    forall i | 0 <= i < |queue| :: Fresh(queue[i])
  }

  /** How many running requests have prompt left. */
  function Partials(running: seq<Req>): nat {
    if running == [] then 0
    else Partials(running[..|running| - 1]) + (if HaveFollowUp(running[|running| - 1]) then 1 else 0)
  }

  lemma InputOf(q: Req)
    ensures ChunkOk(q) && InContext(q) ==> InputCount(q) == q.end - q.begin
    ensures !InContext(q) ==> InputCount(q) == 1
  {
  }

  lemma PushCounts(running: seq<Req>, q: Req)
    ensures TokenCount(running + [q]) == TokenCount(running) + InputCount(q)
    ensures Partials(running + [q]) == Partials(running) + (if HaveFollowUp(q) then 1 else 0)
    ensures AllChunksOk(running) && ChunkOk(q) ==> AllChunksOk(running + [q])
  {
    assert (running + [q])[..|running|] == running;
  }

  // ---------- the next chunks ----------

  /** One chunk: tokens in the batch and tokens left always add up to what there was. */
  lemma NextChunkConserves(q: Req, free: nat)
    requires ChunkOk(q) && HaveFollowUp(q)
    ensures var (n, left) := AllocateNextChunk(q, free);
      && ChunkOk(n) && InContext(n) && left >= 0
      && InputCount(n) + left == InputCount(q) + free && (HaveFollowUp(n) ==> left == 0)
  {
    var (n, left) := AllocateNextChunk(q, free);
    InputOf(q);
    InputOf(n);
  }

  /** After every chunk the free budget is what the batch leaves of it; a request left partial used all. */
  lemma {:induction false} NextChunksConserve(running: seq<Req>, free: nat)
    requires AllChunksOk(running)
    ensures var p := NextChunks(running, free);
      && AllChunksOk(p.0) && p.1 >= 0
      && TokenCount(p.0) + p.1 == TokenCount(running) + free
      && Partials(p.0) <= Partials(running)
      && (Partials(running) == 1 && Partials(p.0) == 1 ==> p.1 == 0)
      && (Partials(running) == 0 ==> p.0 == running && p.1 == free)
  {
    if running != [] {
      var i := |running| - 1;
      var front, last := running[..i], running[i];
      NextChunksConserve(front, free);
      var p := NextChunks(front, free);
      PushCounts(front, last);
      assert front + [last] == running;
      if HaveFollowUp(last) {
        NextChunkConserves(last, p.1);
        PushCounts(p.0, AllocateNextChunk(last, p.1).0);
      } else {
        PushCounts(p.0, last);
      }
    }
  }

  /** Every request with prompt left starts where its last chunk ended, whatever budget is left; the others stay as
      they are. */
  lemma {:induction false} NextChunksMove(running: seq<Req>, free: int)
    ensures var r := NextChunks(running, free).0;
      forall i | 0 <= i < |running| ::
        && (!HaveFollowUp(running[i]) ==> r[i] == running[i])
        && (HaveFollowUp(running[i]) ==>
              && r[i] == running[i].(chunk := r[i].chunk, begin := running[i].end, end := r[i].end)
              && r[i].end == Min(running[i].end + r[i].chunk, |running[i].prompt|))
  {
    if running != [] {
      NextChunksMove(running[..|running| - 1], free);
    }
  }

  lemma NextChunksStep(all: seq<Req>, j: nat, free: int)
    requires j < |all|
    ensures var (p, left) := NextChunks(all[..j], free);
      NextChunks(all[..j + 1], free) ==
        if HaveFollowUp(all[j]) then
          (p + [AllocateNextChunk(all[j], left).0], AllocateNextChunk(all[j], left).1)
        else (p + [all[j]], left)
  {
    assert all[..j + 1][..j] == all[..j];
  }

  // ---------- admission ----------

  lemma Considered(cfg: Config, b: Batch)
    requires cfg.blockSize > 0 && b.queue != [] && Fresh(b.queue[0]) && TokenCount(b.running) <= cfg.budget
    ensures match Consider(cfg, b)
            case Wait =>
              || TokenCount(b.running) == cfg.budget || |b.running| >= cfg.maxBatch
              || !BlocksFit(cfg, b.mgrs, Tagged(cfg, b.queue[0]))
            case Fail => false
            case Join(q, more) =>
              && ChunkOk(q) && BlocksFit(cfg, b.mgrs, Tagged(cfg, b.queue[0]))
              && TokenCount(b.running) + InputCount(q) <= cfg.budget && |b.running| < cfg.maxBatch
              && (more <==> !HaveFollowUp(q))
              && (HaveFollowUp(q) ==> TokenCount(b.running) + InputCount(q) == cfg.budget)
  {
    InputOf(Tagged(cfg, b.queue[0]));
    match Consider(cfg, b)
    case Wait =>
    case Fail =>
    case Join(q, more) => InputOf(q);
  }

  /** At most one running request has prompt left, and if one has, the batch fills the budget. */
  ghost predicate FullIfPartial(cfg: Config, running: seq<Req>) {
    Partials(running) <= 1 && (Partials(running) == 1 ==> TokenCount(running) == cfg.budget)
  }

  /** Why admission stopped. */
  ghost predicate Stopped(cfg: Config, b: Batch)
    requires cfg.blockSize > 0
  {
    || b.queue == []
    || TokenCount(b.running) == cfg.budget
    || |b.running| >= cfg.maxBatch
    || !BlocksFit(cfg, b.mgrs, b.queue[0])
  }

  /** The budget is kept, `set_chunk` is never asked for nothing, nobody is left waiting without a reason,
      and at most one request is left partial, filling the budget. */
  lemma {:induction false} AdmitLoopSafe(cfg: Config, b: Batch)
    requires cfg.blockSize > 0 && TokenCount(b.running) <= cfg.budget && AllChunksOk(b.running) && AllFresh(b.queue)
    ensures AdmitLoop(cfg, b).Some?
    ensures var r := AdmitLoop(cfg, b).value;
      && TokenCount(r.running) <= cfg.budget && AllChunksOk(r.running) && AllFresh(r.queue)
      && Stopped(cfg, r)
      && (FullIfPartial(cfg, b.running) ==> FullIfPartial(cfg, r.running))
    decreases |b.queue|
  {
    if b.queue != [] {
      Considered(cfg, b);
      match Consider(cfg, b)
      case Wait =>
      case Fail =>
      case Join(q, more) =>
        PushCounts(b.running, q);
        if more {
          AdmitLoopSafe(cfg, Push(cfg, b, q));
        }
    }
  }

  /** One call of `schedule_prefill` with a batch within budget. */
  lemma SchedulePrefillSafe(cfg: Config, b: Batch)
    requires cfg.blockSize > 0 && TokenCount(b.running) <= cfg.budget && AllChunksOk(b.running) && AllFresh(b.queue)
    ensures SchedulePrefill(cfg, b).Some?
    ensures var r := SchedulePrefill(cfg, b).value;
      && TokenCount(r.running) <= cfg.budget && AllChunksOk(r.running) && AllFresh(r.queue)
      && Stopped(cfg, r)
      && (Partials(b.running) <= 1 ==> FullIfPartial(cfg, r.running))
  {
    var c := ChunkedWithin(cfg, b);
    AdmitLoopSafe(cfg, c);
  }

  lemma ChunkedWithin(cfg: Config, b: Batch) returns (c: Batch)
    requires cfg.blockSize > 0 && TokenCount(b.running) <= cfg.budget && AllChunksOk(b.running)
    ensures SchedulePrefill(cfg, b) == AdmitLoop(cfg, c) && c.queue == b.queue && c.mgrs == b.mgrs
    ensures c.running == NextChunks(b.running, cfg.budget - TokenCount(b.running)).0
    ensures TokenCount(c.running) <= cfg.budget && AllChunksOk(c.running)
    ensures Partials(b.running) <= 1 ==> FullIfPartial(cfg, c.running)
  {
    c := b.(running := NextChunks(b.running, cfg.budget - TokenCount(b.running)).0);
    NextChunksConserve(b.running, cfg.budget - TokenCount(b.running));
  }

  // ---------- a batch over its budget ----------

  /** Some request at the head of the queue could join but for the tokens. */
  predicate HeadFits(cfg: Config, b: Batch)
    requires cfg.blockSize > 0
  {
    b.queue != [] && |b.running| < cfg.maxBatch && BlocksFit(cfg, b.mgrs, Tagged(cfg, b.queue[0]))
  }

  lemma {:induction false} WithinBudgetAdmits(cfg: Config, b: Batch)
    requires cfg.blockSize > 0 && TokenCount(b.running) <= cfg.budget
    ensures AdmitLoop(cfg, b).Some?
    decreases |b.queue|
  {
    if b.queue != [] && Consider(cfg, b).Join? && Consider(cfg, b).more {
      PushCounts(b.running, Consider(cfg, b).q);
      WithinBudgetAdmits(cfg, Push(cfg, b, Consider(cfg, b).q));
    }
  }

  /** Admission asks `set_chunk` for a negative size, and fails its assertion, exactly then. */
  lemma AdmitFailsExactly(cfg: Config, b: Batch)
    requires cfg.blockSize > 0
    ensures AdmitLoop(cfg, b).None? <==> TokenCount(b.running) > cfg.budget && HeadFits(cfg, b)
  {
    if TokenCount(b.running) <= cfg.budget {
      WithinBudgetAdmits(cfg, b);
    }
  }

  /** The chunk of the first request with prompt left. */
  function FirstChunk(running: seq<Req>): int {
    if running == [] then 0
    else
      var front, last := running[..|running| - 1], running[|running| - 1];
      if Partials(front) > 0 then FirstChunk(front) else if HaveFollowUp(last) then last.chunk else 0
  }

  /** What that request runs next when it is given `free` tokens: a chunk that ends in front of the prompt counts
      from the prompt's end. */
  function FirstInput(running: seq<Req>, free: int): nat {
    if running == [] then 0
    else
      var front, last := running[..|running| - 1], running[|running| - 1];
      if Partials(front) > 0 then FirstInput(front, free)
      else if HaveFollowUp(last) then InputCount(AllocateNextChunk(last, free).0) else 0
  }

  /** What the requests with prompt left behind the first leave of their chunks. */
  function Spare(running: seq<Req>): int {
    if running == [] then 0
    else
      var front, last := running[..|running| - 1], running[|running| - 1];
      if Partials(front) == 0 then 0
      else if HaveFollowUp(last) then AllocateNextChunk(last, Spare(front)).1 else Spare(front)
  }

  lemma {:induction false} NoPartial(running: seq<Req>, free: int)
    requires Partials(running) == 0
    ensures NextChunks(running, free) == (running, free)
    ensures FirstChunk(running) == 0 && FirstInput(running, free) == 0 && Spare(running) == 0
  {
    if running != [] {
      NoPartial(running[..|running| - 1], free);
      assert running[..|running| - 1] + [running[|running| - 1]] == running;
    }
  }

  /** The first request with prompt left makes up for what the batch has too much, if its chunk suffices. */
  lemma {:induction false} FirstGivesWay(running: seq<Req>, free: int)
    requires AllChunksOk(running) && Partials(running) > 0 && FirstChunk(running) + free >= 0
    ensures var p := NextChunks(running, free); p.1 >= 0 && TokenCount(p.0) + p.1 == TokenCount(running) + free
  {
    var i := |running| - 1;
    var front, last := running[..i], running[i];
    assert running == front + [last];
    PushCounts(front, last);
    if Partials(front) == 0 {
      NoPartial(front, free);
      PushCounts(front, AllocateNextChunk(last, free).0);
      InputOf(last);
    } else {
      FirstGivesWay(front, free);
      var p := NextChunks(front, free);
      if HaveFollowUp(last) {
        NextChunkConserves(last, p.1);
        PushCounts(p.0, AllocateNextChunk(last, p.1).0);
      } else {
        PushCounts(p.0, last);
      }
    }
  }

  /** If it does not suffice, that request gives up all of it, and the others hand on nothing but their own. */
  lemma {:induction false} FirstGivesUp(running: seq<Req>, free: int)
    requires AllChunksOk(running) && Partials(running) > 0 && FirstChunk(running) + free < 0
    ensures var p := NextChunks(running, free);
      && p.1 == Spare(running) >= 0
      && TokenCount(p.0) + p.1 == TokenCount(running) - FirstChunk(running) + FirstInput(running, free)
    ensures Partials(running) == 1 ==> Spare(running) == 0
  {
    var i := |running| - 1;
    var front, last := running[..i], running[i];
    assert running == front + [last];
    PushCounts(front, last);
    if Partials(front) == 0 {
      NoPartial(front, free);
      PushCounts(front, AllocateNextChunk(last, free).0);
      InputOf(last);
    } else {
      FirstGivesUp(front, free);
      var p := NextChunks(front, free);
      if HaveFollowUp(last) {
        NextChunkConserves(last, p.1);
        PushCounts(p.0, AllocateNextChunk(last, p.1).0);
      } else {
        PushCounts(p.0, last);
      }
    }
  }

  lemma {:induction false} FirstPositive(running: seq<Req>)
    requires AllChunksOk(running)
    ensures FirstChunk(running) >= 0
  {
    if running != [] {
      FirstPositive(running[..|running| - 1]);
      assert ChunkOk(running[|running| - 1]);
    }
  }

  /** The tokens left over the budget once the first request with prompt left has given up its whole chunk. */
  function Excess(cfg: Config, running: seq<Req>): int {
    TokenCount(running) - FirstChunk(running) + FirstInput(running, cfg.budget - TokenCount(running)) - Spare(running)
    - cfg.budget
  }

  /**
    A call fails its assertion exactly when the batch has more tokens over the budget than the chunk of its
    first request with prompt left, giving it up and what the later ones leave is not enough either, and
    the head of the queue would otherwise fit. With one such request at most, the first part decides.
   */
  lemma ScheduleFailsExactly(cfg: Config, b: Batch)
    requires cfg.blockSize > 0 && AllChunksOk(b.running)
    ensures SchedulePrefill(cfg, b).None? <==>
      && TokenCount(b.running) > cfg.budget + FirstChunk(b.running) && Excess(cfg, b.running) > 0
      && HeadFits(cfg, b)
    ensures Partials(b.running) <= 1 && TokenCount(b.running) > cfg.budget + FirstChunk(b.running) ==>
      Excess(cfg, b.running) > 0
  {
    var free := cfg.budget - TokenCount(b.running);
    AdmitFailsExactly(cfg, b.(running := NextChunks(b.running, free).0));
    if Partials(b.running) == 0 {
      NoPartial(b.running, free);
    } else if FirstChunk(b.running) + free < 0 {
      FirstGivesUp(b.running, free);
    } else {
      FirstGivesWay(b.running, free);
      FirstPositive(b.running);
    }
  }

  /** Three requests that generate tokens, moved together on an engine with a budget of two, and one that
      arrives: the next call fails. */
  lemma MovedTogetherFails(q: Req, t: Token, head: Req)
    requires q.generated == [t] && head.generated == [] && |head.prompt| == 1
    ensures SchedulePrefill(Config(2, 8, 1, false, 0), Batch([q, q, q], [head], [Initial(1)])).None?
  {
    var cfg, b := Config(2, 8, 1, false, 0), Batch([q, q, q], [head], [Initial(1)]);
    var two, one := [q, q], [q];
    assert b.running[..2] == two && two[..1] == one && one[..0] == [];
    assert InputCount(q) == 1;
    assert TokenCount(one) == 1 && Partials(one) == 0 && FirstChunk(one) == 0;
    assert TokenCount(two) == 2 && Partials(two) == 0 && FirstChunk(two) == 0;
    assert TokenCount(b.running) == 3 && Partials(b.running) == 0 && FirstChunk(b.running) == 0;
    assert Initial(1).free == [0];
    ScheduleFailsExactly(cfg, b);
  }
}

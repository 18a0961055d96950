/** Whole runs of one virtual engine, and admission seen from the group of managers. */
module PrefillRuns {
  import opened Paging
  import opened Counting
  import opened Pools
  import opened Requests
  import opened Group
  import opened GroupSafety
  import opened Runs
  import opened Prefill

  datatype Act =
    | Executed(i: nat, t: Token)
    | Dropped(i: nat)
    | Preempted(i: nat)
    | Arrived(at: nat, q: Req)
    | Returned(q: Req)
    | Scheduled(mgrs: seq<State>)

  predicate CanAct(cfg: Config, b: Batch, a: Act) {
    match a
    case Executed(i, _) => i < |b.running|
    case Dropped(i) => i < |b.running|
    case Preempted(i) => i < |b.running| && !InContext(b.running[i])
    case Arrived(at, q) => at <= |b.queue| && Fresh(q)
    case Returned(q) => ChunkOk(q) && TokenCount(b.running) + InputCount(q) <= cfg.budget
    case Scheduled(_) => true
  }

  /** Requests execute, leave, are preempted to the front of the queue, arrive, come back from the waiting queue if
      their tokens fit; batches are scheduled on whatever the managers have become. `None` stands for the
      failed assertion. */
  function Next(cfg: Config, b: Batch, a: Act): Option<Batch>
    requires cfg.blockSize > 0 && CanAct(cfg, b, a)
  {
    match a
    case Executed(i, t) => Some(b.(running := b.running[i := FinishIteration(b.running[i], t)]))
    case Dropped(i) => Some(b.(running := Without(b.running, i)))
    case Preempted(i) =>
      Some(b.(running := Without(b.running, i), queue := [PrepareForRecompute(b.running[i])] + b.queue))
    case Returned(q) => Some(b.(running := b.running + [q]))
    case Arrived(at, q) => Some(b.(queue := b.queue[..at] + [q] + b.queue[at..]))
    case Scheduled(mgrs) => SchedulePrefill(cfg, b.(mgrs := mgrs))
  }

  ghost predicate IsHistory(cfg: Config, b: Batch, acts: seq<Act>)
    requires cfg.blockSize > 0
    decreases |acts|
  {
    acts == [] ||
    (&& CanAct(cfg, b, acts[0])
     && (Next(cfg, b, acts[0]).Some? ==> IsHistory(cfg, Next(cfg, b, acts[0]).value, acts[1..])))
  }

  function After(cfg: Config, b: Batch, acts: seq<Act>): Option<Batch>
    requires cfg.blockSize > 0 && IsHistory(cfg, b, acts)
    decreases |acts|
  {
    if acts == [] then Some(b)
    else match Next(cfg, b, acts[0])
         case None => None
         case Some(c) => After(cfg, c, acts[1..])
  }

  ghost predicate EngineOk(cfg: Config, b: Batch) {
    TokenCount(b.running) <= cfg.budget && AllChunksOk(b.running) && AllFresh(b.queue)
  }

  lemma {:induction false} CountsConcat(a: seq<Req>, b: seq<Req>)
    ensures TokenCount(a + b) == TokenCount(a) + TokenCount(b)
    ensures Partials(a + b) == Partials(a) + Partials(b)
  {
    if b == [] {
      assert a + b == a;
    } else {
      CountsConcat(a, b[..|b| - 1]);
      assert (a + b)[..|a + b| - 1] == a + b[..|b| - 1];
    }
  }

  lemma CountsAt(p: seq<Req>, i: nat)
    requires i < |p|
    ensures TokenCount(p) == TokenCount(Without(p, i)) + InputCount(p[i])
    ensures Partials(p) == Partials(Without(p, i)) + (if HaveFollowUp(p[i]) then 1 else 0)
  {
    var front, back := p[..i + 1], p[i + 1..];
    assert p == front + back && front[..i] == p[..i];
    CountsConcat(front, back);
    CountsConcat(p[..i], back);
  }

  /** Executing a chunk never adds to the tokens of the batch. */
  lemma ExecuteKeeps(cfg: Config, b: Batch, i: nat, t: Token)
    requires EngineOk(cfg, b) && i < |b.running|
    ensures var c := b.(running := b.running[i := FinishIteration(b.running[i], t)]);
      EngineOk(cfg, c) && Partials(c.running) <= Partials(b.running)
  {
    var q := FinishIteration(b.running[i], t);
    var p := b.running[i := q];
    CountsAt(b.running, i);
    CountsAt(p, i);
    assert Without(p, i) == Without(b.running, i);
    assert ChunkOk(b.running[i]);
    InputOf(b.running[i]);
    InputOf(q);
  }

  lemma LeaveKeeps(cfg: Config, b: Batch, i: nat)
    requires EngineOk(cfg, b) && i < |b.running|
    ensures EngineOk(cfg, b.(running := Without(b.running, i)))
    ensures Partials(Without(b.running, i)) <= Partials(b.running)
  {
    CountsAt(b.running, i);
  }

  /** A request with prompt left comes back while another has prompt left. */
  predicate Crowds(b: Batch, a: Act) {
    a.Returned? && HaveFollowUp(a.q) && Partials(b.running) >= 1
  }

  lemma NextKeeps(cfg: Config, b: Batch, a: Act)
    requires cfg.blockSize > 0 && EngineOk(cfg, b) && CanAct(cfg, b, a)
    ensures Next(cfg, b, a).Some? && EngineOk(cfg, Next(cfg, b, a).value)
    ensures Partials(b.running) <= 1 ==> (Partials(Next(cfg, b, a).value.running) <= 1 <==> !Crowds(b, a))
  {
    match a
    case Executed(i, t) =>
      ExecuteKeeps(cfg, b, i, t);
    case Dropped(i) =>
      LeaveKeeps(cfg, b, i);
    case Preempted(i) =>
      LeaveKeeps(cfg, b, i);
    case Arrived(at, q) =>
    case Returned(q) =>
      PushCounts(b.running, q);
    case Scheduled(mgrs) =>
      SchedulePrefillSafe(cfg, b.(mgrs := mgrs));
  }

  lemma {:induction false} HistoryKeeps(cfg: Config, b: Batch, acts: seq<Act>)
    requires cfg.blockSize > 0 && EngineOk(cfg, b) && IsHistory(cfg, b, acts)
    ensures After(cfg, b, acts).Some? && EngineOk(cfg, After(cfg, b, acts).value)
    decreases |acts|
  {
    if acts != [] {
      NextKeeps(cfg, b, acts[0]);
      HistoryKeeps(cfg, Next(cfg, b, acts[0]).value, acts[1..]);
    }
  }

  /** Nobody with prompt left ever comes back to a batch that has a partial request. */
  ghost predicate Uncrowded(cfg: Config, b: Batch, acts: seq<Act>)
    requires cfg.blockSize > 0 && IsHistory(cfg, b, acts)
    decreases |acts|
  {
    acts == [] ||
    (!Crowds(b, acts[0]) && (Next(cfg, b, acts[0]).Some? ==> Uncrowded(cfg, Next(cfg, b, acts[0]).value, acts[1..])))
  }

  /** All along there is one partial request at most. */
  ghost predicate Single(cfg: Config, b: Batch, acts: seq<Act>)
    requires cfg.blockSize > 0 && IsHistory(cfg, b, acts)
    decreases |acts|
  {
    && Partials(b.running) <= 1
    && (acts != [] && Next(cfg, b, acts[0]).Some? ==> Single(cfg, Next(cfg, b, acts[0]).value, acts[1..]))
  }

  lemma {:induction false} SingleExactly(cfg: Config, b: Batch, acts: seq<Act>)
    requires cfg.blockSize > 0 && EngineOk(cfg, b) && Partials(b.running) <= 1 && IsHistory(cfg, b, acts)
    ensures Single(cfg, b, acts) <==> Uncrowded(cfg, b, acts)
    ensures Single(cfg, b, acts) ==> After(cfg, b, acts).Some? && Partials(After(cfg, b, acts).value.running) <= 1
    decreases |acts|
  {
    if acts != [] {
      NextKeeps(cfg, b, acts[0]);
      var c := Next(cfg, b, acts[0]).value;
      if Partials(c.running) <= 1 {
        SingleExactly(cfg, c, acts[1..]);
      }
    }
  }

  /** Over every history of an engine that starts empty no assertion fails and the budget is never exceeded, and
      admission stopped only for a reason. At most one running request is partial all along if and only if none
      came back beside another, and then the batch fills the budget right after scheduling. */
  lemma AtMostOnePartial(cfg: Config, mgrs: seq<State>, acts: seq<Act>, m: seq<State>)
    requires cfg.blockSize > 0 && IsHistory(cfg, Batch([], [], mgrs), acts)
    ensures var b := Batch([], [], mgrs);
      var e := After(cfg, b, acts);
      && e.Some? && TokenCount(e.value.running) <= cfg.budget
      && (Single(cfg, b, acts) <==> Uncrowded(cfg, b, acts))
      && var r := SchedulePrefill(cfg, e.value.(mgrs := m));
         r.Some? && TokenCount(r.value.running) <= cfg.budget && Stopped(cfg, r.value)
         && (Single(cfg, b, acts) ==> FullIfPartial(cfg, r.value.running))
  {
    var b := Batch([], [], mgrs);
    HistoryKeeps(cfg, b, acts);
    SingleExactly(cfg, b, acts);
    SchedulePrefillSafe(cfg, After(cfg, b, acts).value.(mgrs := m));
  }

  /** Two requests of three prompt tokens, in chunks of one: when one comes back beside the other, both are partial. */
  lemma SecondPartial(cfg: Config, p: Req, q: Req, mgrs: seq<State>)
    requires cfg.blockSize > 0 && cfg.budget == 2 && p == q.(id := p.id) && p.id != q.id
    requires q.generated == [] && |q.prompt| == 3 && q.begin == 0 && q.end == q.chunk == 1
    ensures var b := Batch([p], [], mgrs);
      && EngineOk(cfg, b) && Partials(b.running) == 1 && CanAct(cfg, b, Returned(q))
      && Partials(Next(cfg, b, Returned(q)).value.running) == 2
  {
    InputOf(p);
    InputOf(q);
    assert [] + [p] == [p];
    PushCounts([], p);
    PushCounts([p], q);
  }
}

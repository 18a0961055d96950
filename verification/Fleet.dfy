/**
  All the engines of a group at work on the same managers, in any order, with everything else that
  happens to the group in between: other requests come and go, reshard, are restored, phases change.
 */
module Fleet {
  import opened Paging
  import opened Counting
  import opened Pools
  import opened Requests
  import opened Group
  import opened GroupSafety
  import opened LiveRestore
  import opened Runs
  import opened Frames
  import opened Prefill
  import opened PrefillRuns
  import opened Admission
  import opened Preemption
  import opened Iteration
  import Ownership
  import RequestLife
  import Reshard

  // ---------- engines and their turns ----------

  datatype Member = Member(budget: nat, maxBatch: nat, blockSize: nat, rank: nat, running: seq<Req>, queue: seq<Req>)

  datatype Engines = Engines(g: Group, members: seq<Member>)

  /** What the requests an engine keeps are to be scheduled with, as long as the phase lasts. */
  function Settings(m: Member, phase: Phase): Config {
    Config(m.budget, m.maxBatch, m.blockSize, phase == Balloon, m.rank)
  }

  function BatchOf(m: Member, g: Group): Batch {
    Batch(m.running, m.queue, g.mgrs)
  }

  /**
    An iteration composes the next batch and executes it, where other engines may come in between: with no
    tokens it only composes, and what is running executes in a turn of its own, whenever that is. Some of the
    requests outside may come back with it.
    A running request is lent to a queue outside while it is resharded, restored or moved to another engine,
    and returned to some batch afterwards; a queued one is handed from engine to engine.
   */
  datatype Turn =
    | Iteration(j: nat, arrivals: seq<Req>, back: seq<Req>, tokens: seq<Option<Token>>)
    | Execution(j: nat, tokens: seq<Option<Token>>)
    | Elsewhere(e: Event)
    | Lend(j: nat, i: nat)
    | Return(j: nat, q: Req)
    | Hand(from: nat, i: nat, to: nat, at: nat)

  ghost predicate Keeps(m: Member, p: RequestId) {
    Has(m.running, p) || Has(m.queue, p)
  }

  ghost predicate Outside(f: Engines, p: RequestId) {
    forall j | 0 <= j < |f.members| :: !Keeps(f.members[j], p)
  }

  ghost predicate Newcomers(f: Engines, arrivals: seq<Req>) {
    && AllFresh(arrivals) && NobodyMoves(arrivals) && DistinctIds(arrivals)
    && forall i | 0 <= i < |arrivals| :: arrivals[i].id !in f.g.reqs && Outside(f, arrivals[i].id)
  }

  /** The batch once new requests have queued up. */
  function Arrived(m: Member, g: Group, arrivals: seq<Req>): Batch {
    Batch(m.running, m.queue + arrivals, g.mgrs)
  }

  ghost predicate Returners(f: Engines, m: Member, arrivals: seq<Req>, back: seq<Req>) {
    && BackOk(Settings(m, f.g.phase), f.g, Arrived(m, f.g, arrivals), back)
    && forall i | 0 <= i < |back| :: Outside(f, back[i].id)
  }

  ghost predicate CanTurn(f: Engines, t: Turn) {
    match t
    case Iteration(j, arrivals, back, _) =>
      && j < |f.members| && f.members[j].blockSize > 0
      && Newcomers(f, arrivals) && Returners(f, f.members[j], arrivals, back)
    case Execution(j, _) => j < |f.members|
    case Elsewhere(e) =>
      && Enabled(f.g, e) && (e.ToRestore? ==> AtRest(f.g))
      && (Subject(e).Some? ==> Outside(f, Subject(e).value))
    case Lend(j, i) => j < |f.members| && i < |f.members[j].running|
    case Return(j, q) => j < |f.members| && Outside(f, q.id) && MayJoin(f.members[j].blockSize, f.g, q)
    case Hand(from, i, to, at) =>
      && from < |f.members| && to < |f.members| && from != to
      && i < |f.members[from].queue| && at <= |f.members[to].queue|
  }

  /** The flags the group has on record, once the requests in `running` carry theirs. */
  function Recorded(reqs: map<RequestId, Flags>, running: seq<Req>): map<RequestId, Flags> {
    if running == [] then reqs
    else Recorded(reqs, running[..|running| - 1])[running[|running| - 1].id := FlagsOf(running[|running| - 1])]
  }

  /** The group after an iteration: who left the batch is forgotten. */
  ghost function Regrouped(g: Group, before: seq<Req>, r: Batch): Group {
    g.(mgrs := r.mgrs, reqs := Recorded(g.reqs - IdSet(before), r.running))
  }

  ghost function Next(f: Engines, t: Turn): Option<Engines>
    requires CanTurn(f, t)
  {
    match t
    case Iteration(j, arrivals, back, tokens) =>
      var m := f.members[j];
      (match Iterate(Settings(m, f.g.phase), BatchOf(m, f.g), arrivals, back, tokens)
       case None => None
       case Some((r, _)) =>
         Some(Engines(Regrouped(f.g, m.running, r), f.members[j := m.(running := r.running, queue := r.queue)])))
    case Execution(j, tokens) =>
      var m := f.members[j];
      Some(f.(members := f.members[j := m.(running := Iterated(m.running, tokens))]))
    case Elsewhere(e) => Some(f.(g := Apply(f.g, e)))
    case Lend(j, i) =>
      var m := f.members[j];
      Some(f.(members := f.members[j := m.(running := Without(m.running, i))]))
    case Return(j, q) =>
      var m := f.members[j];
      Some(f.(members := f.members[j := m.(running := m.running + [q])]))
    case Hand(from, i, to, at) =>
      var a, b := f.members[from], f.members[to];
      var q := a.queue[i];
      Some(f.(members := f.members[from := a.(queue := Without(a.queue, i))]
                                  [to := b.(queue := b.queue[..at] + [q] + b.queue[at..])]))
  }

  ghost predicate IsPlay(f: Engines, ts: seq<Turn>)
    decreases |ts|
  {
    ts == [] || (CanTurn(f, ts[0]) && (Next(f, ts[0]).Some? ==> IsPlay(Next(f, ts[0]).value, ts[1..])))
  }

  ghost function Played(f: Engines, ts: seq<Turn>): Option<Engines>
    requires IsPlay(f, ts)
    decreases |ts|
  {
    if ts == [] then Some(f)
    else match Next(f, ts[0])
         case None => None
         case Some(e) => Played(e, ts[1..])
  }

  // ---------- the invariant ----------

  ghost predicate MemberSafe(g: Group, m: Member) {
    EngineSafe(Settings(m, g.phase), g, BatchOf(m, g))
  }

  ghost predicate Apart(a: Member, b: Member) {
    forall p: RequestId :: !(Keeps(a, p) && Keeps(b, p))
  }

  ghost predicate AllApart(members: seq<Member>) {
    forall i, j | 0 <= i < j < |members| :: Apart(members[i], members[j])
  }

  /** Every engine is safe, and no request is kept by two. */
  ghost predicate EnginesSafe(f: Engines) {
    && Safe(f.g) && AllApart(f.members)
    && forall j | 0 <= j < |f.members| :: MemberSafe(f.g, f.members[j])
  }

  // ---------- an engine the turn is not about ----------

  lemma TrackedUntouched(blockSize: nat, g: Group, h: Group, q: Req)
    requires blockSize > 0 && Sized(g) && Tracked(blockSize, g, q) && Untouched(g, h, q.id)
    ensures Tracked(blockSize, h, q)
  {
    forall i | 0 <= i < g.k ensures Held(h.mgrs[i], q.id) == Held(g.mgrs[i], q.id) {
      assert SameTable(g.mgrs[i], h.mgrs[i], q.id);
    }
  }

  lemma PagesUntouched(blockSize: nat, g: Group, h: Group, running: seq<Req>)
    requires PagesOk(blockSize, g, running) && Safe(h)
    requires forall p | Has(running, p) :: Untouched(g, h, p)
    ensures PagesOk(blockSize, h, running)
  {
    forall i | 0 <= i < |running| ensures Untouched(g, h, running[i].id) {
      assert Has(running, running[i].id);
    }
    forall i | 0 <= i < |running| ensures Tracked(blockSize, h, running[i]) {
      TrackedUntouched(blockSize, g, h, running[i]);
    }
    forall i | 0 <= i < |running| && InContext(running[i]) ensures Provided(blockSize, h, running[i]) {
      ProvidedKept(blockSize, g, h, running[i]);
    }
  }

  /** Whatever happened to other requests, and whatever the phase is now, the engine is as safe as before. */
  lemma MemberUntouched(g: Group, h: Group, m: Member)
    requires MemberSafe(g, m) && Safe(h) && h.k == g.k
    requires forall p | Keeps(m, p) :: Untouched(g, h, p)
    ensures MemberSafe(h, m)
  {
    PagesUntouched(m.blockSize, g, h, m.running);
    forall i | 0 <= i < |m.queue| ensures m.queue[i].id !in h.reqs {
      assert Keeps(m, m.queue[i].id);
      assert Untouched(g, h, m.queue[i].id);
    }
  }

  lemma MembersUntouched(f: Engines, h: Group)
    requires EnginesSafe(f) && Safe(h) && h.k == f.g.k
    requires forall j, p | 0 <= j < |f.members| && Keeps(f.members[j], p) :: Untouched(f.g, h, p)
    ensures EnginesSafe(f.(g := h))
  {
    forall j | 0 <= j < |f.members| ensures MemberSafe(h, f.members[j]) {
      MemberUntouched(f.g, h, f.members[j]);
    }
  }

  lemma ElsewhereSafe(f: Engines, e: Event)
    requires EnginesSafe(f) && CanTurn(f, Elsewhere(e))
    ensures EnginesSafe(f.(g := Apply(f.g, e)))
  {
    var h := Apply(f.g, e);
    StepSafe(f.g, e);
    StepSize(f.g, e);
    forall j, p | 0 <= j < |f.members| && Keeps(f.members[j], p) ensures Untouched(f.g, h, p) {
      StepFrame(f.g, e, p);
    }
    MembersUntouched(f, h);
  }

  lemma StepSize(g: Group, e: Event)
    requires Enabled(g, e)
    ensures Apply(g, e).k == g.k
  {
  }

  // ---------- one engine changes ----------

  /** One engine changes, keeping no request of another. */
  lemma OneChanges(f: Engines, j: nat, m: Member)
    requires EnginesSafe(f) && j < |f.members| && MemberSafe(f.g, m)
    requires forall p | Keeps(m, p) && !Keeps(f.members[j], p) :: Outside(f, p)
    ensures EnginesSafe(f.(members := f.members[j := m]))
  {
    var c := f.members[j := m];
    forall a, b | 0 <= a < b < |c| ensures Apart(c[a], c[b]) {
      assert Apart(f.members[a], f.members[b]);
    }
  }

  lemma ExecuteSafe(f: Engines, j: nat, tokens: seq<Option<Token>>)
    requires EnginesSafe(f) && CanTurn(f, Execution(j, tokens))
    ensures EnginesSafe(Next(f, Execution(j, tokens)).value)
  {
    var m := f.members[j];
    var done := m.(running := Iterated(m.running, tokens));
    assert MemberSafe(f.g, m);
    ExecutedPages(m.blockSize, f.g, m.running, tokens);
    forall p | Keeps(done, p) ensures Keeps(m, p) {
      ExecutedHas(m.running, tokens, p);
    }
    OneChanges(f, j, done);
  }

  lemma LendSafe(f: Engines, j: nat, i: nat)
    requires EnginesSafe(f) && CanTurn(f, Lend(j, i))
    ensures EnginesSafe(Next(f, Lend(j, i)).value)
  {
    var m := f.members[j];
    var rest := m.(running := Without(m.running, i));
    assert MemberSafe(f.g, m);
    forall p | Has(rest.running, p) ensures Has(m.running, p) {
      WithoutHas(m.running, i, p);
    }
    LessRunning(m.blockSize, f.g, m.running, i);
    OneChanges(f, j, rest);
  }

  lemma LessRunning(blockSize: nat, g: Group, running: seq<Req>, i: nat)
    requires PagesOk(blockSize, g, running) && i < |running|
    ensures PagesOk(blockSize, g, Without(running, i))
  {
  }

  lemma ReturnSafe(f: Engines, j: nat, q: Req)
    requires EnginesSafe(f) && CanTurn(f, Return(j, q))
    ensures EnginesSafe(Next(f, Return(j, q)).value)
  {
    var m := f.members[j];
    var more := m.(running := m.running + [q]);
    assert MemberSafe(f.g, m) && !Keeps(m, q.id);
    OneComesBack(m.blockSize, f.g, m.running, q);
    OneChanges(f, j, more);
  }

  lemma HandSafe(f: Engines, from: nat, i: nat, to: nat, at: nat)
    requires EnginesSafe(f) && CanTurn(f, Hand(from, i, to, at))
    ensures EnginesSafe(Next(f, Hand(from, i, to, at)).value)
  {
    var a, b := f.members[from], f.members[to];
    var q := a.queue[i];
    var less := a.(queue := Without(a.queue, i));
    var more := b.(queue := b.queue[..at] + [q] + b.queue[at..]);
    assert MemberSafe(f.g, a) && MemberSafe(f.g, b);
    assert Keeps(a, q.id);
    assert Apart(if from < to then a else b, if from < to then b else a);
    LessQueued(f.g, a.queue, i);
    forall p | Has(less.queue, p) ensures Has(a.queue, p) {
      WithoutHas(a.queue, i, p);
    }
    OneChanges(f, from, less);
    var mid := f.(members := f.members[from := less]);
    MoreQueued(f.g, b.queue, q, at);
    TakenOut(mid, f, from, i);
    forall p | Keeps(more, p) && !Keeps(b, p) ensures Outside(mid, p) {
      InsertedHas(b.queue, q, at, p);
    }
    OneChanges(mid, to, more);
  }

  lemma LessQueued(g: Group, queue: seq<Req>, i: nat)
    requires QueueOk(g, queue) && i < |queue|
    ensures QueueOk(g, Without(queue, i)) && !Has(Without(queue, i), queue[i].id)
  {
  }

  lemma MoreQueued(g: Group, queue: seq<Req>, q: Req, at: nat)
    requires QueueOk(g, queue) && at <= |queue| && Fresh(q) && !q.moving && q.id !in g.reqs && !Has(queue, q.id)
    ensures QueueOk(g, queue[..at] + [q] + queue[at..])
  {
    var all := queue[..at] + [q] + queue[at..];
    forall i | 0 <= i < |all|
      ensures all[i] == if i < at then queue[i] else if i == at then q else queue[i - 1]
    {
    }
  }

  lemma InsertedHas(queue: seq<Req>, q: Req, at: nat, p: RequestId)
    requires at <= |queue| && Has(queue[..at] + [q] + queue[at..], p)
    ensures p == q.id || Has(queue, p)
  {
    var all := queue[..at] + [q] + queue[at..];
    var i :| 0 <= i < |all| && all[i].id == p;
    if i != at {
      assert queue[if i < at then i else i - 1].id == p;
    }
  }

  /** A request taken out of its queue is outside for the moment. */
  lemma TakenOut(mid: Engines, f: Engines, j: nat, i: nat)
    requires EnginesSafe(f) && j < |f.members| && i < |f.members[j].queue|
    requires mid == f.(members := f.members[j := f.members[j].(queue := Without(f.members[j].queue, i))])
    ensures Outside(mid, f.members[j].queue[i].id)
  {
    var m := f.members[j];
    var q := m.queue[i];
    assert MemberSafe(f.g, m) && Keeps(m, q.id);
    LessQueued(f.g, m.queue, i);
    NotRunning(m.blockSize, f.g, m.running, q.id);
    forall a | 0 <= a < |mid.members| ensures !Keeps(mid.members[a], q.id) {
      if a != j {
        assert Apart(f.members[if a < j then a else j], f.members[if a < j then j else a]);
      }
    }
  }

  // ---------- an iteration ----------

  lemma {:induction false} RecordedAt(reqs: map<RequestId, Flags>, running: seq<Req>, p: RequestId)
    requires DistinctIds(running)
    ensures p in Recorded(reqs, running) <==> p in reqs || Has(running, p)
    ensures forall i | 0 <= i < |running| && running[i].id == p :: Recorded(reqs, running)[p] == FlagsOf(running[i])
    ensures !Has(running, p) && p in reqs ==> Recorded(reqs, running)[p] == reqs[p]
  {
    if running != [] {
      var n := |running| - 1;
      RecordedAt(reqs, running[..n], p);
      if Has(running[..n], p) {
        HasFront(running, n, p);
      }
      assert running[n].id == p ==> Has(running, p);
      if Has(running, p) && running[n].id != p {
        var i :| 0 <= i < |running| && running[i].id == p;
        assert running[..n][i].id == p;
      }
    }
  }

  /** What the group has on record is all there is to know. */
  lemma RegroupedIs(cfg: Config, g: Group, b: Batch, back: seq<Req>, h: Group, r: Batch)
    requires EngineSafe(cfg, h, r) && Safe(g) && NewQueue(g, b.queue) && WithinBack(g, b, back, h, r)
    ensures Regrouped(g, b.running, r) == h
  {
    var reqs := Recorded(g.reqs - IdSet(b.running), r.running);
    forall p: RequestId
      ensures p in reqs <==> p in h.reqs
      ensures p in reqs ==> reqs[p] == h.reqs[p]
    {
      RecordedAt(g.reqs - IdSet(b.running), r.running, p);
      RunningKnown(cfg.blockSize, h, r.running);
      assert p in IdSet(b.running) <==> Has(b.running, p);
      if Has(r.running, p) {
        var i :| 0 <= i < |r.running| && r.running[i].id == p;
        assert Tracked(cfg.blockSize, h, r.running[i]);
      } else if p in g.reqs && !Has(b.running, p) {
        NotQueued(g, b.queue, p);
        assert !Holds(b, p);
        assert Reshard.Kept(g, h, p);
      }
    }
    assert reqs == h.reqs;
  }

  lemma NotQueued(g: Group, queue: seq<Req>, p: RequestId)
    requires NewQueue(g, queue) && p in g.reqs
    ensures !Has(queue, p)
  {
  }

  lemma ArrivalsQueue(f: Engines, j: nat, arrivals: seq<Req>)
    requires EnginesSafe(f) && j < |f.members| && Newcomers(f, arrivals)
    ensures QueueOk(f.g, f.members[j].queue + arrivals)
  {
    var queue := f.members[j].queue;
    var all, n := queue + arrivals, |queue|;
    assert MemberSafe(f.g, f.members[j]);
    forall i | 0 <= i < |all| ensures all[i] == if i < n then queue[i] else arrivals[i - n] {
    }
    forall i, k | 0 <= i < k < |all| ensures all[i].id != all[k].id {
      if i < n <= k {
        assert Outside(f, arrivals[k - n].id) && Has(queue, queue[i].id);
        assert Keeps(f.members[j], queue[i].id);
      }
    }
  }

  lemma IterationStep(f: Engines, j: nat, arrivals: seq<Req>, back: seq<Req>, tokens: seq<Option<Token>>)
    returns (h: Group)
    requires EnginesSafe(f) && CanTurn(f, Iteration(j, arrivals, back, tokens))
    requires Next(f, Iteration(j, arrivals, back, tokens)).Some?
    ensures var (m, e) := (f.members[j], Next(f, Iteration(j, arrivals, back, tokens)).value);
      var r := Iterate(Settings(m, f.g.phase), BatchOf(m, f.g), arrivals, back, tokens).value.0;
      && e == Engines(h, f.members[j := m.(running := r.running, queue := r.queue)])
      && EngineSafe(Settings(m, f.g.phase), h, r) && WithinBack(f.g, Arrived(m, f.g, arrivals), back, h, r)
      && (BackProvided(Settings(m, f.g.phase), f.g, back) ==>
           (AllProvided(m.blockSize, h, r.running) <==> Readied(f, Iteration(j, arrivals, back, tokens), j, false)))
  {
    var m := f.members[j];
    var cfg, b := Settings(m, f.g.phase), BatchOf(m, f.g);
    assert MemberSafe(f.g, m);
    ArrivalsQueue(f, j, arrivals);
    h := IterateSafe(cfg, f.g, b, arrivals, back, tokens);
    RegroupedIs(cfg, f.g, Arrived(m, f.g, arrivals), back, h, Iterate(cfg, b, arrivals, back, tokens).value.0);
  }

  lemma IterationSafe(f: Engines, j: nat, arrivals: seq<Req>, back: seq<Req>, tokens: seq<Option<Token>>)
    requires EnginesSafe(f) && CanTurn(f, Iteration(j, arrivals, back, tokens))
    requires Next(f, Iteration(j, arrivals, back, tokens)).Some?
    ensures EnginesSafe(Next(f, Iteration(j, arrivals, back, tokens)).value)
  {
    var h := IterationStep(f, j, arrivals, back, tokens);
    var m := f.members[j];
    var r := Iterate(Settings(m, f.g.phase), BatchOf(m, f.g), arrivals, back, tokens).value.0;
    OthersUntouched(f, j, arrivals, back, h, r);
  }

  lemma ArrivedOrKept(m: Member, arrivals: seq<Req>, g: Group, p: RequestId)
    ensures Holds(Arrived(m, g, arrivals), p) ==> Keeps(m, p) || Has(arrivals, p)
  {
    var all := m.queue + arrivals;
    if Has(all, p) {
      var i :| 0 <= i < |all| && all[i].id == p;
      assert if i < |m.queue| then m.queue[i].id == p else arrivals[i - |m.queue|].id == p;
    }
  }

  lemma NotOurs(f: Engines, j: nat, arrivals: seq<Req>, back: seq<Req>, a: nat, p: RequestId)
    requires EnginesSafe(f) && j < |f.members| && a < |f.members| && a != j && Newcomers(f, arrivals)
    requires Returners(f, f.members[j], arrivals, back) && Keeps(f.members[a], p)
    ensures !Holds(Arrived(f.members[j], f.g, arrivals), p) && !Has(back, p)
  {
    assert Apart(f.members[if a < j then a else j], f.members[if a < j then j else a]);
    ArrivedOrKept(f.members[j], arrivals, f.g, p);
    assert !Outside(f, p);
  }

  lemma OthersUntouched(f: Engines, j: nat, arrivals: seq<Req>, back: seq<Req>, h: Group, r: Batch)
    requires EnginesSafe(f) && j < |f.members| && Newcomers(f, arrivals)
    requires Returners(f, f.members[j], arrivals, back)
    requires EngineSafe(Settings(f.members[j], f.g.phase), h, r)
    requires WithinBack(f.g, Arrived(f.members[j], f.g, arrivals), back, h, r)
    ensures EnginesSafe(Engines(h, f.members[j := f.members[j].(running := r.running, queue := r.queue)]))
  {
    var m := f.members[j];
    var c := f.members[j := m.(running := r.running, queue := r.queue)];
    forall a | 0 <= a < |c| ensures MemberSafe(h, c[a]) {
      if a != j {
        forall p | Keeps(f.members[a], p) ensures Untouched(f.g, h, p) {
          NotOurs(f, j, arrivals, back, a, p);
        }
        MemberUntouched(f.g, h, f.members[a]);
      }
    }
    forall a, b | 0 <= a < b < |c| ensures Apart(c[a], c[b]) {
      assert Apart(f.members[a], f.members[b]);
      if a == j || b == j {
        var other := if a == j then b else a;
        forall p | Keeps(f.members[other], p) ensures !Keeps(c[j], p) {
          NotOurs(f, j, arrivals, back, other, p);
          assert !Holds(r, p);
        }
      }
    }
  }

  // ---------- any number of turns ----------

  lemma TurnSafe(f: Engines, t: Turn)
    requires EnginesSafe(f) && CanTurn(f, t) && Next(f, t).Some?
    ensures EnginesSafe(Next(f, t).value)
  {
    match t
    case Iteration(j, arrivals, back, tokens) => IterationSafe(f, j, arrivals, back, tokens);
    case Execution(j, tokens) => ExecuteSafe(f, j, tokens);
    case Elsewhere(e) => ElsewhereSafe(f, e);
    case Lend(j, i) => LendSafe(f, j, i);
    case Return(j, q) => ReturnSafe(f, j, q);
    case Hand(from, i, to, at) => HandSafe(f, from, i, to, at);
  }

  /** Whatever the order of the turns, every engine stays safe. */
  lemma {:induction false} PlaySafe(f: Engines, ts: seq<Turn>)
    requires EnginesSafe(f) && IsPlay(f, ts) && Played(f, ts).Some?
    ensures EnginesSafe(Played(f, ts).value)
    decreases |ts|
  {
    if ts != [] {
      TurnSafe(f, ts[0]);
      PlaySafe(Next(f, ts[0]).value, ts[1..]);
    }
  }

  // ---------- the budget ----------

  ghost predicate Fits(m: Member) {
    TokenCount(m.running) <= m.budget && AllChunksOk(m.running)
  }

  ghost predicate AllFit(f: Engines) {
    forall j | 0 <= j < |f.members| :: Fits(f.members[j])
  }

  /** Requests put into a batch from outside leave it within its budget. */
  ghost predicate Fitting(f: Engines, t: Turn)
    requires CanTurn(f, t)
  {
    match t
    case Iteration(_, _, back, _) => AllChunksOk(back)
    case Return(j, q) => ChunkOk(q) && TokenCount(f.members[j].running) + InputCount(q) <= f.members[j].budget
    case _ => true
  }

  ghost predicate FittingPlay(f: Engines, ts: seq<Turn>)
    requires IsPlay(f, ts)
    decreases |ts|
  {
    ts == [] || (Fitting(f, ts[0]) && (Next(f, ts[0]).Some? ==> FittingPlay(Next(f, ts[0]).value, ts[1..])))
  }

  lemma TurnFits(f: Engines, t: Turn)
    requires EnginesSafe(f) && CanTurn(f, t) && AllFit(f) && Fitting(f, t)
    ensures Next(f, t).Some? && AllFit(Next(f, t).value)
  {
    match t
    case Iteration(j, arrivals, back, tokens) => IterationFits(f, j, arrivals, back, tokens);
    case Execution(j, tokens) => IteratedFits(f.members[j], tokens);
    case Lend(j, i) => LessFits(f.members[j], i);
    case Return(j, q) => MoreFits(f.members[j], q);
    case Elsewhere(_) =>
    case Hand(_, _, _, _) =>
  }

  lemma IteratedFits(m: Member, tokens: seq<Option<Token>>)
    requires Fits(m)
    ensures Fits(m.(running := Iterated(m.running, tokens)))
  {
    IteratedBatch(m.running, tokens);
  }

  lemma LessFits(m: Member, i: nat)
    requires Fits(m) && i < |m.running|
    ensures Fits(m.(running := Without(m.running, i)))
  {
    CountsAt(m.running, i);
  }

  lemma MoreFits(m: Member, q: Req)
    requires Fits(m) && ChunkOk(q) && TokenCount(m.running) + InputCount(q) <= m.budget
    ensures Fits(m.(running := m.running + [q]))
  {
    PushCounts(m.running, q);
  }

  lemma IterationFits(f: Engines, j: nat, arrivals: seq<Req>, back: seq<Req>, tokens: seq<Option<Token>>)
    requires EnginesSafe(f) && CanTurn(f, Iteration(j, arrivals, back, tokens)) && AllFit(f) && AllChunksOk(back)
    ensures Next(f, Iteration(j, arrivals, back, tokens)).Some?
    ensures AllFit(Next(f, Iteration(j, arrivals, back, tokens)).value)
  {
    var m := f.members[j];
    assert MemberSafe(f.g, m) && Fits(m);
    ArrivalsQueue(f, j, arrivals);
    IterateFits(Settings(m, f.g.phase), f.g, BatchOf(m, f.g), arrivals, back, tokens);
  }

  /** No assertion fails as long as what is put into a batch from outside fits it. */
  lemma {:induction false} PlayFits(f: Engines, ts: seq<Turn>)
    requires EnginesSafe(f) && IsPlay(f, ts) && AllFit(f) && FittingPlay(f, ts)
    ensures Played(f, ts).Some? && AllFit(Played(f, ts).value)
    decreases |ts|
  {
    if ts != [] {
      TurnFits(f, ts[0]);
      TurnSafe(f, ts[0]);
      PlayFits(Next(f, ts[0]).value, ts[1..]);
    }
  }

  // ---------- batches composed ----------

  /** A group that starts, its engines without requests. */
  ghost predicate Idle(f: Engines) {
    && f.g.n > 0 && f.g.k > 0 && f.g == Start(f.g.n, f.g.k)
    && forall j | 0 <= j < |f.members| ::
         && f.members[j].blockSize > 0 && f.members[j].rank < f.g.k
         && f.members[j].running == [] && f.members[j].queue == []
  }

  lemma IdleSafe(f: Engines)
    requires Idle(f)
    ensures EnginesSafe(f) && AllFit(f)
  {
    StartSafe(f.g.n, f.g.k);
    forall j | 0 <= j < |f.members| ensures MemberSafe(f.g, f.members[j]) && Fits(f.members[j]) {
      EngineStarts(Settings(f.members[j], f.g.phase), f.g);
    }
  }

  /** From the start on, whatever happened: the next batch any engine composes holds only requests the group knows,
      with no page too many and nobody of the queue among them; each holds exactly the pages needed on every manager
      it uses if those do who come back with it. */
  lemma EveryBatch(f: Engines, ts: seq<Turn>, j: nat, arrivals: seq<Req>, back: seq<Req>) returns (h: Group)
    requires Idle(f) && IsPlay(f, ts) && Played(f, ts).Some?
    requires CanTurn(Played(f, ts).value, Iteration(j, arrivals, back, []))
    requires var e := Played(f, ts).value;
      NextBatch(Settings(e.members[j], e.g.phase), Arrived(e.members[j], e.g, arrivals), back).Some?
    ensures var e := Played(f, ts).value;
      var cfg := Settings(e.members[j], e.g.phase);
      var r := NextBatch(cfg, Arrived(e.members[j], e.g, arrivals), back).value.0;
      && Composed(cfg, h, r) && WithinBack(e.g, Arrived(e.members[j], e.g, arrivals), back, h, r)
      && (BackProvided(cfg, e.g, back) ==> AllProvided(cfg.blockSize, h, r.running))
  {
    IdleSafe(f);
    PlaySafe(f, ts);
    var e := Played(f, ts).value;
    var m := e.members[j];
    assert MemberSafe(e.g, m);
    ArrivalsQueue(e, j, arrivals);
    h := NextBatchSafe(Settings(m, e.g.phase), e.g, Arrived(m, e.g, arrivals), back);
  }

  /** While what is put into a batch from outside fits it, the next batch is always composed, within its budget, and
      nobody is left waiting without a reason. */
  lemma EveryBatchFits(f: Engines, ts: seq<Turn>, j: nat, arrivals: seq<Req>, back: seq<Req>)
    requires Idle(f) && IsPlay(f, ts) && FittingPlay(f, ts) && AllChunksOk(back)
    requires Played(f, ts).Some? ==> CanTurn(Played(f, ts).value, Iteration(j, arrivals, back, []))
    ensures Played(f, ts).Some?
    ensures var e := Played(f, ts).value;
      var m := e.members[j];
      var cfg, b := Settings(m, e.g.phase), Arrived(m, e.g, arrivals);
      && m.blockSize > 0 && NextBatch(cfg, b, back).Some?
      && BatchOk(cfg, NextBatch(cfg, b, back).value.0.running) && Stopped(cfg, NextBatch(cfg, b, back).value.0)
      && (Partials(m.running) + Partials(back) <= 1 ==> FullIfPartial(cfg, NextBatch(cfg, b, back).value.0.running))
  {
    IdleSafe(f);
    PlayFits(f, ts);
    PlaySafe(f, ts);
    var e := Played(f, ts).value;
    var m := e.members[j];
    assert MemberSafe(e.g, m) && Fits(m);
    ArrivalsQueue(e, j, arrivals);
    NextBatchFits(Settings(m, e.g.phase), e.g, Arrived(m, e.g, arrivals), back);
  }

  // ---------- batches that execute ----------

  /** Everybody in the batch of engine `j` holds exactly its pages. */
  ghost predicate Exact(f: Engines, j: nat) {
    j < |f.members| && AllProvided(f.members[j].blockSize, f.g, f.members[j].running)
  }

  /** Whether the batch of engine `j` is known to be exact after the turn: composing it makes it so, taking tokens
      keeps it so while nobody's last page is full. */
  ghost predicate Readied(f: Engines, t: Turn, j: nat, now: bool)
    requires CanTurn(f, t) && Next(f, t).Some?
  {
    match t
    case Iteration(i, arrivals, back, tokens) =>
      var cfg, b := Settings(f.members[i], f.g.phase), Arrived(f.members[i], f.g, arrivals);
      if i != j then now
      else BackProvided(cfg, f.g, back) && Roomy(cfg.blockSize, NextBatch(cfg, b, back).value.0.running, tokens)
    case Execution(i, tokens) =>
      now && (i == j ==> f.members[j].blockSize > 0 && Roomy(f.members[j].blockSize, f.members[j].running, tokens))
    case Return(i, q) => now && (i == j ==> Provided(f.members[j].blockSize, f.g, q))
    case _ => now
  }

  /** The same over a play. */
  ghost predicate Ready(f: Engines, ts: seq<Turn>, j: nat, now: bool)
    requires IsPlay(f, ts) && Played(f, ts).Some?
    decreases |ts|
  {
    if ts == [] then now else Ready(Next(f, ts[0]).value, ts[1..], j, Readied(f, ts[0], j, now))
  }

  lemma ExactUntouched(g: Group, h: Group, m: Member)
    requires AllProvided(m.blockSize, g, m.running) && Sized(h)
    requires forall p | Keeps(m, p) :: Untouched(g, h, p)
    ensures AllProvided(m.blockSize, h, m.running)
  {
    forall i | 0 <= i < |m.running| ensures Provided(m.blockSize, h, m.running[i]) {
      assert Keeps(m, m.running[i].id);
      ProvidedKept(m.blockSize, g, h, m.running[i]);
    }
  }

  lemma IterationOfOther(f: Engines, i: nat, arrivals: seq<Req>, back: seq<Req>, tokens: seq<Option<Token>>, j: nat)
    requires EnginesSafe(f) && CanTurn(f, Iteration(i, arrivals, back, tokens)) && Exact(f, j) && i != j
    requires Next(f, Iteration(i, arrivals, back, tokens)).Some?
    ensures Exact(Next(f, Iteration(i, arrivals, back, tokens)).value, j)
  {
    var h := IterationStep(f, i, arrivals, back, tokens);
    forall p | Keeps(f.members[j], p) ensures Untouched(f.g, h, p) {
      NotOurs(f, i, arrivals, back, j, p);
    }
    ExactUntouched(f.g, h, f.members[j]);
  }

  lemma ElsewhereExact(f: Engines, e: Event, j: nat)
    requires EnginesSafe(f) && CanTurn(f, Elsewhere(e)) && Exact(f, j)
    ensures Exact(f.(g := Apply(f.g, e)), j)
  {
    StepSafe(f.g, e);
    forall p | Keeps(f.members[j], p) ensures Untouched(f.g, Apply(f.g, e), p) {
      StepFrame(f.g, e, p);
    }
    ExactUntouched(f.g, Apply(f.g, e), f.members[j]);
  }

  lemma TurnExact(f: Engines, t: Turn, j: nat, now: bool)
    requires EnginesSafe(f) && CanTurn(f, t) && Next(f, t).Some? && j < |f.members| && (now ==> Exact(f, j))
    ensures Readied(f, t, j, now) ==> Exact(Next(f, t).value, j)
    ensures j < |Next(f, t).value.members|
  {
    if Readied(f, t, j, now) {
      match t
      case Iteration(i, arrivals, back, tokens) =>
        if i == j {
          var h := IterationStep(f, j, arrivals, back, tokens);
        } else {
          IterationOfOther(f, i, arrivals, back, tokens, j);
        }
      case Execution(i, tokens) =>
        if i == j {
          StillExact(f.members[j].blockSize, f.g, f.members[j].running, tokens);
        }
      case Elsewhere(e) => ElsewhereExact(f, e, j);
      case Lend(_, _) =>
      case Return(i, q) =>
        if i == j {
          assert MemberSafe(f.g, f.members[j]) && !Keeps(f.members[j], q.id);
          OneComesBack(f.members[j].blockSize, f.g, f.members[j].running, q);
        }
      case Hand(_, _, _, _) =>
    }
  }

  lemma {:induction false} PlayExact(f: Engines, ts: seq<Turn>, j: nat, now: bool)
    requires EnginesSafe(f) && IsPlay(f, ts) && Played(f, ts).Some? && j < |f.members| && (now ==> Exact(f, j))
    ensures Ready(f, ts, j, now) ==> Exact(Played(f, ts).value, j)
    decreases |ts|
  {
    if ts != [] {
      TurnSafe(f, ts[0]);
      TurnExact(f, ts[0], j, now);
      var e, next := Next(f, ts[0]).value, Readied(f, ts[0], j, now);
      PlayExact(e, ts[1..], j, next);
    }
  }

  /** From the start on: a batch that executes, composed or not, holds only requests with exactly their pages when
      it was composed from such and nobody in it took a token with its last page full since; and executing it
      leaves it so if and only if nobody does now. */
  lemma ExecutesExactly(f: Engines, ts: seq<Turn>, j: nat, tokens: seq<Option<Token>>)
    requires Idle(f) && IsPlay(f, ts) && Played(f, ts).Some? && j < |f.members| && Ready(f, ts, j, true)
    ensures var (e, t) := (Played(f, ts).value, Execution(j, tokens));
      Exact(e, j) && e.members[j].blockSize > 0
      && (Exact(Next(e, t).value, j) <==> Roomy(e.members[j].blockSize, e.members[j].running, tokens))
  {
    IdleSafe(f);
    PlaySafe(f, ts);
    PlayExact(f, ts, j, true);
    var e := Played(f, ts).value;
    assert MemberSafe(e.g, e.members[j]);
    StillExact(e.members[j].blockSize, e.g, e.members[j].running, tokens);
  }

  /** Engine `j` neither composes its batch nor takes tokens nor gets a request back. */
  predicate Quiet(t: Turn, j: nat) {
    match t
    case Iteration(i, _, _, _) => i != j
    case Execution(i, _) => i != j
    case Return(i, _) => i != j
    case _ => true
  }

  lemma {:induction false} QuietReady(f: Engines, ts: seq<Turn>, j: nat)
    requires IsPlay(f, ts) && Played(f, ts).Some? && forall i | 0 <= i < |ts| :: Quiet(ts[i], j)
    ensures Ready(f, ts, j, true)
    decreases |ts|
  {
    if ts != [] {
      assert Quiet(ts[0], j);
      QuietReady(Next(f, ts[0]).value, ts[1..], j);
    }
  }

  /** Whatever the others do after engine `j` composed its batch: when it executes, everybody in it holds exactly the
      pages needed on every manager it uses. */
  lemma ComposedSince(f: Engines, arrivals: seq<Req>, back: seq<Req>, ts: seq<Turn>, j: nat)
    requires EnginesSafe(f) && CanTurn(f, Iteration(j, arrivals, back, []))
    requires BackProvided(Settings(f.members[j], f.g.phase), f.g, back)
    requires Next(f, Iteration(j, arrivals, back, [])).Some?
    requires var e := Next(f, Iteration(j, arrivals, back, [])).value; IsPlay(e, ts) && Played(e, ts).Some?
    requires forall i | 0 <= i < |ts| :: Quiet(ts[i], j)
    ensures Exact(Played(Next(f, Iteration(j, arrivals, back, [])).value, ts).value, j)
  {
    var t := Iteration(j, arrivals, back, []);
    var e := Next(f, t).value;
    TurnSafe(f, t);
    TurnExact(f, t, j, false);
    QuietReady(e, ts, j);
    PlayExact(e, ts, j, true);
  }

  // ---------- a batch that executes without being composed ----------

  /** An engine with nothing to do takes in a request that fits. */
  lemma FirstBatch(cfg: Config, mgrs: seq<State>, q: Req)
    requires cfg.blockSize > 0 && Fresh(q) && |q.prompt| <= cfg.budget && cfg.maxBatch > 0
    requires BlocksFit(cfg, mgrs, Tagged(cfg, q))
    ensures var r := NextBatch(cfg, Batch([], [q], mgrs), []);
      r.Some? && r.value.0.running == [Tagged(cfg, q)]
  {
    var b := Batch([], [q], mgrs);
    assert PopFinished(mgrs, []) == (mgrs, []);
    assert AllocateRunning(cfg.blockSize, mgrs, [], [q]) == Outcome(mgrs, [], [q], true);
    assert ComeBack(cfg, [], []) == ([], []);
    assert Consider(cfg, b) == Join(Tagged(cfg, q), true);
    assert AdmitLoop(cfg, b) == AdmitLoop(cfg, Push(cfg, b, Tagged(cfg, q)));
    assert SchedulePrefill(cfg, b) == AdmitLoop(cfg, b);
  }

  /** A request that comes to an engine that starts finds its pages. */
  lemma FirstArrival(f: Engines, j: nat, q: Req, tokens: seq<Option<Token>>)
    requires Idle(f) && j < |f.members| && Fresh(q) && !q.moving
    requires BlocksNeeded(|q.prompt|, f.members[j].blockSize) <= f.g.n
    ensures CanTurn(f, Iteration(j, [q], [], tokens)) && BlocksFit(Settings(f.members[j], f.g.phase), f.g.mgrs, q)
  {
    Ownership.RangeMultiset(0, f.g.n, 0);
  }

  /** A prompt that fills its pages, taken in by an engine that starts, and one token: what the engine executes
      when it goes on without composing its batch is that request, with a page too few. */
  lemma ShortHappens(f: Engines, j: nat, q: Req, t: Token)
    requires Idle(f) && j < |f.members| && Fresh(q) && !q.moving
    requires |q.prompt| <= f.members[j].budget && f.members[j].maxBatch > 0
    requires |q.prompt| % f.members[j].blockSize == 0 && |q.prompt| / f.members[j].blockSize <= f.g.n
    ensures CanTurn(f, Iteration(j, [q], [], [Some(t)])) && Next(f, Iteration(j, [q], [], [Some(t)])).Some?
    ensures var e := Next(f, Iteration(j, [q], [], [Some(t)])).value;
      j < |e.members| && |e.members[j].running| == 1 && e.members[j].running[0].id == q.id && !Exact(e, j)
  {
    var m := f.members[j];
    var cfg := Settings(m, f.g.phase);
    IdleSafe(f);
    FullPages(|q.prompt|, m.blockSize);
    FirstArrival(f, j, q, [Some(t)]);
    FirstBatch(cfg, f.g.mgrs, q);
    assert Arrived(m, f.g, [q]) == Batch([], [q], f.g.mgrs);
    var h := IterationStep(f, j, [q], [], [Some(t)]);
    assert !Roomy(m.blockSize, [Tagged(cfg, q)], [Some(t)]);
  }

  lemma FullPages(tokens: nat, blockSize: nat)
    requires blockSize > 0 && tokens % blockSize == 0
    ensures BlocksNeeded(tokens, blockSize) == tokens / blockSize
  {
    RequestLife.CeilingAt(tokens / blockSize, 0, blockSize);
  }
}

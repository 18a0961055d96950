/** What holds for a request over its whole life: preemption loses nothing, and prefill tiles the prompt. */
module RequestLife {
  import opened Paging
  import opened Requests

  // ---------- recompute is transparent ----------

  datatype LifeEvent = Generate(t: Token) | Preempt

  /** A token is taken as long as the guard of `add_generated_token` does not raise, finished or not. */
  predicate Possible(q: Req, e: LifeEvent) {
    e.Generate? ==> !Overrun(q)
  }

  function Live(q: Req, e: LifeEvent): Req {
    match e
    case Generate(t) => AddGenerated(q, t)
    case Preempt => PrepareForRecompute(q)
  }

  predicate IsLife(q: Req, es: seq<LifeEvent>)
    decreases |es|
  {
    es == [] || (Possible(q, es[0]) && IsLife(Live(q, es[0]), es[1..]))
  }

  function LiveAll(q: Req, es: seq<LifeEvent>): Req
    decreases |es|
  {
    if es == [] then q else LiveAll(Live(q, es[0]), es[1..])
  }

  /** All tokens of the request so far, as the model sees them. */
  function History(q: Req): seq<nat> {
    q.prompt + Ids(q.generated)
  }

  ghost predicate Newborn(q: Req) {
    q.generated == [] && q.outputs == [] && !q.finished && q.maxTokens >= 1
  }

  /** The last of these outputs is where the request should end. */
  predicate Stops(origin: Req, outputs: seq<Token>) {
    && outputs != []
    && (|outputs| >= origin.maxTokens
        || (!origin.sampling.ignoreEos && outputs[|outputs| - 1].text in origin.sampling.stop))
  }

  /** One of these outputs is where the request should have ended. */
  predicate Ended(origin: Req, outputs: seq<Token>) {
    outputs != [] && (Ended(origin, outputs[..|outputs| - 1]) || Stops(origin, outputs))
  }

  /** No output comes after the one where the request should end. */
  predicate Exact(origin: Req, outputs: seq<Token>) {
    outputs != [] ==> !Ended(origin, outputs[..|outputs| - 1])
  }

  /** `q` is what became of the request that started as `origin`. */
  ghost predicate Faithful(origin: Req, q: Req) {
    && q.sampling == origin.sampling
    && History(q) == origin.prompt + Ids(q.outputs)
    && q.maxTokens - |q.generated| == origin.maxTokens - |q.outputs|
    && |q.outputs| <= origin.maxTokens + 1
    && (q.finished <==> Ended(origin, q.outputs))
  }

  lemma {:induction false} IdsConcat(a: seq<Token>, b: seq<Token>)
    ensures Ids(a + b) == Ids(a) + Ids(b)
  {
    if b == [] {
      assert a + b == a;
    } else {
      IdsConcat(a, b[..|b| - 1]);
      assert (a + b)[..|a + b| - 1] == a + b[..|b| - 1];
    }
  }

  lemma OneMoreOutput(origin: Req, outputs: seq<Token>, t: Token)
    ensures Ended(origin, outputs + [t]) <==> Ended(origin, outputs) || Stops(origin, outputs + [t])
    ensures Exact(origin, outputs + [t]) <==> !Ended(origin, outputs)
  {
    assert (outputs + [t])[..|outputs|] == outputs;
  }

  lemma LiveFaithful(origin: Req, q: Req, e: LifeEvent)
    requires Faithful(origin, q) && Possible(q, e)
    ensures Faithful(origin, Live(q, e))
    ensures History(q) <= History(Live(q, e)) && q.outputs <= Live(q, e).outputs
  {
    match e
    case Generate(t) =>
      IdsConcat(q.generated, [t]);
      IdsConcat(q.outputs, [t]);
      OneMoreOutput(origin, q.outputs, t);
      assert History(Live(q, e)) == History(q) + Ids([t]);
    case Preempt =>
      assert History(Live(q, e)) == History(q);
  }

  /** Across any number of preemptions the tokens only grow by appending, the budget left is that of the
      original request, it is finished exactly when one of its outputs was to be the last, and it never has more
      than one output beyond its limit. */
  lemma {:induction false} LifeFaithful(origin: Req, q: Req, es: seq<LifeEvent>)
    requires Faithful(origin, q) && IsLife(q, es)
    ensures Faithful(origin, LiveAll(q, es))
    ensures History(q) <= History(LiveAll(q, es)) && q.outputs <= LiveAll(q, es).outputs
    decreases |es|
  {
    if es != [] {
      LiveFaithful(origin, q, es[0]);
      LifeFaithful(origin, Live(q, es[0]), es[1..]);
    }
  }

  // ---------- a finished request that runs again ----------

  /** No token comes to a request that is finished already. */
  predicate OnTime(q: Req, es: seq<LifeEvent>)
    decreases |es|
  {
    es == [] || (!(es[0].Generate? && q.finished) && OnTime(Live(q, es[0]), es[1..]))
  }

  lemma {:induction false} ExactOnTime(origin: Req, q: Req, es: seq<LifeEvent>)
    requires Faithful(origin, q) && IsLife(q, es)
    ensures Exact(origin, LiveAll(q, es).outputs) <==> Exact(origin, q.outputs) && OnTime(q, es)
    decreases |es|
  {
    if es != [] {
      LiveFaithful(origin, q, es[0]);
      ExactOnTime(origin, Live(q, es[0]), es[1..]);
      if es[0].Generate? {
        OneMoreOutput(origin, q.outputs, es[0].t);
      }
    }
  }

  /** The outputs end where they should if and only if no token came to a finished request. */
  lemma EndsExactly(origin: Req, es: seq<LifeEvent>)
    requires Newborn(origin) && IsLife(origin, es)
    ensures Exact(origin, LiveAll(origin, es).outputs) <==> OnTime(origin, es)
  {
    ExactOnTime(origin, origin, es);
  }

  lemma {:induction false} EndedByLength(origin: Req, outputs: seq<Token>)
    requires origin.maxTokens >= 1
    ensures |outputs| >= origin.maxTokens ==> Ended(origin, outputs)
    ensures origin.sampling.ignoreEos && Ended(origin, outputs) ==> |outputs| >= origin.maxTokens
  {
    if outputs != [] {
      EndedByLength(origin, outputs[..|outputs| - 1]);
    }
  }

  /** A request on time never has more outputs than asked for; one that ignores stop words has more exactly when
      it is not on time, and on time it finishes with just as many. */
  lemma OutputsBounded(origin: Req, es: seq<LifeEvent>)
    requires Newborn(origin) && IsLife(origin, es)
    ensures var q := LiveAll(origin, es);
      && (OnTime(origin, es) ==> |q.outputs| <= origin.maxTokens)
      && (origin.sampling.ignoreEos ==> (OnTime(origin, es) <==> |q.outputs| <= origin.maxTokens))
      && (origin.sampling.ignoreEos && OnTime(origin, es) ==> (q.finished <==> |q.outputs| == origin.maxTokens))
  {
    var q := LiveAll(origin, es);
    LifeFaithful(origin, origin, es);
    EndsExactly(origin, es);
    EndedByLength(origin, q.outputs);
    if q.outputs != [] {
      EndedByLength(origin, q.outputs[..|q.outputs| - 1]);
    }
  }

  /** The overrun guard of `add_generated_token` raises at the next token exactly when there is one output too
      many already; never for a request on time. */
  lemma OverrunExactly(origin: Req, es: seq<LifeEvent>)
    requires Newborn(origin) && IsLife(origin, es)
    ensures var q := LiveAll(origin, es);
      && (Overrun(q) <==> |q.outputs| == origin.maxTokens + 1)
      && (OnTime(origin, es) ==> !Overrun(q))
      && (origin.sampling.ignoreEos ==> (Overrun(q) <==> !OnTime(origin, es)))
  {
    LifeFaithful(origin, origin, es);
    OutputsBounded(origin, es);
  }

  /** Asked for one token, executed once more after it came: two outputs, and the guard raises at a third. */
  lemma OneTokenTooMany(q: Req, t: Token)
    requires Newborn(q) && q.maxTokens == 1
    ensures var es := [Generate(t), Generate(t)];
      && IsLife(q, es) && !OnTime(q, es)
      && |LiveAll(q, es).outputs| == 2 && Overrun(LiveAll(q, es))
  {
    var es, last := [Generate(t), Generate(t)], [Generate(t)];
    var a := Live(q, es[0]);
    var b := Live(a, last[0]);
    assert es[1..] == last && last[1..] == [];
    assert IsLife(b, []) && LiveAll(b, []) == b;
    assert IsLife(a, last) && LiveAll(a, last) == b;
  }

  // ---------- how many pages it can ever need ----------

  lemma BlocksMonotone(a: nat, b: nat, blockSize: nat)
    requires blockSize > 0 && a <= b
    ensures BlocksNeeded(a, blockSize) <= BlocksNeeded(b, blockSize)
  {
    var x, y := (a + blockSize - 1) / blockSize, (b + blockSize - 1) / blockSize;
    assert a + blockSize - 1 == x * blockSize + (a + blockSize - 1) % blockSize;
    assert b + blockSize - 1 == y * blockSize + (b + blockSize - 1) % blockSize;
    MulMonotone(y + 1, x, blockSize);
    assert (y + 1) * blockSize == y * blockSize + blockSize;
  }

  /** The number of pages is the least that holds all tokens. */
  lemma BlocksExact(tokens: nat, blockSize: nat, pages: nat)
    requires blockSize > 0
    ensures pages * blockSize >= tokens <==> pages >= BlocksNeeded(tokens, blockSize)
  {
    var need := BlocksNeeded(tokens, blockSize);
    assert tokens + blockSize - 1 == need * blockSize + (tokens + blockSize - 1) % blockSize;
    MulMonotone(need, pages, blockSize);
    MulMonotone(pages + 1, need, blockSize);
    assert (pages + 1) * blockSize == pages * blockSize + blockSize;
  }

  /** `create_request` shortens a prompt that leaves no room for the output. */
  function Truncated(prompt: seq<nat>, maxTokens: int, modelLen: nat): seq<nat> {
    if |prompt| + maxTokens > modelLen then Slice(prompt, 0, modelLen - maxTokens) else prompt
  }

  /** Prompt and output fit the model exactly when the output alone does; then the prompt loses no more of its end
      than it must. */
  lemma TruncatedFits(prompt: seq<nat>, maxTokens: int, modelLen: nat)
    ensures var r := Truncated(prompt, maxTokens, modelLen);
      && r <= prompt && (|r| + maxTokens <= modelLen <==> maxTokens <= modelLen)
      && (maxTokens <= modelLen ==> r == prompt || |r| + maxTokens == modelLen)
  {
  }

  /** A token more takes a page more exactly at a page boundary. */
  lemma NextTokenFits(tokens: nat, blockSize: nat)
    requires blockSize > 0
    ensures BlocksNeeded(tokens + 1, blockSize) == BlocksNeeded(tokens, blockSize) <==> tokens % blockSize != 0
  {
    var q, r := tokens / blockSize, tokens % blockSize;
    assert tokens == q * blockSize + r;
    CeilingAt(q, r, blockSize);
    CeilingAt(q, r + 1, blockSize);
  }

  lemma CeilingAt(q: nat, r: nat, blockSize: nat)
    requires blockSize > 0 && r <= blockSize
    ensures BlocksNeeded(q * blockSize + r, blockSize) == if r == 0 then q else q + 1
  {
    var x := q * blockSize + r + blockSize - 1;
    if r == 0 {
      DivMod(q, blockSize, blockSize - 1);
    } else {
      DivMod(q + 1, blockSize, r - 1);
      assert (q + 1) * blockSize == q * blockSize + blockSize;
    }
  }

  lemma TokensOf(origin: Req, es: seq<LifeEvent>)
    requires Newborn(origin) && IsLife(origin, es)
    ensures NumTokens(LiveAll(origin, es)) == |origin.prompt| + |LiveAll(origin, es).outputs|
    ensures |LiveAll(origin, es).outputs| <= origin.maxTokens + 1
  {
    LifeFaithful(origin, origin, es);
    var q := LiveAll(origin, es);
    assert |History(q)| == |origin.prompt| + |q.outputs|;
  }

  /** A request on time never needs more pages than one of full length; no request needs more than those of one
      token more. */
  lemma BlocksBounded(origin: Req, es: seq<LifeEvent>, modelLen: nat, blockSize: nat)
    requires Newborn(origin) && IsLife(origin, es) && blockSize > 0
    requires |origin.prompt| + origin.maxTokens <= modelLen
    ensures var need := BlocksNeeded(NumTokens(LiveAll(origin, es)), blockSize);
      && need <= BlocksNeeded(modelLen + 1, blockSize)
      && (OnTime(origin, es) ==> need <= BlocksNeeded(modelLen, blockSize))
  {
    TokensOf(origin, es);
    OutputsBounded(origin, es);
    var tokens := NumTokens(LiveAll(origin, es));
    BlocksMonotone(tokens, modelLen + 1, blockSize);
    if tokens <= modelLen {
      BlocksMonotone(tokens, modelLen, blockSize);
    }
  }

  /** With no room to spare, it needs a page more exactly when it has an output too many and full pages. */
  lemma PageTooMany(origin: Req, es: seq<LifeEvent>, modelLen: nat, blockSize: nat)
    requires Newborn(origin) && IsLife(origin, es) && blockSize > 0
    requires |origin.prompt| + origin.maxTokens == modelLen
    ensures BlocksNeeded(NumTokens(LiveAll(origin, es)), blockSize) > BlocksNeeded(modelLen, blockSize) <==>
      |LiveAll(origin, es).outputs| > origin.maxTokens && modelLen % blockSize == 0
  {
    TokensOf(origin, es);
    var tokens := NumTokens(LiveAll(origin, es));
    NextTokenFits(modelLen, blockSize);
    BlocksMonotone(modelLen, modelLen + 1, blockSize);
    if tokens <= modelLen {
      BlocksMonotone(tokens, modelLen, blockSize);
    }
  }

  // ---------- prefill tiles the prompt ----------

  /** The request executes, or is given its next chunk with `extra` unused tokens of the budget, less than none
      in a batch over its budget. A request that is left out of a step, as stale ones are while the engine is
      fused, is given a chunk all the same. */
  datatype Step = Execute(t: Token) | Next(extra: int)

  /** A running request, the chunks of its prompt executed so far, and whether the current one is due. */
  datatype Prefill = Prefill(q: Req, ran: seq<(int, int)>, due: bool)

  function Advance(p: Prefill, s: Step): Prefill {
    match s
    case Execute(t) =>
      Prefill(FinishIteration(p.q, t), if InContext(p.q) then p.ran + [(p.q.begin, p.q.end)] else p.ran, false)
    case Next(extra) =>
      p.(q := if HaveFollowUp(p.q) then AllocateNextChunk(p.q, extra).0 else p.q, due := true)
  }

  function AdvanceAll(p: Prefill, ss: seq<Step>): Prefill
    decreases |ss|
  {
    if ss == [] then p else AdvanceAll(Advance(p, ss[0]), ss[1..])
  }

  /** The next chunk is chosen while the current one has not run. */
  predicate Skips(p: Prefill, s: Step) {
    s.Next? && p.due && HaveFollowUp(p.q)
  }

  /** The current chunk runs though it has run already. */
  predicate Repeats(p: Prefill, s: Step) {
    s.Execute? && !p.due && InContext(p.q)
  }

  /** The next chunk is no empty one. */
  predicate Grows(p: Prefill, s: Step) {
    s.Next? && HaveFollowUp(p.q) ==> p.q.chunk + s.extra > 0
  }

  predicate AllGrow(p: Prefill, ss: seq<Step>)
    decreases |ss|
  {
    ss == [] || (Grows(p, ss[0]) && AllGrow(Advance(p, ss[0]), ss[1..]))
  }

  predicate Clean(p: Prefill, ss: seq<Step>)
    decreases |ss|
  {
    ss == [] || (!Skips(p, ss[0]) && !Repeats(p, ss[0]) && Clean(Advance(p, ss[0]), ss[1..]))
  }

  /** Contiguous, disjoint, non-empty chunks from 0 up to `upto`. */
  ghost predicate Tiles(ran: seq<(int, int)>, upto: int) {
    && (ran == [] ==> upto == 0)
    && (ran != [] ==> ran[0].0 == 0 && ran[|ran| - 1].1 == upto)
    && (forall i | 0 <= i < |ran| :: ran[i].0 < ran[i].1)
    && (forall i | 0 <= i < |ran| - 1 :: ran[i].1 == ran[i + 1].0)
  }

  /** An admitted request: first chunk chosen, nothing executed. */
  ghost predicate Admitted(p: Prefill) {
    && p.due && p.ran == [] && InContext(p.q) && p.q.begin == 0 < p.q.end <= |p.q.prompt|
    && (HaveFollowUp(p.q) ==> p.q.chunk > 0)
  }

  /** Whatever the order of the steps: the current chunk is proper, and what ran lies before what is due. */
  ghost predicate Proper(p: Prefill) {
    && 0 <= p.q.begin < p.q.end <= |p.q.prompt|
    && (HaveFollowUp(p.q) ==> p.q.chunk > 0)
    && (InContext(p.q) && !p.due ==>
          HaveFollowUp(p.q) && p.ran != [] && p.ran[|p.ran| - 1] == (p.q.begin, p.q.end))
    && (InContext(p.q) ==> forall i | 0 <= i < |p.ran| :: p.ran[i].1 <= if p.due then p.q.begin else p.q.end)
  }

  lemma AdvanceProper(p: Prefill, s: Step)
    requires Proper(p) && Grows(p, s)
    ensures Proper(Advance(p, s)) && Advance(p, s).q.prompt == p.q.prompt && p.ran <= Advance(p, s).ran
  {
  }

  lemma {:induction false} AllProper(p: Prefill, ss: seq<Step>)
    requires Proper(p) && AllGrow(p, ss)
    ensures Proper(AdvanceAll(p, ss)) && AdvanceAll(p, ss).q.prompt == p.q.prompt && p.ran <= AdvanceAll(p, ss).ran
    decreases |ss|
  {
    if ss != [] {
      AdvanceProper(p, ss[0]);
      AllProper(Advance(p, ss[0]), ss[1..]);
    }
  }

  /** How far the prompt has run. */
  function Reached(p: Prefill): int {
    if !InContext(p.q) then |p.q.prompt| else if p.due then p.q.begin else p.q.end
  }

  /** As long as no chunk is skipped or repeated, those that ran are a tiling. */
  lemma {:induction false} CleanTiles(p: Prefill, ss: seq<Step>)
    requires Proper(p) && Tiles(p.ran, Reached(p)) && Clean(p, ss) && AllGrow(p, ss)
    ensures Tiles(AdvanceAll(p, ss).ran, Reached(AdvanceAll(p, ss)))
    decreases |ss|
  {
    if ss != [] {
      AdvanceProper(p, ss[0]);
      CleanTiles(Advance(p, ss[0]), ss[1..]);
    }
  }

  // ---------- and when it does not ----------

  ghost predicate Covered(ran: seq<(int, int)>, x: int) {
    exists i :: 0 <= i < |ran| && ran[i].0 <= x < ran[i].1
  }

  lemma {:induction false} TilesCover(ran: seq<(int, int)>, upto: int, x: int)
    requires Tiles(ran, upto) && 0 <= x < upto
    ensures Covered(ran, x)
  {
    var front, last := ran[..|ran| - 1], ran[|ran| - 1];
    if x < last.0 {
      TilesCover(front, last.0, x);
      var i :| 0 <= i < |front| && front[i].0 <= x < front[i].1;
      assert ran[i] == front[i];
    }
  }

  /** Token `x` of the prompt has not run, and the current chunk starts behind it. */
  ghost predicate Lost(p: Prefill, x: int) {
    0 <= x < p.q.begin && !Covered(p.ran, x)
  }

  /** A chunk that is skipped is lost. */
  lemma SkipLoses(p: Prefill, s: Step)
    requires Proper(p) && Skips(p, s)
    ensures Lost(Advance(p, s), p.q.begin)
  {
  }

  lemma LostStays(p: Prefill, s: Step, x: int)
    requires Proper(p) && Lost(p, x) && Grows(p, s)
    ensures Lost(Advance(p, s), x)
  {
  }

  lemma {:induction false} LostForGood(p: Prefill, ss: seq<Step>, x: int)
    requires Proper(p) && Lost(p, x) && AllGrow(p, ss)
    ensures Lost(AdvanceAll(p, ss), x)
    decreases |ss|
  {
    if ss != [] {
      LostStays(p, ss[0], x);
      AdvanceProper(p, ss[0]);
      LostForGood(Advance(p, ss[0]), ss[1..], x);
    }
  }

  /** Neighbouring chunks that do not fit together. */
  ghost predicate Overlaps(ran: seq<(int, int)>) {
    exists i :: 0 <= i < |ran| - 1 && ran[i].1 != ran[i + 1].0
  }

  lemma RepeatOverlaps(p: Prefill, s: Step)
    requires Proper(p) && Repeats(p, s)
    ensures Overlaps(Advance(p, s).ran)
  {
    var i, r := |p.ran| - 1, Advance(p, s).ran;
    assert r[i].1 != r[i + 1].0;
  }

  lemma OverlapStays(a: seq<(int, int)>, b: seq<(int, int)>)
    requires Overlaps(a) && a <= b
    ensures Overlaps(b)
  {
    var i :| 0 <= i < |a| - 1 && a[i].1 != a[i + 1].0;
    assert b[i].1 != b[i + 1].0;
  }

  lemma {:induction false} UncleanFails(p: Prefill, ss: seq<Step>)
    requires Proper(p) && !Clean(p, ss) && AllGrow(p, ss)
    ensures !Tiles(AdvanceAll(p, ss).ran, |p.q.prompt|)
    decreases |ss|
  {
    var next := Advance(p, ss[0]);
    AdvanceProper(p, ss[0]);
    AllProper(next, ss[1..]);
    if Skips(p, ss[0]) {
      SkipLoses(p, ss[0]);
      LostForGood(next, ss[1..], p.q.begin);
      if Tiles(AdvanceAll(p, ss).ran, |p.q.prompt|) {
        TilesCover(AdvanceAll(p, ss).ran, |p.q.prompt|, p.q.begin);
      }
    } else if Repeats(p, ss[0]) {
      RepeatOverlaps(p, ss[0]);
      OverlapStays(next.ran, AdvanceAll(next, ss[1..]).ran);
    } else {
      UncleanFails(next, ss[1..]);
    }
  }

  /** Over steps in any order, none of them giving an empty chunk, with the first generated token there: the
      prompt has run exactly once, in order, if and only if no chunk was skipped and none repeated. */
  lemma PrefillTiles(p: Prefill, ss: seq<Step>)
    requires Admitted(p) && !InContext(AdvanceAll(p, ss).q) && AllGrow(p, ss)
    ensures Tiles(AdvanceAll(p, ss).ran, |p.q.prompt|) <==> Clean(p, ss)
  {
    if Clean(p, ss) {
      CleanTiles(p, ss);
      AllProper(p, ss);
    } else {
      UncleanFails(p, ss);
    }
  }

  lemma {:induction false} RanStays(p: Prefill, ss: seq<Step>)
    ensures p.ran <= AdvanceAll(p, ss).ran
    decreases |ss|
  {
    if ss != [] {
      RanStays(Advance(p, ss[0]), ss[1..]);
    }
  }

  /** A batch so far over its budget that nothing is left for the next chunk: once that chunk has run, what ran is
      no tiling, whatever follows. */
  lemma EmptyChunkFails(p: Prefill, extra: int, t: Token, ss: seq<Step>, upto: int)
    requires HaveFollowUp(p.q) && p.q.chunk + extra <= 0
    ensures !Tiles(AdvanceAll(Advance(Advance(p, Next(extra)), Execute(t)), ss).ran, upto)
  {
    var a := Advance(Advance(p, Next(extra)), Execute(t));
    RanStays(a, ss);
    assert a.ran[|p.ran|].0 >= a.ran[|p.ran|].1;
    assert AdvanceAll(a, ss).ran[|p.ran|] == a.ran[|p.ran|];
  }

  /** A stale request of three prompt tokens, chunk by chunk, left out of the first step: token 0 never runs. */
  lemma StalePrefillLosesToken(p: Prefill, t: Token)
    requires Admitted(p) && |p.q.prompt| == 3 && p.q.end == 1 && p.q.chunk == 1
    ensures var r := AdvanceAll(p, [Next(0), Execute(t), Next(0), Execute(t)]);
      r.ran == [(1, 2), (2, 3)] && !InContext(r.q) && !Covered(r.ran, 0)
  {
    var ss := [Next(0), Execute(t), Next(0), Execute(t)];
    var a := Advance(p, ss[0]);
    var b := Advance(a, ss[1]);
    var c := Advance(b, ss[2]);
    var d := Advance(c, ss[3]);
    assert b.ran == [(1, 2)] && d.ran == [(1, 2), (2, 3)];
    assert ss[3..][1..] == [] && AdvanceAll(d, []) == d;
    assert ss[2..][1..] == ss[3..] && AdvanceAll(c, ss[3..]) == d;
    assert ss[1..][1..] == ss[2..] && AdvanceAll(b, ss[2..]) == d;
    assert AdvanceAll(a, ss[1..]) == d;
  }

  /** The same request, executed twice before its next chunk is chosen: token 0 runs twice. */
  lemma PrefillRunsTwice(p: Prefill, t: Token)
    requires Admitted(p) && |p.q.prompt| == 2 && p.q.end == 1 && p.q.chunk == 1
    ensures var r := AdvanceAll(p, [Execute(t), Execute(t), Next(0), Execute(t)]);
      r.ran == [(0, 1), (0, 1), (1, 2)] && !InContext(r.q) && !Tiles(r.ran, 2)
  {
    var ss := [Execute(t), Execute(t), Next(0), Execute(t)];
    var a := Advance(p, ss[0]);
    var b := Advance(a, ss[1]);
    var c := Advance(b, ss[2]);
    var d := Advance(c, ss[3]);
    assert b.ran == [(0, 1), (0, 1)] && d.ran == [(0, 1), (0, 1), (1, 2)];
    assert ss[3..][1..] == [] && AdvanceAll(d, []) == d;
    assert ss[2..][1..] == ss[3..] && AdvanceAll(c, ss[3..]) == d;
    assert ss[1..][1..] == ss[2..] && AdvanceAll(b, ss[2..]) == d;
    assert AdvanceAll(a, ss[1..]) == d;
    assert d.ran[0].1 != d.ran[1].0;
  }

  /** The prompt tokens of the executed chunks, in order of execution. */
  function Fed(prompt: seq<nat>, ran: seq<(int, int)>): seq<nat> {
    if ran == [] then []
    else Fed(prompt, ran[..|ran| - 1]) + Slice(prompt, ran[|ran| - 1].0, ran[|ran| - 1].1)
  }

  /** Tiling chunks feed the model exactly the first `upto` tokens. */
  lemma {:induction false} TilesFeed(prompt: seq<nat>, ran: seq<(int, int)>, upto: int)
    requires Tiles(ran, upto) && upto <= |prompt|
    ensures 0 <= upto && Fed(prompt, ran) == prompt[..upto]
  {
    if ran != [] {
      var front, last := ran[..|ran| - 1], ran[|ran| - 1];
      TilesFeed(prompt, front, last.0);
      assert prompt[..upto] == prompt[..last.0] + prompt[last.0..upto];
    }
  }

  /** `get_block_table`: a request in its context stage passes only the pages up to its chunk. */
  function PassedPages(pages: seq<nat>, q: Req, blockSize: nat): seq<nat>
    requires blockSize > 0
  {
    if InContext(q) then Slice(pages, 0, (q.end + blockSize - 1) / blockSize) else pages
  }

  /** Whatever ran before, the pages passed are exactly those the chunk needs, all of them allocated. */
  lemma PassedExactly(p: Prefill, ss: seq<Step>, pages: seq<nat>, blockSize: nat)
    requires Admitted(p) && AllGrow(p, ss) && blockSize > 0
    requires var q := AdvanceAll(p, ss).q; InContext(q) && |pages| == BlocksNeeded(NumTokens(q), blockSize)
    ensures var q := AdvanceAll(p, ss).q;
      && q.end > 0 && |PassedPages(pages, q, blockSize)| == BlocksNeeded(q.end, blockSize)
      && PassedPages(pages, q, blockSize) <= pages
  {
    AllProper(p, ss);
    var q := AdvanceAll(p, ss).q;
    BlocksMonotone(q.end, |q.prompt|, blockSize);
  }
}

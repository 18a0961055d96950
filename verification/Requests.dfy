/** Requests: the tokens they carry, the chunk of the prompt they run next, and preemption. */
module Requests {
  import opened Paging

  /** A generated token: its id and its text. */
  datatype Token = Token(id: nat, text: string)

  datatype Sampling = Sampling(stop: seq<string>, ignoreEos: bool)

  datatype Req = Req(
    id: RequestId,
    arrival: int,
    sampling: Sampling,
    prompt: seq<nat>,
    generated: seq<Token>,
    outputs: seq<Token>,
    maxTokens: int,
    finished: bool,
    begin: int,
    end: int,
    chunk: int,
    fusion: bool,
    home: nat,
    moving: bool)

  // ---------- pure getters ----------

  function Ids(tokens: seq<Token>): (r: seq<nat>)
    ensures |r| == |tokens|
  {
    if tokens == [] then [] else Ids(tokens[..|tokens| - 1]) + [tokens[|tokens| - 1].id]
  }

  predicate InContext(q: Req) {
    |q.generated| == 0
  }

  predicate HaveFollowUp(q: Req) {
    InContext(q) && q.end < |q.prompt|
  }

  function NumTokens(q: Req): nat {
    if InContext(q) then |q.prompt| else |q.prompt| + |q.generated|
  }

  /** The tokens fed to the next step: a chunk of the prompt, or the last generated token. */
  function InputTokens(q: Req): seq<nat> {
    if InContext(q) then Slice(q.prompt, q.begin, q.end) else [q.generated[|q.generated| - 1].id]
  }

  /** Where a bound of a Python slice falls: negative ones count from the end. */
  function Bound(length: nat, i: int): (b: nat)
    ensures b <= length
  {
    if i < 0 then Max(length + i, 0) else Min(i, length)
  }

  /** Python's `list[i:j]`. */
  function Slice(p: seq<nat>, i: int, j: int): seq<nat> {
    var lo, hi := Bound(|p|, i), Bound(|p|, j);
    if lo <= hi then p[lo..hi] else []
  }

  /** Bounds within the list cut it there; negative ones count from its end, and what lies outside is cut off. */
  lemma SliceIs(p: seq<nat>, i: int, j: int)
    ensures 0 <= i <= j <= |p| ==> Slice(p, i, j) == p[i..j]
    ensures -|p| <= i < 0 ==> Slice(p, i, j) == Slice(p, |p| + i, j)
    ensures -|p| <= j < 0 ==> Slice(p, i, j) == Slice(p, i, |p| + j)
    ensures i < -|p| ==> Slice(p, i, j) == Slice(p, 0, j)
    ensures j > |p| ==> Slice(p, i, j) == Slice(p, i, |p|)
    ensures i >= |p| || j < -|p| || (0 <= j < i) ==> Slice(p, i, j) == []
  {
  }

  function Min(a: int, b: int): int {
    if a < b then a else b
  }

  function Max(a: int, b: int): int {
    if a < b then b else a
  }

  function BlocksNeeded(tokens: nat, blockSize: nat): nat
    requires blockSize > 0
  {
    (tokens + blockSize - 1) / blockSize
  }

  // ---------- updates ----------

  /** `set_chunk` for a positive size, with the tokens it leaves unused. */
  function SetChunk(q: Req, size: nat): (Req, int) {
    var end := Min(|q.prompt|, q.begin + size);
    (q.(chunk := size, end := end), size - (end - q.begin))
  }

  /** `allocate_next_chunk`; a batch over its budget has less than nothing to give. */
  function AllocateNextChunk(q: Req, extra: int): (Req, int) {
    var size := q.chunk + extra;
    var end := Min(q.end + size, |q.prompt|);
    (q.(chunk := size, begin := q.end, end := end), size - (end - q.end))
  }

  function PrepareForRecompute(q: Req): Req {
    var prompt := q.prompt + Ids(q.generated);
    q.(prompt := prompt,
       maxTokens := q.maxTokens - |q.generated|,
       generated := [],
       begin := 0,
       end := |prompt|,
       fusion := true,
       home := 0)
  }

  predicate Finishes(q: Req) {
    || |q.generated| >= q.maxTokens
    || (!q.sampling.ignoreEos && q.generated != [] && q.generated[|q.generated| - 1].text in q.sampling.stop)
  }

  /** `add_generated_token`; the code raises when more tokens exist than were asked for. */
  predicate Overrun(q: Req) {
    |q.generated| > q.maxTokens
  }

  function AddGenerated(q: Req, t: Token): Req {
    var p := q.(generated := q.generated + [t], outputs := q.outputs + [t]);
    p.(finished := q.finished || Finishes(p))
  }

  /** What `finish_one_iteration` does to one request of the batch. */
  function FinishIteration(q: Req, t: Token): Req {
    if HaveFollowUp(q) then q else AddGenerated(q, t)
  }
}

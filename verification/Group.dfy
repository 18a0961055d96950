/**
  One group of `k` instances: its managers, the requests that hold pages, and every step the engine
  can take. A fused request holds a table on all managers, a stale or restored one only on its home.

  `holder` says which engine holds a stale request, `resharding` which engines still go on resharding while
  they run: `is_resharding` is set when the group fuses and cleared only by a step that finds no stale
  request, whatever the phase is by then.
 */
module Group {
  import opened Paging
  import opened Pools
  import opened Ownership
  import opened Merging
  import opened Phases
  import opened Transfers

  datatype Phase = Initially | Balloon | Restore

  /** `fusion_exec`, `kv_fusion_rank` and `kvcache_ready` of a request that holds pages. */
  datatype Flags = Flags(fusion: bool, home: nat, ready: bool)

  /** Blocks taken for a request whose live restore waits for the forward pass. */
  datatype Flight = Flight(rank: nat, pages: seq<nat>)

  datatype Group = Group(
    n: nat,
    k: nat,
    phase: Phase,
    draining: bool,
    mgrs: seq<State>,
    reqs: map<RequestId, Flags>,
    taken: map<RequestId, Flight>,
    waiting: set<RequestId>,
    holder: map<RequestId, nat>,
    resharding: set<nat>)

  datatype Event =
    | Admit(r: RequestId, rank: nat, need: nat)
    | Grow(r: RequestId, i: nat, need: nat)
    | Release(r: RequestId)
    | BeginReshard(r: RequestId, need: nat)
    | EndReshard(r: RequestId)
    | Park(r: RequestId)
    | SwapIn(r: RequestId, rank: nat, joins: bool)
    | Look(e: nat)
    | Move(r: RequestId, e: nat)
    | Take(r: RequestId, rank: nat)
    | Complete(r: RequestId)
    | FuseReserve
    | BeginDrain
    | Drain(i: nat)
    | PackOne(r: RequestId, i: nat)
    | ToBalloon(extra: seq<nat>, holder: map<RequestId, nat>, engines: set<nat>)
    | BackToBalloon(extra: seq<nat>, holder: map<RequestId, nat>, engines: set<nat>)
    | ToRestore(quota: nat)
    | ToInitial

  // ---------- what the steps do ----------

  /** Every new stale page list of one request on the peers of its home, in order of rank. */
  function AllocatePeers(mgrs: seq<State>, r: RequestId, home: nat, need: nat, i: nat): (p: (seq<State>, bool))
    requires i <= |mgrs|
    ensures |p.0| == |mgrs|
    decreases |mgrs| - i
  {
    if i == |mgrs| then (mgrs, true)
    else if i == home then AllocatePeers(mgrs, r, home, need, i + 1)
    else match Allocate(mgrs[i], r, false, true, need)
         case None => (mgrs, false)
         case Some(t) => AllocatePeers(mgrs[i := t], r, home, need, i + 1)
  }

  function FreeOr(s: State, r: RequestId, fused: bool, onlyNew: bool): State {
    if s.fusionSize > 0 && s.numBase > 0 && Free(s, r, fused, onlyNew).Some? then Free(s, r, fused, onlyNew).value
    else s
  }

  /** Roll back: a peer that holds nothing raises, and the exception is ignored. */
  function FreePeers(mgrs: seq<State>, r: RequestId, home: nat): (p: seq<State>)
    ensures |p| == |mgrs|
  {
    seq(|mgrs|, i requires 0 <= i < |mgrs| => if i == home then mgrs[i] else FreeOr(mgrs[i], r, false, true))
  }

  /** `prepare_reshard_blocks` for one request. */
  function PreparePeers(mgrs: seq<State>, r: RequestId, home: nat, need: nat): (p: (seq<State>, bool))
    ensures |p.0| == |mgrs|
  {
    var p := AllocatePeers(mgrs, r, home, need, 0);
    if p.1 then p else (FreePeers(p.0, r, home), false)
  }

  predicate Uses(f: Flags, i: nat) {
    f.fusion || i == f.home
  }

  function AllocateOn(s: State, r: RequestId, f: Flags, i: nat, need: nat): State {
    if Uses(f, i) && Allocate(s, r, f.fusion, false, need).Some? then Allocate(s, r, f.fusion, false, need).value else s
  }

  function ReleaseOn(s: State, r: RequestId, f: Flags, i: nat): State {
    if Uses(f, i) then FreeOr(s, r, f.fusion, false) else s
  }

  /** A manager rebuilt from the data handed between engines. */
  function Rebuilt(n: nat, s: State): State {
    s.(maxGpu := n, numExtend := 0, numReserved := 0)
  }

  function Handed(n: nat, s: State, i: nat): State {
    if i == 0 then s else Rebuilt(n, s)
  }

  function SplitOne(n: nat, s: State, i: nat): State {
    if s.fusionSize > 0 && RestoreFromFusion(s).Some? then Handed(n, RestoreFromFusion(s).value, i) else s
  }

  function RestoreOne(s: State, quota: nat): State {
    if s.fusionSize > 0 && s.numBase / s.fusionSize > 0 && EnterRestore(s, quota).Some? then
      EnterRestore(s, quota).value
    else s
  }

  predicate AdmissionCheck(g: Group, rank: nat, need: nat) {
    if g.phase == Balloon then forall i | 0 <= i < |g.mgrs| :: need <= FreeCount(g.mgrs[i])
    else rank < |g.mgrs| && need <= FreeCount(g.mgrs[rank])
  }

  predicate IsStale(g: Group, r: RequestId) {
    r in g.reqs && !g.reqs[r].fusion && r in g.holder
  }

  /** A step of engine `e` finds a stale request. */
  predicate HasStale(g: Group, e: nat) {
    exists r :: r in g.reqs && IsStale(g, r) && g.holder[r] == e
  }

  /** An engine that still goes on resharding holds the request. */
  predicate Left(g: Group, r: RequestId) {
    IsStale(g, r) && g.holder[r] in g.resharding
  }

  predicate Enabled(g: Group, e: Event) {
    && |g.mgrs| == g.k && g.k > 0
    && match e
       case Admit(r, rank, need) => r !in g.reqs && rank < g.k && AdmissionCheck(g, rank, need)
       case Grow(r, i, need) => r in g.reqs && g.reqs[r].ready && r !in g.taken && r !in g.waiting && i < g.k
       case Release(r) => r in g.reqs && g.reqs[r].ready && r !in g.taken && r !in g.waiting
       case BeginReshard(r, need) =>
         r in g.reqs && !g.reqs[r].fusion && (g.phase == Balloon || (g.phase == Restore && Left(g, r)))
       case EndReshard(r) => r in g.reqs && g.reqs[r].fusion && !g.reqs[r].ready
       case Park(r) =>
         && r in g.reqs && g.reqs[r].fusion && !g.reqs[r].ready
         && forall i | 0 <= i < g.k :: Held(g.mgrs[i], r) > 0
       case SwapIn(r, rank, _) => r in g.waiting && r in g.reqs && g.reqs[r].ready && rank < g.k
       case Look(e) => true
       case Move(r, e) => g.phase != Restore && r in g.holder
       case Take(r, rank) =>
         && g.phase == Restore && r in g.reqs && g.reqs[r].fusion && r !in g.taken && r !in g.waiting
         && rank < g.k && r in g.mgrs[rank].table
       case Complete(r) => r in g.taken && g.taken[r].rank < g.k && r in g.reqs
       case FuseReserve => g.phase == Balloon
       case BeginDrain => g.phase == Balloon
       case Drain(i) => g.phase == Balloon && g.draining && i < g.k
       case PackOne(r, i) =>
         && g.phase == Balloon && g.draining && i < g.k
         && r in g.reqs && g.reqs[r].fusion && g.reqs[r].ready && r !in g.waiting && r in g.mgrs[i].table
       case ToBalloon(extra, holder, engines) =>
         g.phase == Initially && |extra| == g.k && forall r | r in g.reqs && !g.reqs[r].fusion :: r in holder
       case BackToBalloon(extra, holder, engines) =>
         && g.phase == Restore && g.taken == map[] && |extra| == g.k
         && forall r | r in g.reqs && !g.reqs[r].fusion :: r in holder
       case ToRestore(quota) =>
         && g.phase == Balloon && g.draining
         && (forall i | 0 <= i < g.k :: g.mgrs[i].numExtend == 0)
         && (forall r | r in g.reqs :: g.reqs[r].ready)
       case ToInitial => g.phase == Restore && forall r | r in g.reqs :: !g.reqs[r].fusion
  }

  /**
    The check on the way back from the waiting queue overwrites where the request is to run, whether the
    request joins the batch or not. The first step of an engine in RESTORE begins with a look for stale
    requests, before anything that concerns the engine; entering RESTORE takes that look for all of them.
   */
  function Apply(g: Group, e: Event): Group
    requires Enabled(g, e)
  {
    match e
    case Admit(r, rank, need) =>
      var f := Flags(g.phase == Balloon, rank, true);
      g.(mgrs := seq(g.k, i requires 0 <= i < g.k => AllocateOn(g.mgrs[i], r, f, i, need)), reqs := g.reqs[r := f])
    case Grow(r, i, need) =>
      g.(mgrs := g.mgrs[i := AllocateOn(g.mgrs[i], r, g.reqs[r], i, need)])
    case Release(r) =>
      g.(mgrs := seq(g.k, i requires 0 <= i < g.k => ReleaseOn(g.mgrs[i], r, g.reqs[r], i)), reqs := g.reqs - {r})
    case BeginReshard(r, need) =>
      var f := g.reqs[r];
      var p := PreparePeers(g.mgrs, r, f.home, need);
      g.(mgrs := p.0, reqs := if p.1 then g.reqs[r := Flags(true, f.home, false)] else g.reqs)
    case EndReshard(r) =>
      var f := g.reqs[r];
      if f.home < g.k && FreeExcept(g.mgrs[f.home], r, g.k, f.home).Some? then
        g.(mgrs := g.mgrs[f.home := FreeExcept(g.mgrs[f.home], r, g.k, f.home).value],
           reqs := g.reqs[r := Flags(true, f.home, true)])
      else g
    case Park(r) => g.(waiting := g.waiting + {r})
    case SwapIn(r, rank, joins) =>
      g.(reqs := g.reqs[r := Flags(g.phase == Balloon, rank, true)],
         waiting := if joins then g.waiting - {r} else g.waiting)
    case Look(e) => if HasStale(g, e) then g else g.(resharding := g.resharding - {e})
    case Move(r, e) => g.(holder := g.holder[r := e])
    case Take(r, rank) =>
      var (t, blocks) := TakeBlocks(g.mgrs[rank], Held(g.mgrs[rank], r));
      if blocks == [] then g
      else g.(mgrs := g.mgrs[rank := t], taken := g.taken[r := Flight(rank, blocks)])
    case Complete(r) =>
      var flight := g.taken[r];
      var freed := seq(g.k, i requires 0 <= i < g.k => FreeOr(g.mgrs[i], r, true, false));
      g.(mgrs := freed[flight.rank := Install(freed[flight.rank], r, flight.pages)],
         reqs := g.reqs[r := Flags(false, flight.rank, true)],
         taken := g.taken - {r})
    case FuseReserve =>
      g.(mgrs := seq(g.k, i requires 0 <= i < g.k =>
           if g.mgrs[i].fusionSize > 0 then ConvertAllReserved(g.mgrs[i]) else g.mgrs[i]))
    case BeginDrain => g.(draining := true)
    case Drain(i) => g.(mgrs := g.mgrs[i := DrainTurn(g.mgrs[i])])
    case PackOne(r, i) =>
      if Pack(g.mgrs[i], r).Some? then g.(mgrs := g.mgrs[i := Pack(g.mgrs[i], r).value]) else g
    case ToBalloon(extra, holder, engines) =>
      g.(phase := Balloon,
         draining := false,
         holder := holder,
         resharding := engines,
         mgrs := seq(g.k, i requires 0 <= i < g.k =>
           var s := Handed(g.n, g.mgrs[i], i);
           if s.maxGpu >= 0 then AddExtend(ConvertToPipeline(s, g.k), extra[i]) else s))
    case BackToBalloon(extra, holder, engines) =>
      g.(phase := Balloon,
         draining := false,
         holder := holder,
         resharding := engines,
         mgrs := seq(g.k, i requires 0 <= i < g.k =>
           var s := g.mgrs[i];
           if s.maxGpu + s.maxReserved / g.k >= 0 then AddExtend(ConvertWithReserve(s, g.k), extra[i]) else s))
    case ToRestore(quota) =>
      g.(phase := Restore,
         draining := false,
         resharding := (set e | e in g.resharding && HasStale(g, e)),
         mgrs := seq(g.k, i requires 0 <= i < g.k => RestoreOne(g.mgrs[i], quota)))
    case ToInitial =>
      g.(phase := Initially,
         mgrs := seq(g.k, i requires 0 <= i < g.k => SplitOne(g.n, g.mgrs[i], i)))
  }

  function Start(n: nat, k: nat): Group {
    Group(n, k, Initially, false, seq(k, i => Initial(n)), map[], map[], {}, map[], {})
  }

  // ---------- the invariant ----------

  ghost predicate Sized(g: Group) {
    g.n > 0 && g.k > 0 && |g.mgrs| == g.k
  }

  ghost function Geo(g: Group): Geometry
    requires Sized(g)
  {
    if g.phase == Initially then Geometry(g.n, 1) else Geometry(g.n, g.k)
  }

  ghost function OutOf(taken: map<RequestId, Flight>, i: nat): Tables {
    map r | r in taken && taken[r].rank == i :: Slot(Whole, taken[r].pages)
  }

  /** The format in which manager `i` must hold the pages of a request with flags `f`. */
  ghost function Expected(f: Flags, i: nat): Option<Format> {
    if f.fusion then Some(if !f.ready && i == f.home then Whole else Cell)
    else if i == f.home then Some(Whole) else None
  }

  ghost function Wanted(reqs: map<RequestId, Flags>, r: RequestId, i: nat): Option<Format> {
    if r in reqs then Expected(reqs[r], i) else None
  }

  ghost function FormatOf(s: State, r: RequestId): Option<Format> {
    if r in s.table then Some(s.table[r].format) else None
  }

  ghost predicate Placed(reqs: map<RequestId, Flags>, s: State, i: nat) {
    forall r: RequestId :: FormatOf(s, r) == Wanted(reqs, r, i)
  }

  ghost predicate FlagsOk(g: Group, f: Flags) {
    && f.home < g.k
    && (g.phase == Initially ==> !f.fusion)
    && (!f.ready ==> g.phase == Balloon && f.fusion)
  }

  ghost predicate FlightOk(g: Group, r: RequestId, flight: Flight) {
    && g.phase == Restore && flight.rank < |g.mgrs|
    && r in g.reqs && g.reqs[r].fusion && g.reqs[r].ready
    && |flight.pages| == Held(g.mgrs[flight.rank], r)
  }

  /** One manager, seen from the group. */
  ghost predicate ManagerOk(g: Group, i: nat)
    requires Sized(g) && i < g.k
  {
    var s := g.mgrs[i];
    && Sound(Geo(g), s, OutOf(g.taken, i), g.draining)
    && s.isFusion == (g.phase == Balloon)
    && (g.phase == Initially ==> s.reserved == [] && s.maxReserved == 0 && s.maxGpu == g.n)
    && Placed(g.reqs, s, i)
  }

  ghost predicate RequestsOk(g: Group) {
    && (forall r | r in g.reqs :: FlagsOk(g, g.reqs[r]))
    && (forall r | r in g.taken :: FlightOk(g, r, g.taken[r]))
  }

  /** Requests wait for their reshard to finish during BALLOON only. */
  ghost predicate WaitingOk(g: Group) {
    forall r | r in g.waiting :: g.phase == Balloon && r in g.reqs && g.reqs[r].fusion
  }

  /** After BALLOON nobody goes on resharding. */
  ghost predicate Calm(g: Group) {
    g.phase != Balloon ==> g.resharding == {}
  }

  /** No engine has work left that RESTORE would spoil: nobody waits, and no engine that still goes on resharding
      holds a stale request. */
  predicate AtRest(g: Group) {
    g.waiting == {} && forall r | r in g.reqs :: !Left(g, r)
  }

  ghost predicate Safe(g: Group) {
    Sized(g) && RequestsOk(g) && WaitingOk(g) && Calm(g) && forall i | 0 <= i < g.k :: ManagerOk(g, i)
  }
}

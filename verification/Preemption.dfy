/** Pages for the running requests of one engine, evicting requests while they do not suffice. */
module Preemption {
  import opened Paging
  import opened Counting
  import opened Pools
  import opened Ownership
  import opened Requests
  import opened Group
  import opened GroupSafety
  import opened Runs
  import opened LiveRestore
  import opened Prefill
  import opened PrefillRuns
  import opened Admission
  import Reshard

  // ---------- what the loop does ----------

  /** `_allocate_blocks` from manager `i` on; `false` when one of them raises, which ends it. */
  function GrowOn(mgrs: seq<State>, q: Req, need: nat, i: nat): (p: (seq<State>, bool))
    requires i <= |mgrs|
    ensures |p.0| == |mgrs|
    decreases |mgrs| - i
  {
    if i == |mgrs| then (mgrs, true)
    else if !Uses(FlagsOf(q), i) then GrowOn(mgrs, q, need, i + 1)
    else match Allocate(mgrs[i], q.id, q.fusion, false, need)
         case None => (mgrs, false)
         case Some(t) => GrowOn(mgrs[i := t], q, need, i + 1)
  }

  function Need(blockSize: nat, q: Req): nat
    requires blockSize > 0
  {
    BlocksNeeded(NumTokens(q), blockSize)
  }

  /** The managers, and the first request from `j` on whose pages did not come. */
  function GrowAll(blockSize: nat, mgrs: seq<State>, running: seq<Req>, j: nat): (p: (seq<State>, nat))
    requires blockSize > 0 && j <= |running|
    ensures |p.0| == |mgrs| && j <= p.1 <= |running|
    decreases |running| - j
  {
    if j == |running| then (mgrs, j)
    else
      var (m, ok) := GrowOn(mgrs, running[j], Need(blockSize, running[j]), 0);
      if ok then GrowAll(blockSize, m, running, j + 1) else (m, j)
  }

  predicate Eligible(q: Req, fusion: bool, rank: nat) {
    !q.moving && !InContext(q) && q.fusion == fusion && (fusion || q.home == rank)
  }

  /** `get_latest_running_request`. */
  function Victim(running: seq<Req>, fusion: bool, rank: nat): (v: Option<nat>)
    ensures v.Some? ==> v.value < |running| && Eligible(running[v.value], fusion, rank)
    ensures v.Some? ==> forall i | v.value < i < |running| :: !Eligible(running[i], fusion, rank)
    ensures v.None? ==> forall i | 0 <= i < |running| :: !Eligible(running[i], fusion, rank)
  {
    if running == [] then None
    else if Eligible(running[|running| - 1], fusion, rank) then Some(|running| - 1)
    else Victim(running[..|running| - 1], fusion, rank)
  }

  function ReleaseAll(mgrs: seq<State>, q: Req): (r: seq<State>)
    ensures |r| == |mgrs|
  {
    seq(|mgrs|, i requires 0 <= i < |mgrs| => ReleaseOn(mgrs[i], q.id, FlagsOf(q), i))
  }

  datatype Outcome = Outcome(mgrs: seq<State>, running: seq<Req>, queue: seq<Req>, ok: bool)

  /** Step 1 of `_get_next_batch`. */
  function AllocateRunning(blockSize: nat, mgrs: seq<State>, running: seq<Req>, queue: seq<Req>): Outcome
    requires blockSize > 0
    decreases |running|
  {
    var (m, j) := GrowAll(blockSize, mgrs, running, 0);
    if j == |running| then Outcome(m, running, queue, true)
    else
      match Victim(running, running[j].fusion, running[j].home)
      case None => Outcome(m, running, queue, false)
      case Some(v) =>
        AllocateRunning(blockSize, ReleaseAll(m, running[v]), Without(running, v),
                        [PrepareForRecompute(running[v])] + queue)
  }

  // ---------- the group while it runs ----------

  ghost predicate Tracked(blockSize: nat, g: Group, q: Req)
    requires blockSize > 0 && Sized(g)
  {
    && q.id in g.reqs && g.reqs[q.id] == FlagsOf(q) && q.id !in g.taken && q.id !in g.waiting
    && forall i | 0 <= i < g.k && Uses(FlagsOf(q), i) :: Held(g.mgrs[i], q.id) <= Need(blockSize, q)
  }

  ghost predicate DistinctIds(running: seq<Req>) {
    forall i, j | 0 <= i < j < |running| :: running[i].id != running[j].id
  }

  /** The running requests are known, none has more pages than its tokens need, none is being restored. */
  ghost predicate RunningIn(blockSize: nat, g: Group, running: seq<Req>) {
    && blockSize > 0 && Safe(g) && DistinctIds(running)
    && forall i | 0 <= i < |running| :: Tracked(blockSize, g, running[i])
  }

  /** The pool it draws from on manager `i` has fewer pages than the request lacks. */
  ghost predicate Short(blockSize: nat, g: Group, q: Req, i: nat)
    requires blockSize > 0 && i < |g.mgrs|
  {
    Uses(FlagsOf(q), i) && Need(blockSize, q) > Held(g.mgrs[i], q.id) + |PoolFor(g.mgrs[i], q.fusion, false)|
  }

  /** Some manager the request uses has too few pages for it. */
  ghost predicate Starved(blockSize: nat, g: Group, q: Req)
    requires blockSize > 0
  {
    exists i :: 0 <= i < |g.mgrs| && Short(blockSize, g, q, i)
  }

  lemma TrackedKept(blockSize: nat, g: Group, h: Group, q: Req)
    requires blockSize > 0 && Sized(g) && Tracked(blockSize, g, q)
    requires Reshard.Kept(g, h, q.id) && h.taken == g.taken && h.waiting == g.waiting
    ensures Tracked(blockSize, h, q)
  {
    forall i | 0 <= i < g.k ensures Held(h.mgrs[i], q.id) == Held(g.mgrs[i], q.id) {
      assert SameTable(g.mgrs[i], h.mgrs[i], q.id);
    }
  }

  /** One manager gives the request what it lacks. */
  lemma GrowOne(blockSize: nat, g: Group, q: Req, i: nat) returns (h: Group)
    requires blockSize > 0 && Safe(g) && Tracked(blockSize, g, q) && i < g.k && Uses(FlagsOf(q), i)
    requires Allocate(g.mgrs[i], q.id, q.fusion, false, Need(blockSize, q)).Some?
    ensures Onward(g, h) && h.reqs == g.reqs
    ensures h.mgrs == g.mgrs[i := Allocate(g.mgrs[i], q.id, q.fusion, false, Need(blockSize, q)).value]
    ensures Held(h.mgrs[i], q.id) == Need(blockSize, q) && Tracked(blockSize, h, q)
    ensures forall p | p != q.id :: Reshard.Kept(g, h, p)
  {
    var need := Need(blockSize, q);
    h := Apply(g, Grow(q.id, i, need));
    GrowSafe(g, q.id, i, need);
    AllocateEffect(g.mgrs[i], q.id, q.fusion, false, need);
    forall p | p != q.id ensures Reshard.Kept(g, h, p) {
      AllocateOther(g.mgrs[i], q.id, FlagsOf(q), i, need, p);
    }
  }

  lemma PrefixOneLess(a: seq<State>, b: seq<State>, i: nat)
    requires i < |a| && i < |b| && a[..i + 1] == b[..i + 1]
    ensures a[..i] == b[..i] && a[i] == b[i]
  {
    assert a[..i] == a[..i + 1][..i] && b[..i] == b[..i + 1][..i];
    assert a[i] == a[..i + 1][i] && b[i] == b[..i + 1][i];
  }

  lemma AllKeptTrans(g: Group, mid: Group, h: Group, r: RequestId)
    requires forall p | p != r :: Reshard.Kept(g, mid, p) && Reshard.Kept(mid, h, p)
    ensures forall p | p != r :: Reshard.Kept(g, h, p)
  {
    forall p | p != r ensures Reshard.Kept(g, h, p) {
      Reshard.KeptTrans(g, mid, h, p);
    }
  }

  lemma {:induction false} GrowOnSafe(blockSize: nat, g: Group, q: Req, i: nat) returns (h: Group)
    requires blockSize > 0 && Safe(g) && Tracked(blockSize, g, q) && i <= g.k
    ensures var p := GrowOn(g.mgrs, q, Need(blockSize, q), i);
      && h.mgrs == p.0
      && (p.1 ==> forall j | i <= j < g.k && Uses(FlagsOf(q), j) :: Held(h.mgrs[j], q.id) == Need(blockSize, q))
      && (!p.1 ==> Starved(blockSize, h, q))
    ensures Onward(g, h) && h.reqs == g.reqs && Tracked(blockSize, h, q) && h.mgrs[..i] == g.mgrs[..i]
    ensures forall p | p != q.id :: Reshard.Kept(g, h, p)
    decreases g.k - i
  {
    h := g;
    if i < g.k {
      var need := Need(blockSize, q);
      if !Uses(FlagsOf(q), i) {
        h := GrowOnSafe(blockSize, g, q, i + 1);
        assert h.mgrs[..i] == h.mgrs[..i + 1][..i];
      } else {
        AllocateExactly(g.mgrs[i], q.id, q.fusion, false, need);
      }
      if Uses(FlagsOf(q), i) && Allocate(g.mgrs[i], q.id, q.fusion, false, need).Some? {
        var mid := GrowOne(blockSize, g, q, i);
        h := GrowOnSafe(blockSize, mid, q, i + 1);
        PrefixOneLess(h.mgrs, mid.mgrs, i);
        AllKeptTrans(g, mid, h, q.id);
      } else if Uses(FlagsOf(q), i) {
        assert Short(blockSize, g, q, i);
      }
    }
  }

  /** Who holds exactly the pages needed gets no others. */
  lemma ProvidedAt(blockSize: nat, g: Group, q: Req, i: nat)
    requires Safe(g) && Provided(blockSize, g, q) && i < g.k && Uses(FlagsOf(q), i)
    ensures Allocate(g.mgrs[i], q.id, q.fusion, false, Need(blockSize, q)) == Some(g.mgrs[i])
  {
    assert ManagerOk(g, i);
    assert FormatOf(g.mgrs[i], q.id) == Wanted(g.reqs, q.id, i);
  }

  lemma {:induction false} ProvidedGrows(blockSize: nat, g: Group, q: Req, i: nat)
    requires Safe(g) && Provided(blockSize, g, q) && i <= g.k
    ensures GrowOn(g.mgrs, q, Need(blockSize, q), i) == (g.mgrs, true)
    decreases g.k - i
  {
    if i < g.k {
      if Uses(FlagsOf(q), i) {
        ProvidedAt(blockSize, g, q, i);
        assert g.mgrs[i := g.mgrs[i]] == g.mgrs;
      }
      ProvidedGrows(blockSize, g, q, i + 1);
    }
  }

  /** One request of the batch after another gets its pages, up to the first that does not. */
  lemma GrowNext(blockSize: nat, g: Group, running: seq<Req>, j: nat) returns (h: Group)
    requires RunningIn(blockSize, g, running) && j < |running|
    ensures var p := GrowOn(g.mgrs, running[j], Need(blockSize, running[j]), 0);
      && h.mgrs == p.0
      && (if p.1 then Provided(blockSize, h, running[j]) else Starved(blockSize, h, running[j]))
    ensures Onward(g, h) && h.reqs == g.reqs && RunningIn(blockSize, h, running)
    ensures forall p | p != running[j].id :: Reshard.Kept(g, h, p)
    ensures forall i | 0 <= i < |running| && Provided(blockSize, g, running[i]) :: Provided(blockSize, h, running[i])
  {
    h := GrowOnSafe(blockSize, g, running[j], 0);
    forall i | 0 <= i < |running| && i != j ensures Tracked(blockSize, h, running[i]) {
      TrackedKept(blockSize, g, h, running[i]);
    }
    forall i | 0 <= i < |running| && Provided(blockSize, g, running[i]) ensures Provided(blockSize, h, running[i]) {
      if i == j {
        ProvidedGrows(blockSize, g, running[j], 0);
      } else {
        ProvidedKept(blockSize, g, h, running[i]);
      }
    }
  }

  lemma {:induction false} GrowAllSafe(blockSize: nat, g: Group, running: seq<Req>, j: nat) returns (h: Group)
    requires RunningIn(blockSize, g, running) && j <= |running|
    requires forall i | 0 <= i < j :: Provided(blockSize, g, running[i])
    ensures var p := GrowAll(blockSize, g.mgrs, running, j);
      && h.mgrs == p.0
      && (p.1 == |running| ==> forall i | 0 <= i < |running| :: Provided(blockSize, h, running[i]))
      && (p.1 < |running| ==> Starved(blockSize, h, running[p.1]))
    ensures Onward(g, h) && h.reqs == g.reqs && RunningIn(blockSize, h, running)
    ensures forall p | (forall i | 0 <= i < |running| :: running[i].id != p) :: Reshard.Kept(g, h, p)
    ensures forall i | 0 <= i < |running| && Provided(blockSize, g, running[i]) :: Provided(blockSize, h, running[i])
    decreases |running| - j
  {
    h := g;
    if j < |running| {
      var mid := GrowNext(blockSize, g, running, j);
      h := mid;
      if GrowOn(g.mgrs, running[j], Need(blockSize, running[j]), 0).1 {
        h := GrowAllSafe(blockSize, mid, running, j + 1);
        forall p | (forall i | 0 <= i < |running| :: running[i].id != p) ensures Reshard.Kept(g, h, p) {
          Reshard.KeptTrans(g, mid, h, p);
        }
      }
    }
  }

  /** The evicted request holds no page on any manager, the others keep what they had. */
  lemma EvictSafe(blockSize: nat, g: Group, running: seq<Req>, v: nat) returns (h: Group)
    requires RunningIn(blockSize, g, running) && v < |running|
    ensures h.mgrs == ReleaseAll(g.mgrs, running[v]) && h.reqs == g.reqs - {running[v].id}
    ensures Onward(g, h) && RunningIn(blockSize, h, Without(running, v))
    ensures forall p | p != running[v].id :: Reshard.Kept(g, h, p)
  {
    var q := running[v];
    h := Apply(g, Release(q.id));
    ReleaseSafe(g, q.id);
    assert h.mgrs == ReleaseAll(g.mgrs, q);
    forall p | p != q.id ensures Reshard.Kept(g, h, p) {
      forall i | 0 <= i < g.k ensures SameTable(g.mgrs[i], h.mgrs[i], p) {
        ReleaseOther(g, q.id, i, p);
      }
    }
    var rest := Without(running, v);
    forall i | 0 <= i < |rest| ensures Tracked(blockSize, h, rest[i]) {
      TrackedKept(blockSize, g, h, rest[i]);
    }
  }

  // ---------- who is evicted ----------

  ghost predicate SameKind(s: State, q: RequestId, v: RequestId) {
    q in s.table && v in s.table && s.table[q].format == s.table[v].format
  }

  /** On some manager both hold pages of one kind, so that what one gives back the other can be given. */
  ghost predicate Competes(g: Group, q: Req, v: Req) {
    exists i :: 0 <= i < |g.mgrs| && SameKind(g.mgrs[i], q.id, v.id)
  }

  /** Evicting `v`, which has left its context stage and does not move, gives back pages of the kind `q` needs. */
  ghost predicate Evictable(g: Group, q: Req, v: Req) {
    !v.moving && v.generated != [] && Competes(g, q, v)
  }

  /** Two requests compete exactly when both are fused, or both normal on one instance. */
  lemma CompetesExactly(blockSize: nat, g: Group, q: Req, v: Req)
    requires blockSize > 0 && Safe(g) && Tracked(blockSize, g, q) && Tracked(blockSize, g, v)
    ensures Competes(g, q, v) <==> v.fusion == q.fusion && (v.fusion || v.home == q.home)
  {
    forall i | 0 <= i < g.k
      ensures FormatOf(g.mgrs[i], q.id) == Expected(FlagsOf(q), i)
      ensures FormatOf(g.mgrs[i], v.id) == Expected(FlagsOf(v), i)
    {
      assert ManagerOk(g, i);
      assert FormatOf(g.mgrs[i], q.id) == Wanted(g.reqs, q.id, i);
      assert FormatOf(g.mgrs[i], v.id) == Wanted(g.reqs, v.id, i);
    }
    assert FlagsOk(g, g.reqs[q.id]) && FlagsOk(g, g.reqs[v.id]);
    if v.fusion == q.fusion && (v.fusion || v.home == q.home) {
      assert SameKind(g.mgrs[q.home], q.id, v.id);
    }
  }

  /** The victim is the last request that left its context stage, does not move, and is fused like the starving one
      or normal on the same instance; there is none only if no such request is left. */
  lemma VictimFields(running: seq<Req>, fusion: bool, home: nat)
    ensures var v := Victim(running, fusion, home);
      && (v.Some? ==>
            && v.value < |running|
            && var q := running[v.value];
               !q.moving && q.generated != [] && q.fusion == fusion && (fusion || q.home == home))
      && forall i | 0 <= i < |running| && (v.Some? ==> v.value < i) ::
           running[i].moving || running[i].generated == [] || running[i].fusion != fusion
           || (!fusion && running[i].home != home)
  {
  }

  /** For a request of the batch the victim is the last one whose eviction gives back pages of the kind it needs. */
  lemma VictimExactly(blockSize: nat, g: Group, running: seq<Req>, j: nat)
    requires RunningIn(blockSize, g, running) && j < |running|
    ensures var v := Victim(running, running[j].fusion, running[j].home);
      && (v.Some? ==> v.value < |running| && Evictable(g, running[j], running[v.value]))
      && forall i | 0 <= i < |running| && (v.Some? ==> v.value < i) :: !Evictable(g, running[j], running[i])
  {
    VictimFields(running, running[j].fusion, running[j].home);
    forall i | 0 <= i < |running|
      ensures Competes(g, running[j], running[i]) <==>
        running[i].fusion == running[j].fusion && (running[i].fusion || running[i].home == running[j].home)
    {
      CompetesExactly(blockSize, g, running[j], running[i]);
    }
  }

  // ---------- the whole loop ----------

  function Recomputed(victims: seq<Req>): (r: seq<Req>)
    ensures |r| == |victims| && forall i | 0 <= i < |r| :: r[i] == PrepareForRecompute(victims[i])
  {
    if victims == [] then [] else [PrepareForRecompute(victims[0])] + Recomputed(victims[1..])
  }

  lemma RecomputedPush(victims: seq<Req>, v: Req)
    ensures Recomputed(victims + [v]) == Recomputed(victims) + [PrepareForRecompute(v)]
  {
    if victims == [] {
      assert [v][1..] == [];
    } else {
      RecomputedPush(victims[1..], v);
      assert (victims + [v])[1..] == victims[1..] + [v];
    }
  }

  ghost predicate Has(reqs: seq<Req>, r: RequestId) {
    exists i :: 0 <= i < |reqs| && reqs[i].id == r
  }

  /** Requests with output, none of them moving, that the group no longer knows: no manager has a page of theirs. */
  ghost predicate Evicted(g: Group, victims: seq<Req>) {
    Sized(g) && forall i | 0 <= i < |victims| ::
      && !victims[i].moving && !InContext(victims[i]) && victims[i].id !in g.reqs
      && forall m | 0 <= m < g.k :: victims[i].id !in g.mgrs[m].table
  }

  lemma UnknownHoldsNothing(g: Group, r: RequestId)
    requires Safe(g) && r !in g.reqs
    ensures forall m | 0 <= m < g.k :: r !in g.mgrs[m].table
  {
    forall m | 0 <= m < g.k ensures r !in g.mgrs[m].table {
      assert ManagerOk(g, m);
      assert FormatOf(g.mgrs[m], r) == Wanted(g.reqs, r, m);
    }
  }

  lemma WithoutPlus(running: seq<Req>, v: nat)
    requires v < |running|
    ensures multiset(Without(running, v)) + multiset{running[v]} == multiset(running)
  {
    assert running == running[..v] + [running[v]] + running[v + 1..];
  }

  lemma WithoutHas(running: seq<Req>, v: nat, r: RequestId)
    requires v < |running| && Has(Without(running, v), r)
    ensures Has(running, r)
  {
    var i :| 0 <= i < |Without(running, v)| && Without(running, v)[i].id == r;
    assert running[if i < v then i else i + 1].id == r;
  }

  /** Why the loop ended: everybody has exactly the pages needed, or somebody starves and nobody it could
      evict is left. */
  ghost predicate Settled(blockSize: nat, g: Group, o: Outcome)
    requires blockSize > 0
  {
    if o.ok then forall i | 0 <= i < |o.running| :: Provided(blockSize, g, o.running[i])
    else exists j :: 0 <= j < |o.running| && Starved(blockSize, g, o.running[j])
                  && forall i | 0 <= i < |o.running| :: !Evictable(g, o.running[j], o.running[i])
  }

  /** On the way some request of the batch starved, and `v` held pages of the kind it needed. */
  ghost predicate Relieves(blockSize: nat, g: Group, running: seq<Req>, mid: Group, q: Req, v: Req)
    requires blockSize > 0
  {
    Onward(g, mid) && q in running && v in running && Starved(blockSize, mid, q) && Evictable(mid, q, v)
  }

  ghost predicate Displaced(blockSize: nat, g: Group, running: seq<Req>, v: Req)
    requires blockSize > 0
  {
    exists mid: Group, q: Req :: Relieves(blockSize, g, running, mid, q, v)
  }

  ghost predicate AllDisplaced(blockSize: nat, g: Group, running: seq<Req>, victims: seq<Req>)
    requires blockSize > 0
  {
    forall i | 0 <= i < |victims| :: Displaced(blockSize, g, running, victims[i])
  }

  lemma DisplacedBefore(blockSize: nat, g: Group, running: seq<Req>, mid: Group, v: nat, q: Req)
    requires blockSize > 0 && Onward(g, mid) && v < |running| && Displaced(blockSize, mid, Without(running, v), q)
    ensures Displaced(blockSize, g, running, q)
  {
    var rest := Without(running, v);
    var h: Group, p: Req :| Relieves(blockSize, mid, rest, h, p, q);
    assert forall x | x in rest :: x in running;
    assert Relieves(blockSize, g, running, h, p, q);
  }

  lemma DisplacedOneMore(blockSize: nat, g: Group, running: seq<Req>, mid: Group, v: nat, more: seq<Req>)
    requires blockSize > 0 && Onward(g, mid) && v < |running| && Displaced(blockSize, g, running, running[v])
    requires AllDisplaced(blockSize, mid, Without(running, v), more)
    ensures AllDisplaced(blockSize, g, running, more + [running[v]])
  {
    var all := more + [running[v]];
    forall i | 0 <= i < |all| ensures Displaced(blockSize, g, running, all[i]) {
      if i < |more| {
        assert Displaced(blockSize, mid, Without(running, v), more[i]);
        DisplacedBefore(blockSize, g, running, mid, v, more[i]);
      }
    }
  }

  lemma EvictedStay(g: Group, h: Group, q: Req)
    requires Safe(h) && Reshard.Kept(g, h, q.id) && q.id !in g.reqs && !q.moving && !InContext(q)
    ensures Evicted(h, [q])
  {
    UnknownHoldsNothing(h, q.id);
  }

  /** Requests in their context stage hold exactly the pages their prompt needs. */
  ghost predicate ContextProvided(blockSize: nat, g: Group, running: seq<Req>) {
    forall i | 0 <= i < |running| && InContext(running[i]) :: Provided(blockSize, g, running[i])
  }

  lemma ContextLeft(blockSize: nat, g: Group, running: seq<Req>, v: nat, h: Group)
    requires v < |running| && DistinctIds(running) && ContextProvided(blockSize, g, running)
    requires forall p | p != running[v].id :: Reshard.Kept(g, h, p)
    ensures ContextProvided(blockSize, h, Without(running, v))
  {
    var rest := Without(running, v);
    forall i | 0 <= i < |rest| && InContext(rest[i]) ensures Provided(blockSize, h, rest[i]) {
      assert rest[i] == running[if i < v then i else i + 1];
      ProvidedKept(blockSize, g, h, rest[i]);
    }
  }

  /** The loop keeps the group safe. The victims, last first, are at the front of the queue with all their
      output in the prompt and hold no page; with the requests still running they are all there was, and each held
      pages of the kind some other lacked. */
  ghost predicate Resolved(blockSize: nat, g: Group, running: seq<Req>, queue: seq<Req>, h: Group, o: Outcome,
                           victims: seq<Req>)
    requires blockSize > 0 && Sized(g)
  {
    && h.mgrs == o.mgrs && Onward(g, h) && RunningIn(blockSize, h, o.running)
    && Settled(blockSize, h, o) && Evicted(h, victims)
    && AllDisplaced(blockSize, g, running, victims)
    && o.queue == Recomputed(victims) + queue
    && multiset(o.running) + multiset(victims) == multiset(running)
    && (ContextProvided(blockSize, g, running) ==> ContextProvided(blockSize, h, o.running))
    && forall p :: !Has(running, p) ==> Reshard.Kept(g, h, p)
  }

  lemma KeptOneMore(g: Group, running: seq<Req>, mid: Group, evicted: Group, v: nat, h: Group)
    requires v < |running| && forall p :: !Has(running, p) ==> Reshard.Kept(g, mid, p)
    requires forall p | p != running[v].id :: Reshard.Kept(mid, evicted, p)
    requires forall p :: !Has(Without(running, v), p) ==> Reshard.Kept(evicted, h, p)
    ensures forall p :: !Has(running, p) ==> Reshard.Kept(g, h, p)
  {
    forall p | !Has(running, p) ensures Reshard.Kept(g, h, p) {
      if Has(Without(running, v), p) {
        WithoutHas(running, v, p);
      }
      assert running[v].id != p;
      Reshard.KeptTrans(g, mid, evicted, p);
      Reshard.KeptTrans(g, evicted, h, p);
    }
  }

  lemma AllEvicted(running: seq<Req>, evicted: Group, v: nat, h: Group, more: seq<Req>)
    requires v < |running| && DistinctIds(running) && Safe(h) && Evicted(h, more)
    requires !running[v].moving && !InContext(running[v]) && running[v].id !in evicted.reqs
    requires forall p :: !Has(Without(running, v), p) ==> Reshard.Kept(evicted, h, p)
    ensures Evicted(h, more + [running[v]])
  {
    var q := running[v];
    assert !Has(Without(running, v), q.id);
    EvictedStay(evicted, h, q);
    var all := more + [q];
    forall i | 0 <= i < |all| ensures all[i] == if i < |more| then more[i] else [q][0] {
    }
  }

  lemma AllThereWas(running: seq<Req>, queue: seq<Req>, v: nat, o: Outcome, more: seq<Req>)
    requires v < |running| && o.queue == Recomputed(more) + ([PrepareForRecompute(running[v])] + queue)
    requires multiset(o.running) + multiset(more) == multiset(Without(running, v))
    ensures o.queue == Recomputed(more + [running[v]]) + queue
    ensures multiset(o.running) + multiset(more + [running[v]]) == multiset(running)
  {
    RecomputedPush(more, running[v]);
    WithoutPlus(running, v);
  }

  lemma EvictedOneMore(blockSize: nat, g: Group, running: seq<Req>, queue: seq<Req>, mid: Group, evicted: Group, v: nat,
                       h: Group, o: Outcome, more: seq<Req>)
    requires blockSize > 0 && Safe(g) && Onward(g, mid) && Onward(mid, evicted) && v < |running| && DistinctIds(running)
    requires forall p :: !Has(running, p) ==> Reshard.Kept(g, mid, p)
    requires forall p | p != running[v].id :: Reshard.Kept(mid, evicted, p)
    requires !running[v].moving && !InContext(running[v]) && running[v].id !in evicted.reqs
    requires Displaced(blockSize, g, running, running[v])
    requires ContextProvided(blockSize, g, running) ==> ContextProvided(blockSize, mid, running)
    requires Resolved(blockSize, evicted, Without(running, v), [PrepareForRecompute(running[v])] + queue, h, o, more)
    ensures Resolved(blockSize, g, running, queue, h, o, more + [running[v]])
  {
    if ContextProvided(blockSize, g, running) {
      ContextLeft(blockSize, mid, running, v, evicted);
    }
    AllThereWas(running, queue, v, o, more);
    AllEvicted(running, evicted, v, h, more);
    DisplacedOneMore(blockSize, g, running, evicted, v, more);
    KeptOneMore(g, running, mid, evicted, v, h);
  }

  lemma SettledNow(blockSize: nat, g: Group, running: seq<Req>, queue: seq<Req>, mid: Group)
    requires RunningIn(blockSize, mid, running) && Sized(g) && Onward(g, mid)
    requires forall p :: !Has(running, p) ==> Reshard.Kept(g, mid, p)
    requires ContextProvided(blockSize, g, running) ==> ContextProvided(blockSize, mid, running)
    requires var p := GrowAll(blockSize, g.mgrs, running, 0);
      && mid.mgrs == p.0
      && if p.1 == |running| then forall i | 0 <= i < |running| :: Provided(blockSize, mid, running[i])
         else Starved(blockSize, mid, running[p.1]) && Victim(running, running[p.1].fusion, running[p.1].home).None?
    ensures Resolved(blockSize, g, running, queue, mid, AllocateRunning(blockSize, g.mgrs, running, queue), [])
  {
    var j := GrowAll(blockSize, g.mgrs, running, 0).1;
    if j < |running| {
      VictimExactly(blockSize, mid, running, j);
    }
  }

  lemma {:induction false} AllocateRunningSafe(blockSize: nat, g: Group, running: seq<Req>, queue: seq<Req>)
    returns (h: Group, victims: seq<Req>)
    requires RunningIn(blockSize, g, running)
    ensures Resolved(blockSize, g, running, queue, h, AllocateRunning(blockSize, g.mgrs, running, queue), victims)
    decreases |running|
  {
    var mid := GrowAllSafe(blockSize, g, running, 0);
    var j := GrowAll(blockSize, g.mgrs, running, 0).1;
    h, victims := mid, [];
    if j == |running| || Victim(running, running[j].fusion, running[j].home).None? {
      SettledNow(blockSize, g, running, queue, mid);
    } else {
      var v := Victim(running, running[j].fusion, running[j].home).value;
      var rest, back := Without(running, v), [PrepareForRecompute(running[v])] + queue;
      var evicted := EvictSafe(blockSize, mid, running, v);
      VictimExactly(blockSize, mid, running, j);
      assert Relieves(blockSize, g, running, mid, running[j], running[v]);
      var more;
      h, more := AllocateRunningSafe(blockSize, evicted, rest, back);
      var o := AllocateRunning(blockSize, evicted.mgrs, rest, back);
      EvictedOneMore(blockSize, g, running, queue, mid, evicted, v, h, o, more);
      victims := more + [running[v]];
    }
  }

  lemma NotStarved(blockSize: nat, g: Group, q: Req)
    requires Safe(g) && Provided(blockSize, g, q)
    ensures !Starved(blockSize, g, q)
  {
    forall i | 0 <= i < g.k ensures !Short(blockSize, g, q, i) {
      assert Uses(FlagsOf(q), i) ==> Held(g.mgrs[i], q.id) == Need(blockSize, q);
    }
  }

  ghost predicate NobodyMoves(reqs: seq<Req>) {
    forall i | 0 <= i < |reqs| :: !reqs[i].moving
  }

  /** The pages always come in the end: whoever starves generates tokens, so that at least it can be evicted. */
  lemma AlwaysServed(blockSize: nat, g: Group, running: seq<Req>, queue: seq<Req>)
    requires RunningIn(blockSize, g, running) && NobodyMoves(running) && ContextProvided(blockSize, g, running)
    ensures AllocateRunning(blockSize, g.mgrs, running, queue).ok
  {
    var o := AllocateRunning(blockSize, g.mgrs, running, queue);
    var h, victims := AllocateRunningSafe(blockSize, g, running, queue);
    if !o.ok {
      var j :| 0 <= j < |o.running| && Starved(blockSize, h, o.running[j])
            && forall i | 0 <= i < |o.running| :: !Evictable(h, o.running[j], o.running[i]);
      var q := o.running[j];
      assert q in multiset(o.running);
      assert q in multiset(running);
      CompetesExactly(blockSize, h, q, q);
      assert !Evictable(h, q, q);
      NotStarved(blockSize, h, q);
    }
  }
}

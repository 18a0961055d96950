/** Resharding stale requests: reserving pages on the peers, and the loop that retries. */
module Reshard {
  import opened Paging
  import opened Pools
  import opened Ownership
  import opened Phases
  import opened Transfers
  import opened Group
  import opened GroupSafety
  import opened Runs
  import opened LiveRestore

  // ---------- one request: all or nothing ----------

  /** A peer can serve the request. */
  predicate Fits(s: State, need: nat) {
    need <= |s.fusion| + |s.extend|
  }

  lemma FitsExactly(g: Geometry, s: State, out: Tables, r: RequestId, need: nat)
    requires Shape(g, s, out) && s.isFusion && r !in s.table
    ensures Allocate(s, r, false, true, need).Some? <==> Fits(s, need)
  {
  }

  /** Same pages in every pool, possibly in another order, and nothing else changed. */
  ghost predicate SamePools(s: State, t: State) {
    && t == s.(fusion := t.fusion, extend := t.extend)
    && multiset(t.fusion) == multiset(s.fusion) && multiset(t.extend) == multiset(s.extend)
    && |t.fusion| == |s.fusion| && |t.extend| == |s.extend|
  }

  lemma AllocatedCells(g: Geometry, s: State, out: Tables, r: RequestId, need: nat) returns (m: nat, e: nat)
    requires Shape(g, s, out) && s.isFusion && r !in s.table && Fits(s, need)
    ensures m <= |s.fusion| && e <= |s.extend| && m + e == need
    ensures Allocate(s, r, false, true, need) ==
      Some(Grant(TakeCells(s, m, e), r, Cell, s.fusion[..m] + s.extend[..e]))
  {
    m, e := FusionTakes(s, r, need);
  }

  lemma Rotated<T>(p: seq<T>, m: nat)
    requires m <= |p|
    ensures multiset(p[m..] + p[..m]) == multiset(p)
  {
    assert p == p[..m] + p[m..];
  }

  lemma ReturnedCells(g: Geometry, s: State, m: nat, e: nat)
    requires PoolShape(g, s) && s.isFusion && m <= |s.fusion| && e <= |s.extend|
    ensures Below(s.fusion[..m] + s.extend[..e], s.numBase) == s.fusion[..m]
    ensures NotBelow(s.fusion[..m] + s.extend[..e], s.numBase) == s.extend[..e]
  {
    BelowConcat(s.fusion[..m], s.extend[..e], s.numBase);
    NoneAbove(s.fusion[..m], s.numBase);
    BelowAll(s.extend[..e], s.numBase);
  }

  /** Rolling back puts the pages taken at the end of the pools they came from. */
  lemma RollbackRotates(g: Geometry, s: State, out: Tables, r: RequestId, m: nat, e: nat)
    requires PoolShape(g, s) && s.isFusion && r !in s.table && m <= |s.fusion| && e <= |s.extend|
    ensures FreeOr(Grant(TakeCells(s, m, e), r, Cell, s.fusion[..m] + s.extend[..e]), r, false, true)
         == s.(fusion := s.fusion[m..] + s.fusion[..m], extend := s.extend[e..] + s.extend[..e])
  {
    var pages := s.fusion[..m] + s.extend[..e];
    var t := Grant(TakeCells(s, m, e), r, Cell, pages);
    ReturnedCells(g, s, m, e);
    ReturnCellsPools(Dropped(t, r), pages);
    assert t.table - {r} == s.table;
  }

  lemma RollbackPools(g: Geometry, s: State, out: Tables, r: RequestId, need: nat)
    requires Shape(g, s, out) && s.isFusion && r !in s.table && Fits(s, need)
    ensures Allocate(s, r, false, true, need).Some?
    ensures SamePools(s, FreeOr(Allocate(s, r, false, true, need).value, r, false, true))
  {
    var m, e := AllocatedCells(g, s, out, r, need);
    RollbackRotates(g, s, out, r, m, e);
    Rotated(s.fusion, m);
    Rotated(s.extend, e);
  }

  /** Either every peer holds exactly the pages needed, or none holds any and every pool has its pages
      back; the home manager is not touched. The first happens exactly when every peer has room. */
  lemma AllOrNothing(g: Group, r: RequestId, need: nat)
    requires Safe(g) && Enabled(g, BeginReshard(r, need))
    ensures var home := g.reqs[r].home;
      var p := PreparePeers(g.mgrs, r, home, need);
      && home < g.k && p.0[home] == g.mgrs[home]
      && (p.1 <==> forall i | 0 <= i < g.k && i != home :: Fits(g.mgrs[i], need))
      && (p.1 ==> forall i | 0 <= i < g.k && i != home ::
            FormatOf(p.0[i], r) == Some(Cell) && Held(p.0[i], r) == need && p.0[i].table - {r} == g.mgrs[i].table)
      && (!p.1 ==> forall i | 0 <= i < g.k && i != home ::
            r !in p.0[i].table && SamePools(g.mgrs[i], p.0[i]))
  {
    var home := g.reqs[r].home;
    var p := PreparePeers(g.mgrs, r, home, need);
    HomeUntouched(g, r, need);
    var end := AllocatePeersEffect(g.mgrs, r, home, need, 0);
    forall i | 0 <= i < g.k && i != home
      ensures Allocate(g.mgrs[i], r, false, true, need).Some? <==> Fits(g.mgrs[i], need)
      ensures p.1 ==>
        FormatOf(p.0[i], r) == Some(Cell) && Held(p.0[i], r) == need && p.0[i].table - {r} == g.mgrs[i].table
      ensures !p.1 ==> r !in p.0[i].table && SamePools(g.mgrs[i], p.0[i])
    {
      PreparedOnPeer(g, r, need, i, end);
    }
  }

  lemma PreparedOnPeer(g: Group, r: RequestId, need: nat, i: nat, end: nat)
    requires Safe(g) && Enabled(g, BeginReshard(r, need)) && i < g.k && i != g.reqs[r].home
    requires end <= g.k
    requires var q := AllocatePeers(g.mgrs, r, g.reqs[r].home, need, 0);
      && (q.1 <==> end == g.k)
      && (if i < end then Some(q.0[i]) == Allocate(g.mgrs[i], r, false, true, need) else q.0[i] == g.mgrs[i])
    ensures Allocate(g.mgrs[i], r, false, true, need).Some? <==> Fits(g.mgrs[i], need)
    ensures var p := PreparePeers(g.mgrs, r, g.reqs[r].home, need);
      && (p.1 ==>
            FormatOf(p.0[i], r) == Some(Cell) && Held(p.0[i], r) == need && p.0[i].table - {r} == g.mgrs[i].table)
      && (!p.1 ==> r !in p.0[i].table && SamePools(g.mgrs[i], p.0[i]))
  {
    var s := g.mgrs[i];
    assert ManagerOk(g, i);
    assert FormatOf(s, r) == Wanted(g.reqs, r, i);
    FitsExactly(Geo(g), s, OutOf(g.taken, i), r, need);
    if i < end {
      AllocateEffect(s, r, false, true, need);
      var t := Allocate(s, r, false, true, need).value;
      assert s.table[r := t.table[r]] - {r} == s.table;
      RollbackPools(Geo(g), s, OutOf(g.taken, i), r, need);
    }
  }

  // ---------- the loop over all stale requests ----------

  /** A stale request: where its pages are and how many it needs on each peer. */
  datatype Stale = Stale(id: RequestId, home: nat, need: nat)

  /** `prepare_reshard_blocks`: the managers afterwards, the requests served and the others. */
  function PrepareAll(mgrs: seq<State>, head: seq<Stale>): (p: (seq<State>, seq<Stale>, seq<Stale>))
    ensures |p.0| == |mgrs| && |p.1| + |p.2| == |head|
  {
    if head == [] then (mgrs, [], [])
    else
      var last := head[|head| - 1];
      var p := PrepareAll(mgrs, head[..|head| - 1]);
      var q := PreparePeers(p.0, last.id, last.home, last.need);
      if q.1 then (q.0, p.1 + [last], p.2) else (q.0, p.1, p.2 + [last])
  }

  function ConvertOne(s: State, r: RequestId, k: nat, rank: nat): State {
    if k > 0 && FreeExcept(s, r, k, rank).Some? then FreeExcept(s, r, k, rank).value else s
  }

  /** What `free_blocks_into_fusion_except_batched` does on manager `i`. */
  function ConvertOn(s: State, k: nat, placed: seq<Stale>, i: nat): State {
    if placed == [] then s
    else
      var last := placed[|placed| - 1];
      var t := ConvertOn(s, k, placed[..|placed| - 1], i);
      if last.home == i then ConvertOne(t, last.id, k, i) else t
  }

  function ExchangeAll(mgrs: seq<State>, placed: seq<Stale>): (r: seq<State>)
    ensures |r| == |mgrs|
  {
    seq(|mgrs|, i requires 0 <= i < |mgrs| => ConvertOn(mgrs[i], |mgrs|, placed, i))
  }

  function Batch(remaining: seq<Stale>, cap: nat): (n: nat)
    ensures n <= |remaining| && (remaining != [] ==> n > 0)
  {
    if 0 < cap < |remaining| then cap else |remaining|
  }

  /** `reshard_blocks`: the managers afterwards and the requests given up. */
  function ReshardLoop(mgrs: seq<State>, remaining: seq<Stale>, cap: nat): (seq<State>, seq<Stale>)
    decreases |remaining|
  {
    if remaining == [] then (mgrs, [])
    else
      var n := Batch(remaining, cap);
      var p := PrepareAll(mgrs, remaining[..n]);
      var rest := p.2 + remaining[n..];
      if p.1 != [] then ReshardLoop(ExchangeAll(p.0, p.1), rest, cap) else (p.0, rest)
  }

  ghost predicate DistinctStale(p: seq<Stale>) {
    forall i, j | 0 <= i < j < |p| :: p[i].id != p[j].id
  }

  ghost predicate StaleIn(g: Group, s: Stale) {
    s.id in g.reqs && g.reqs[s.id] == Flags(false, s.home, true)
  }

  ghost predicate HalfWay(g: Group, s: Stale) {
    s.id in g.reqs && g.reqs[s.id] == Flags(true, s.home, false)
  }

  /** Nothing about request `q` changed. */
  ghost predicate Kept(g: Group, h: Group, q: RequestId) {
    && Sized(g) && Sized(h) && h.k == g.k
    && (q in g.reqs <==> q in h.reqs) && (q in g.reqs ==> h.reqs[q] == g.reqs[q])
    && forall i | 0 <= i < g.k :: SameTable(g.mgrs[i], h.mgrs[i], q)
  }

  /** Every peer holds the pages needed, the home table is as before. */
  ghost predicate Served(g: Group, h: Group, s: Stale) {
    && Sized(g) && Sized(h) && h.k == g.k && HalfWay(h, s)
    && forall i | 0 <= i < g.k ::
         if i == s.home then SameTable(g.mgrs[i], h.mgrs[i], s.id)
         else FormatOf(h.mgrs[i], s.id) == Some(Cell) && Held(h.mgrs[i], s.id) == s.need
  }

  /** Fused on every manager, and at home the same pages in the same order, now as row `home`. */
  ghost predicate Converted(g: Group, h: Group, s: Stale) {
    && Sized(g) && Sized(h) && h.k == g.k
    && s.id in h.reqs && h.reqs[s.id] == Flags(true, s.home, true)
    && forall i | 0 <= i < g.k ::
         if i == s.home then
           && s.id in g.mgrs[i].table && s.id in h.mgrs[i].table
           && h.mgrs[i].table[s.id] == Slot(Cell, Row(g.mgrs[i].table[s.id].pages, g.n, s.home))
         else FormatOf(h.mgrs[i], s.id) == Some(Cell) && Held(h.mgrs[i], s.id) == s.need
  }

  ghost predicate SameGroup(g: Group, h: Group) {
    && Safe(h) && h.n == g.n && h.k == g.k && h.phase == g.phase && h.draining == g.draining
    && h.waiting == g.waiting && h.holder == g.holder && h.resharding == g.resharding
  }

  lemma PrepareOneSafe(g: Group, s: Stale) returns (h: Group)
    requires Safe(g) && g.phase == Balloon && StaleIn(g, s)
    ensures SameGroup(g, h) && h.mgrs == PreparePeers(g.mgrs, s.id, s.home, s.need).0
    ensures if PreparePeers(g.mgrs, s.id, s.home, s.need).1 then Served(g, h, s) else Kept(g, h, s.id)
    ensures forall q | q != s.id :: Kept(g, h, q)
    ensures !PreparePeers(g.mgrs, s.id, s.home, s.need).1 ==>
      && (exists i :: 0 <= i < g.k && i != s.home && !Fits(g.mgrs[i], s.need))
      && forall i | 0 <= i < g.k :: SamePools(g.mgrs[i], h.mgrs[i])
  {
    h := Apply(g, BeginReshard(s.id, s.need));
    BeginReshardSafe(g, s.id, s.need);
    AllOrNothing(g, s.id, s.need);
    forall q | q != s.id ensures Kept(g, h, q) {
      forall i | 0 <= i < g.k ensures SameTable(g.mgrs[i], h.mgrs[i], q) {
        if i != s.home && PreparePeers(g.mgrs, s.id, s.home, s.need).1 {
          assert q in h.mgrs[i].table <==> q in h.mgrs[i].table - {s.id};
        }
      }
    }
    if !PreparePeers(g.mgrs, s.id, s.home, s.need).1 {
      assert SamePools(g.mgrs[s.home], h.mgrs[s.home]);
    }
  }

  lemma ConvertOneSafe(g: Group, s: Stale) returns (h: Group)
    requires Safe(g) && g.phase == Balloon && HalfWay(g, s)
    ensures SameGroup(g, h) && s.home < g.k
    ensures h.mgrs == g.mgrs[s.home := ConvertOne(g.mgrs[s.home], s.id, g.k, s.home)]
    ensures forall q | q != s.id :: Kept(g, h, q)
    ensures h.reqs == g.reqs[s.id := Flags(true, s.home, true)]
    ensures s.id in g.mgrs[s.home].table && s.id in h.mgrs[s.home].table
    ensures h.mgrs[s.home].table[s.id] == Slot(Cell, Row(g.mgrs[s.home].table[s.id].pages, g.n, s.home))
  {
    h := Apply(g, EndReshard(s.id));
    EndReshardSafe(g, s.id);
    assert ManagerOk(g, s.home);
    GeometryOf(Geo(g), g.mgrs[s.home]);
  }

  ghost predicate Names(p: seq<Stale>, q: RequestId) {
    exists i :: 0 <= i < |p| && p[i].id == q
  }

  lemma KeptTrans(g: Group, h: Group, j: Group, q: RequestId)
    requires Kept(g, h, q) && Kept(h, j, q)
    ensures Kept(g, j, q)
  {
    forall i | 0 <= i < g.k ensures SameTable(g.mgrs[i], j.mgrs[i], q) {
      assert SameTable(g.mgrs[i], h.mgrs[i], q) && SameTable(h.mgrs[i], j.mgrs[i], q);
    }
  }

  lemma ServedKept(g: Group, h: Group, j: Group, s: Stale)
    requires Served(g, h, s) && Kept(h, j, s.id)
    ensures Served(g, j, s)
  {
    forall i | 0 <= i < g.k
      ensures if i == s.home then SameTable(g.mgrs[i], j.mgrs[i], s.id)
              else FormatOf(j.mgrs[i], s.id) == Some(Cell) && Held(j.mgrs[i], s.id) == s.need
    {
      assert SameTable(h.mgrs[i], j.mgrs[i], s.id);
    }
  }

  lemma KeptServed(g: Group, h: Group, j: Group, s: Stale)
    requires Kept(g, h, s.id) && Served(h, j, s)
    ensures Served(g, j, s)
  {
    forall i | 0 <= i < g.k
      ensures if i == s.home then SameTable(g.mgrs[i], j.mgrs[i], s.id)
              else FormatOf(j.mgrs[i], s.id) == Some(Cell) && Held(j.mgrs[i], s.id) == s.need
    {
      assert SameTable(g.mgrs[i], h.mgrs[i], s.id);
    }
  }

  ghost predicate SameSizes(g: Group, h: Group)
    requires Sized(g) && Sized(h) && h.k == g.k
  {
    forall i | 0 <= i < g.k :: |h.mgrs[i].fusion| == |g.mgrs[i].fusion| && |h.mgrs[i].extend| == |g.mgrs[i].extend|
  }

  ghost predicate NoRoom(g: Group, s: Stale) {
    exists i :: 0 <= i < |g.mgrs| && i != s.home && !Fits(g.mgrs[i], s.need)
  }

  lemma NoRoomSame(g: Group, h: Group, s: Stale)
    requires Sized(g) && Sized(h) && h.k == g.k && SameSizes(g, h)
    ensures NoRoom(g, s) <==> NoRoom(h, s)
  {
    forall i | 0 <= i < g.k ensures Fits(g.mgrs[i], s.need) <==> Fits(h.mgrs[i], s.need) {}
  }

  ghost predicate PrepareEffect(g: Group, h: Group, head: seq<Stale>, placed: seq<Stale>, unplaced: seq<Stale>) {
    && (forall i | 0 <= i < |placed| :: placed[i] in head && Served(g, h, placed[i]))
    && (forall i | 0 <= i < |unplaced| :: unplaced[i] in head && Kept(g, h, unplaced[i].id))
    && (forall i | 0 <= i < |head| :: head[i] in placed || head[i] in unplaced)
    && DistinctStale(placed) && DistinctStale(unplaced)
  }

  lemma EffectGrows(g: Group, h: Group, j: Group, head: seq<Stale>, placed: seq<Stale>, unplaced: seq<Stale>,
                    last: Stale)
    requires PrepareEffect(g, h, head, placed, unplaced) && !Names(head, last.id)
    requires forall q | q != last.id :: Kept(h, j, q)
    ensures PrepareEffect(g, j, head + [last], placed, unplaced + [last]) <== Kept(g, j, last.id)
    ensures PrepareEffect(g, j, head + [last], placed + [last], unplaced) <== Served(g, j, last)
  {
    forall i | 0 <= i < |placed| ensures placed[i].id != last.id && Served(g, j, placed[i]) {
      ServedKept(g, h, j, placed[i]);
    }
    forall i | 0 <= i < |unplaced| ensures unplaced[i].id != last.id && Kept(g, j, unplaced[i].id) {
      KeptTrans(g, h, j, unplaced[i].id);
    }
  }

  lemma NamesLast(front: seq<Stale>, last: Stale, q: RequestId)
    ensures Names(front + [last], q) <==> Names(front, q) || last.id == q
  {
    var p := front + [last];
    assert p[|front|] == last;
    if Names(front, q) {
      var i :| 0 <= i < |front| && front[i].id == q;
      assert p[i].id == q;
    }
    if Names(p, q) {
      var i :| 0 <= i < |p| && p[i].id == q;
      assert i < |front| ==> front[i].id == q;
    }
  }

  lemma KeptGrows(g: Group, h: Group, j: Group, front: seq<Stale>, last: Stale)
    requires forall q | !Names(front, q) :: Kept(g, h, q)
    requires forall q | q != last.id :: Kept(h, j, q)
    ensures forall q | !Names(front + [last], q) :: Kept(g, j, q)
  {
    forall q | !Names(front + [last], q) ensures Kept(g, j, q) {
      NamesLast(front, last, q);
      KeptTrans(g, h, j, q);
    }
  }

  ghost predicate NothingFits(g: Group, h: Group, head: seq<Stale>) {
    && Sized(g) && Sized(h) && h.k == g.k && SameSizes(g, h)
    && forall i | 0 <= i < |head| :: NoRoom(g, head[i])
  }

  lemma NothingFitsGrows(g: Group, h: Group, j: Group, front: seq<Stale>, last: Stale)
    requires NothingFits(g, h, front) && NoRoom(h, last) && Sized(j) && j.k == h.k
    requires forall i | 0 <= i < h.k :: SamePools(h.mgrs[i], j.mgrs[i])
    ensures NothingFits(g, j, front + [last])
  {
    NoRoomSame(g, h, last);
    forall i | 0 <= i < g.k
      ensures |j.mgrs[i].fusion| == |g.mgrs[i].fusion| && |j.mgrs[i].extend| == |g.mgrs[i].extend|
    {
      assert SamePools(h.mgrs[i], j.mgrs[i]);
    }
  }

  lemma {:induction false} PrepareAllSafe(g: Group, head: seq<Stale>) returns (h: Group)
    requires Safe(g) && g.phase == Balloon && DistinctStale(head)
    requires forall i | 0 <= i < |head| :: StaleIn(g, head[i])
    ensures SameGroup(g, h) && h.mgrs == PrepareAll(g.mgrs, head).0
    ensures PrepareEffect(g, h, head, PrepareAll(g.mgrs, head).1, PrepareAll(g.mgrs, head).2)
    ensures forall q | !Names(head, q) :: Kept(g, h, q)
    ensures PrepareAll(g.mgrs, head).1 == [] ==> NothingFits(g, h, head)
  {
    if head == [] {
      h := g;
    } else {
      var front, last := head[..|head| - 1], head[|head| - 1];
      var h0 := PrepareAllSafe(g, front);
      assert head == front + [last];
      assert !Names(front, last.id);
      assert Kept(g, h0, last.id);
      h := PrepareOneSafe(h0, last);
      if PreparePeers(h0.mgrs, last.id, last.home, last.need).1 {
        KeptServed(g, h0, h, last);
      } else {
        KeptTrans(g, h0, h, last.id);
        if PrepareAll(g.mgrs, front).1 == [] {
          NothingFitsGrows(g, h0, h, front, last);
        }
      }
      EffectGrows(g, h0, h, front, PrepareAll(g.mgrs, front).1, PrepareAll(g.mgrs, front).2, last);
      KeptGrows(g, h0, h, front, last);
    }
  }

  /** The home table is rewritten, the peers' tables are as before. */
  ghost predicate Finished(g: Group, h: Group, s: Stale) {
    && Sized(g) && Sized(h) && h.k == g.k && h.n == g.n
    && s.id in h.reqs && h.reqs[s.id] == Flags(true, s.home, true)
    && forall i | 0 <= i < g.k ::
         if i == s.home then
           && s.id in g.mgrs[i].table && s.id in h.mgrs[i].table
           && h.mgrs[i].table[s.id] == Slot(Cell, Row(g.mgrs[i].table[s.id].pages, g.n, s.home))
         else SameTable(g.mgrs[i], h.mgrs[i], s.id)
  }

  lemma FinishedKept(g: Group, h: Group, j: Group, s: Stale)
    requires Finished(g, h, s) && Kept(h, j, s.id) && j.n == h.n
    ensures Finished(g, j, s)
  {
    forall i | 0 <= i < g.k
      ensures if i == s.home then
           && s.id in g.mgrs[i].table && s.id in j.mgrs[i].table
           && j.mgrs[i].table[s.id] == Slot(Cell, Row(g.mgrs[i].table[s.id].pages, g.n, s.home))
         else SameTable(g.mgrs[i], j.mgrs[i], s.id)
    {
      assert SameTable(h.mgrs[i], j.mgrs[i], s.id);
    }
  }

  lemma KeptFinished(g: Group, h: Group, j: Group, s: Stale)
    requires Kept(g, h, s.id) && Finished(h, j, s) && h.n == g.n
    ensures Finished(g, j, s)
  {
    forall i | 0 <= i < g.k
      ensures if i == s.home then
           && s.id in g.mgrs[i].table && s.id in j.mgrs[i].table
           && j.mgrs[i].table[s.id] == Slot(Cell, Row(g.mgrs[i].table[s.id].pages, g.n, s.home))
         else SameTable(g.mgrs[i], j.mgrs[i], s.id)
    {
      assert SameTable(g.mgrs[i], h.mgrs[i], s.id);
    }
  }

  lemma ServedFinished(g: Group, h: Group, j: Group, s: Stale)
    requires Served(g, h, s) && Finished(h, j, s) && h.n == g.n
    ensures Converted(g, j, s)
  {
    forall i | 0 <= i < g.k
      ensures if i == s.home then
           && s.id in g.mgrs[i].table && s.id in j.mgrs[i].table
           && j.mgrs[i].table[s.id] == Slot(Cell, Row(g.mgrs[i].table[s.id].pages, g.n, s.home))
         else FormatOf(j.mgrs[i], s.id) == Some(Cell) && Held(j.mgrs[i], s.id) == s.need
    {
      assert i == s.home ==> SameTable(g.mgrs[i], h.mgrs[i], s.id);
      assert i != s.home ==> SameTable(h.mgrs[i], j.mgrs[i], s.id);
    }
  }

  lemma ExchangeStep(mgrs: seq<State>, placed: seq<Stale>)
    requires placed != [] && placed[|placed| - 1].home < |mgrs|
    ensures var last := placed[|placed| - 1];
      var before := ExchangeAll(mgrs, placed[..|placed| - 1]);
      ExchangeAll(mgrs, placed) == before[last.home := ConvertOne(before[last.home], last.id, |mgrs|, last.home)]
  {
  }

  lemma {:induction false} ExchangeAllSafe(g: Group, placed: seq<Stale>) returns (h: Group)
    requires Safe(g) && g.phase == Balloon && DistinctStale(placed)
    requires forall i | 0 <= i < |placed| :: HalfWay(g, placed[i])
    ensures SameGroup(g, h) && h.mgrs == ExchangeAll(g.mgrs, placed)
    ensures forall i | 0 <= i < |placed| :: Finished(g, h, placed[i])
    ensures forall q | !Names(placed, q) :: Kept(g, h, q)
  {
    if placed == [] {
      h := g;
    } else {
      var front, last := placed[..|placed| - 1], placed[|placed| - 1];
      var h0 := ExchangeAllSafe(g, front);
      assert placed == front + [last];
      assert !Names(front, last.id);
      assert Kept(g, h0, last.id);
      h := ConvertOneSafe(h0, last);
      ExchangeStep(g.mgrs, placed);
      OneFinished(h0, h, last);
      KeptFinished(g, h0, h, last);
      forall i | 0 <= i < |front| ensures Finished(g, h, front[i]) {
        assert front[i].id != last.id;
        FinishedKept(g, h0, h, front[i]);
      }
      KeptGrows(g, h0, h, front, last);
    }
  }

  lemma OneFinished(g: Group, h: Group, s: Stale)
    requires Sized(g) && Sized(h) && h.k == g.k && h.n == g.n && s.home < g.k
    requires s.id in h.reqs && h.reqs[s.id] == Flags(true, s.home, true)
    requires h.mgrs == g.mgrs[s.home := h.mgrs[s.home]]
    requires s.id in g.mgrs[s.home].table && s.id in h.mgrs[s.home].table
    requires h.mgrs[s.home].table[s.id] == Slot(Cell, Row(g.mgrs[s.home].table[s.id].pages, g.n, s.home))
    ensures Finished(g, h, s)
  {
  }

  // ---------- the whole loop ----------

  ghost predicate LoopEffect(g: Group, h: Group, all: seq<Stale>, left: seq<Stale>) {
    && (forall i | 0 <= i < |left| :: left[i] in all && Kept(g, h, left[i].id))
    && (forall i | 0 <= i < |all| :: all[i] in left || Converted(g, h, all[i]))
    && DistinctStale(left)
  }

  lemma ConvertedKept(g: Group, h: Group, j: Group, s: Stale)
    requires Converted(g, h, s) && Kept(h, j, s.id)
    ensures Converted(g, j, s)
  {
    forall i | 0 <= i < g.k
      ensures if i == s.home then
           && s.id in g.mgrs[i].table && s.id in j.mgrs[i].table
           && j.mgrs[i].table[s.id] == Slot(Cell, Row(g.mgrs[i].table[s.id].pages, g.n, s.home))
         else FormatOf(j.mgrs[i], s.id) == Some(Cell) && Held(j.mgrs[i], s.id) == s.need
    {
      assert SameTable(h.mgrs[i], j.mgrs[i], s.id);
    }
  }

  lemma KeptConverted(g: Group, h: Group, j: Group, s: Stale)
    requires Kept(g, h, s.id) && Converted(h, j, s) && h.n == g.n
    ensures Converted(g, j, s)
  {
    forall i | 0 <= i < g.k
      ensures if i == s.home then
           && s.id in g.mgrs[i].table && s.id in j.mgrs[i].table
           && j.mgrs[i].table[s.id] == Slot(Cell, Row(g.mgrs[i].table[s.id].pages, g.n, s.home))
         else FormatOf(j.mgrs[i], s.id) == Some(Cell) && Held(j.mgrs[i], s.id) == s.need
    {
      assert SameTable(g.mgrs[i], h.mgrs[i], s.id);
    }
  }

  lemma NotBoth(g: Group, h: Group, s: Stale, t: Stale)
    requires Served(g, h, s) && Kept(g, h, t.id) && StaleIn(g, t)
    ensures s.id != t.id
  {
  }

  lemma NotNamed(p: seq<Stale>, q: RequestId)
    requires forall i | 0 <= i < |p| :: p[i].id != q
    ensures !Names(p, q)
  {
  }

  lemma SubNames(p: seq<Stale>, head: seq<Stale>, q: RequestId)
    requires forall i | 0 <= i < |p| :: p[i] in head
    ensures !Names(head, q) ==> !Names(p, q)
  {
    if Names(p, q) {
      var i :| 0 <= i < |p| && p[i].id == q;
      var j :| 0 <= j < |head| && head[j] == p[i];
      assert head[j].id == q;
    }
  }

  /** Prepared, then exchanged: served means converted. */
  lemma ExchangeEffect(g: Group, h: Group, j: Group, head: seq<Stale>, placed: seq<Stale>, unplaced: seq<Stale>)
    requires PrepareEffect(g, h, head, placed, unplaced) && h.n == g.n
    requires forall i | 0 <= i < |head| :: StaleIn(g, head[i])
    requires forall i | 0 <= i < |placed| :: Finished(h, j, placed[i])
    requires forall q | !Names(placed, q) :: Kept(h, j, q)
    ensures LoopEffect(g, j, head, unplaced)
  {
    forall i | 0 <= i < |placed| ensures Converted(g, j, placed[i]) {
      ServedFinished(g, h, j, placed[i]);
    }
    forall i | 0 <= i < |unplaced| ensures Kept(g, j, unplaced[i].id) {
      var t := unplaced[i];
      forall m | 0 <= m < |placed| ensures placed[m].id != t.id {
        NotBoth(g, h, placed[m], t);
      }
      NotNamed(placed, t.id);
      KeptTrans(g, h, j, t.id);
    }
  }

  lemma OthersKept(g: Group, h: Group, j: Group, head: seq<Stale>, placed: seq<Stale>)
    requires forall q | !Names(head, q) :: Kept(g, h, q)
    requires forall q | !Names(placed, q) :: Kept(h, j, q)
    requires forall i | 0 <= i < |placed| :: placed[i] in head
    ensures forall q | !Names(head, q) :: Kept(g, j, q)
  {
    forall q | !Names(head, q) ensures Kept(g, j, q) {
      SubNames(placed, head, q);
      KeptTrans(g, h, j, q);
    }
  }

  lemma TailWaits(g: Group, j: Group, remaining: seq<Stale>, n: nat, unplaced: seq<Stale>)
    requires n <= |remaining| && DistinctStale(remaining)
    requires LoopEffect(g, j, remaining[..n], unplaced) && forall q | !Names(remaining[..n], q) :: Kept(g, j, q)
    ensures LoopEffect(g, j, remaining, unplaced + remaining[n..])
    ensures forall q | !Names(remaining, q) :: Kept(g, j, q)
  {
    var head, tail := remaining[..n], remaining[n..];
    forall i | 0 <= i < |tail| ensures Kept(g, j, tail[i].id) {
      NotNamed(head, tail[i].id);
    }
    forall i | 0 <= i < |remaining| ensures remaining[i] in unplaced + tail || Converted(g, j, remaining[i]) {
      if i < n {
        assert head[i] == remaining[i];
      } else {
        assert tail[i - n] == remaining[i];
      }
    }
    forall i, m | 0 <= i < |unplaced| && 0 <= m < |tail| ensures unplaced[i].id != tail[m].id {
      var t :| 0 <= t < n && head[t] == unplaced[i];
      assert remaining[t].id != remaining[n + m].id;
    }
    forall q | !Names(remaining, q) ensures Kept(g, j, q) {
      SubNames(head, remaining, q);
    }
  }

  /** One round: the requests served are converted, the others wait as they were. */
  lemma RoundSafe(g: Group, remaining: seq<Stale>, n: nat) returns (h: Group)
    requires Safe(g) && g.phase == Balloon && DistinctStale(remaining) && n <= |remaining|
    requires forall i | 0 <= i < |remaining| :: StaleIn(g, remaining[i])
    ensures var p := PrepareAll(g.mgrs, remaining[..n]);
      && SameGroup(g, h) && h.mgrs == ExchangeAll(p.0, p.1)
      && LoopEffect(g, h, remaining, p.2 + remaining[n..])
      && (p.1 == [] ==> h.mgrs == p.0 && NothingFits(g, h, remaining[..n]))
    ensures forall q | !Names(remaining, q) :: Kept(g, h, q)
  {
    var head := remaining[..n];
    var p := PrepareAll(g.mgrs, head);
    var h0 := PrepareAllSafe(g, head);
    h := ExchangeAllSafe(h0, p.1);
    ExchangeEffect(g, h0, h, head, p.1, p.2);
    OthersKept(g, h0, h, head, p.1);
    TailWaits(g, h, remaining, n, p.2);
    if p.1 == [] {
      assert h.mgrs == p.0;
    }
  }

  lemma LoopGrows(g: Group, h: Group, j: Group, all: seq<Stale>, rest: seq<Stale>, left: seq<Stale>)
    requires LoopEffect(g, h, all, rest) && LoopEffect(h, j, rest, left) && h.n == g.n
    requires forall q | !Names(rest, q) :: Kept(h, j, q)
    requires DistinctStale(all)
    ensures LoopEffect(g, j, all, left)
  {
    forall i | 0 <= i < |left| ensures left[i] in all && Kept(g, j, left[i].id) {
      var m :| 0 <= m < |rest| && rest[m] == left[i];
      KeptTrans(g, h, j, left[i].id);
    }
    forall i | 0 <= i < |all| ensures all[i] in left || Converted(g, j, all[i]) {
      if m :| 0 <= m < |rest| && rest[m] == all[i] {
        if rest[m] !in left {
          KeptConverted(g, h, j, all[i]);
        }
      } else {
        ConvertedStays(g, h, j, all, rest, i);
      }
    }
  }

  lemma ConvertedStays(g: Group, h: Group, j: Group, all: seq<Stale>, rest: seq<Stale>, i: nat)
    requires LoopEffect(g, h, all, rest) && i < |all| && all[i] !in rest && DistinctStale(all)
    requires forall q | !Names(rest, q) :: Kept(h, j, q)
    ensures Converted(g, j, all[i])
  {
    forall m | 0 <= m < |rest| ensures rest[m].id != all[i].id {
      var t :| 0 <= t < |all| && all[t] == rest[m];
      assert t != i;
    }
    NotNamed(rest, all[i].id);
    ConvertedKept(g, h, j, all[i]);
  }

  /** None of the first `cap` requests, or of all without a cap, finds room on every peer. */
  ghost predicate Stuck(g: Group, left: seq<Stale>, cap: nat) {
    forall i | 0 <= i < |left| && (cap == 0 || i < cap) :: NoRoom(g, left[i])
  }

  lemma GaveUp(g: Group, h: Group, remaining: seq<Stale>, cap: nat, unplaced: seq<Stale>)
    requires var n := Batch(remaining, cap);
      && NothingFits(g, h, remaining[..n]) && |unplaced| == n
      && forall s | s in unplaced :: s in remaining[..n]
    ensures Stuck(h, unplaced + remaining[Batch(remaining, cap)..], cap)
  {
    var n := Batch(remaining, cap);
    forall i | 0 <= i < n ensures NoRoom(h, unplaced[i]) {
      assert unplaced[i] in unplaced;
      var t :| 0 <= t < n && remaining[..n][t] == unplaced[i];
      NoRoomSame(g, h, unplaced[i]);
    }
  }

  lemma StillStale(g: Group, h: Group, all: seq<Stale>, rest: seq<Stale>)
    requires LoopEffect(g, h, all, rest) && forall i | 0 <= i < |all| :: StaleIn(g, all[i])
    ensures forall i | 0 <= i < |rest| :: StaleIn(h, rest[i])
  {
    forall i | 0 <= i < |rest| ensures StaleIn(h, rest[i]) {
      var t :| 0 <= t < |all| && all[t] == rest[i];
      assert Kept(g, h, rest[i].id);
    }
  }

  lemma RestKept(g: Group, h: Group, j: Group, all: seq<Stale>, rest: seq<Stale>)
    requires forall i | 0 <= i < |rest| :: rest[i] in all
    requires forall q | !Names(all, q) :: Kept(g, h, q)
    requires forall q | !Names(rest, q) :: Kept(h, j, q)
    ensures forall q | !Names(all, q) :: Kept(g, j, q)
  {
    forall q | !Names(all, q) ensures Kept(g, j, q) {
      SubNames(rest, all, q);
      KeptTrans(g, h, j, q);
    }
  }

  /** `reshard_blocks` terminates with an exact effect: each request is converted exactly once or keeps
      all its tables, and it gives up only when stuck. */
  lemma {:induction false} ReshardEffect(g: Group, remaining: seq<Stale>, cap: nat) returns (h: Group)
    requires Safe(g) && g.phase == Balloon && DistinctStale(remaining)
    requires forall i | 0 <= i < |remaining| :: StaleIn(g, remaining[i])
    ensures SameGroup(g, h) && h.mgrs == ReshardLoop(g.mgrs, remaining, cap).0
    ensures LoopEffect(g, h, remaining, ReshardLoop(g.mgrs, remaining, cap).1)
    ensures Stuck(h, ReshardLoop(g.mgrs, remaining, cap).1, cap)
    ensures forall q | !Names(remaining, q) :: Kept(g, h, q)
    decreases |remaining|
  {
    if remaining == [] {
      h := g;
    } else {
      var n := Batch(remaining, cap);
      var p := PrepareAll(g.mgrs, remaining[..n]);
      var rest := p.2 + remaining[n..];
      var h0 := RoundSafe(g, remaining, n);
      if p.1 != [] {
        StillStale(g, h0, remaining, rest);
        h := ReshardEffect(h0, rest, cap);
        LoopGrows(g, h0, h, remaining, rest, ReshardLoop(g.mgrs, remaining, cap).1);
        RestKept(g, h0, h, remaining, rest);
      } else {
        h := h0;
        PreparedFrom(g, remaining[..n]);
        GaveUp(g, h, remaining, cap, p.2);
      }
    }
  }

  // ---------- in which order they are given up ----------

  /** Some of the requests in `all`, in their order. */
  ghost predicate SomeOf(some: seq<Stale>, all: seq<Stale>)
    decreases |all|
  {
    || some == []
    || (all != [] && (SomeOf(some, all[1..]) || (some[0] == all[0] && SomeOf(some[1..], all[1..]))))
  }

  lemma {:induction false} SomeOfBoth(a: seq<Stale>, b: seq<Stale>, c: seq<Stale>, d: seq<Stale>)
    requires SomeOf(a, b) && SomeOf(c, d)
    ensures SomeOf(a + c, b + d)
    decreases |b|
  {
    if b == [] {
      assert a + c == c && b + d == d;
    } else {
      assert (b + d)[1..] == b[1..] + d;
      if SomeOf(a, b[1..]) {
        SomeOfBoth(a, b[1..], c, d);
      } else {
        SomeOfBoth(a[1..], b[1..], c, d);
        assert (a + c)[1..] == a[1..] + c;
      }
    }
  }

  lemma {:induction false} SomeOfAll(all: seq<Stale>)
    ensures SomeOf(all, all)
    decreases |all|
  {
    if all != [] {
      SomeOfAll(all[1..]);
    }
  }

  lemma {:induction false} SomeOfSome(a: seq<Stale>, b: seq<Stale>, c: seq<Stale>)
    requires SomeOf(a, b) && SomeOf(b, c)
    ensures SomeOf(a, c)
    decreases |c|
  {
    if a != [] {
      if SomeOf(b, c[1..]) {
        SomeOfSome(a, b, c[1..]);
      } else if SomeOf(a, b[1..]) {
        SomeOfSome(a, b[1..], c[1..]);
      } else {
        SomeOfSome(a[1..], b[1..], c[1..]);
      }
    }
  }

  lemma {:induction false} OthersInOrder(mgrs: seq<State>, head: seq<Stale>)
    ensures SomeOf(PrepareAll(mgrs, head).1, head) && SomeOf(PrepareAll(mgrs, head).2, head)
  {
    if head != [] {
      var front, last := head[..|head| - 1], [head[|head| - 1]];
      var p := PrepareAll(mgrs, front);
      OthersInOrder(mgrs, front);
      SomeOfAll(last);
      SomeOfBoth(p.1, front, last, last);
      SomeOfBoth(p.2, front, last, last);
      SomeOfBoth(p.1, front, [], last);
      SomeOfBoth(p.2, front, [], last);
      assert front + last == head && p.1 + [] == p.1 && p.2 + [] == p.2;
    }
  }

  /** The requests given up are still in the order in which they came. */
  lemma {:induction false} LeftInOrder(mgrs: seq<State>, remaining: seq<Stale>, cap: nat)
    ensures SomeOf(ReshardLoop(mgrs, remaining, cap).1, remaining)
    decreases |remaining|
  {
    if remaining != [] {
      var n := Batch(remaining, cap);
      var p := PrepareAll(mgrs, remaining[..n]);
      var rest := p.2 + remaining[n..];
      OthersInOrder(mgrs, remaining[..n]);
      SomeOfAll(remaining[n..]);
      SomeOfBoth(p.2, remaining[..n], remaining[n..], remaining[n..]);
      assert remaining[..n] + remaining[n..] == remaining;
      if p.1 != [] {
        LeftInOrder(ExchangeAll(p.0, p.1), rest, cap);
        SomeOfSome(ReshardLoop(ExchangeAll(p.0, p.1), rest, cap).1, rest, remaining);
      }
    }
  }

  lemma {:induction false} PreparedFrom(g: Group, head: seq<Stale>)
    ensures forall s | s in PrepareAll(g.mgrs, head).2 :: s in head
  {
    if head != [] {
      PreparedFrom(g, head[..|head| - 1]);
      assert forall s | s in head[..|head| - 1] :: s in head;
      assert head[|head| - 1] in head;
    }
  }
}

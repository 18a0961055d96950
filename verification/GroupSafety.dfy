/** Every step of the group keeps its invariant, and no step runs into a failed assertion. */
module GroupSafety {
  import opened Paging
  import opened Pools
  import opened Ownership
  import opened Merging
  import opened Phases
  import opened Transfers
  import opened Group

  // ---------- one manager ----------

  lemma MovesSelf(g: Geometry, s: State, out: Tables)
    requires Shape(g, s, out)
    ensures Moves(g, s, out, s, out)
  {
  }

  lemma MovesTrans(g: Geometry, s: State, out: Tables, t: State, out': Tables, u: State, out'': Tables)
    requires Moves(g, s, out, t, out') && Moves(g, t, out', u, out'')
    ensures Moves(g, s, out, u, out'')
  {
    forall c: nat ensures Owners(g, u, out'', c) == Owners(g, s, out, c) {
      assert Owners(g, t, out', c) == Owners(g, s, out, c);
    }
  }

  ghost predicate SameStanding(g: Group, s: State, t: State) {
    g.phase == Initially ==> t.reserved == s.reserved && t.maxReserved == s.maxReserved && t.maxGpu == s.maxGpu
  }

  lemma MovedOk(g: Group, h: Group, i: nat)
    requires Sized(g) && i < g.k && ManagerOk(g, i)
    requires Sized(h) && h.n == g.n && h.k == g.k && h.phase == g.phase && h.draining == g.draining
    requires Moves(Geo(g), g.mgrs[i], OutOf(g.taken, i), h.mgrs[i], OutOf(h.taken, i))
    requires SameStanding(g, g.mgrs[i], h.mgrs[i]) && Placed(h.reqs, h.mgrs[i], i)
    ensures ManagerOk(h, i)
  {
    MovesSound(Geo(g), g.mgrs[i], OutOf(g.taken, i), h.mgrs[i], OutOf(h.taken, i), g.draining);
  }

  lemma UnmovedOk(g: Group, h: Group, i: nat)
    requires Sized(g) && i < g.k && ManagerOk(g, i)
    requires Sized(h) && h.n == g.n && h.k == g.k && h.phase == g.phase && h.draining == g.draining
    requires h.mgrs[i] == g.mgrs[i] && OutOf(h.taken, i) == OutOf(g.taken, i) && Placed(h.reqs, h.mgrs[i], i)
    ensures ManagerOk(h, i)
  {
  }

  lemma AllocateEffect(s: State, r: RequestId, fused: bool, onlyNew: bool, need: nat)
    requires Allocate(s, r, fused, onlyNew, need).Some?
    ensures var t := Allocate(s, r, fused, onlyNew, need).value;
      && r in t.table && t.table == s.table[r := t.table[r]]
      && t.table[r].format == SlotFormat(s, r, GivenFormat(s, fused, onlyNew))
      && Held(t, r) == (if Held(s, r) >= need then Held(s, r) else need)
      && (r in s.table ==> s.table[r].pages <= t.table[r].pages)
    ensures !s.isFusion && !fused ==>
      var t := Allocate(s, r, fused, onlyNew, need).value;
      t == s.(free := t.free, table := t.table)
  {
    var t := Allocate(s, r, fused, onlyNew, need).value;
    if t == s {
      assert s.table == s.table[r := s.table[r]];
    }
  }

  ghost function SlotFormat(s: State, r: RequestId, format: Format): Format {
    if r in s.table then s.table[r].format else format
  }

  lemma FreeEffect(s: State, r: RequestId, onlyNew: bool)
    requires r in s.table && s.fusionSize > 0 && s.numBase > 0 && !s.isFusion
    ensures var t := Free(s, r, false, onlyNew).value;
      t == s.(free := t.free, table := t.table)
  {
  }

  lemma PlacedPut(reqs: map<RequestId, Flags>, s: State, i: nat, t: State, r: RequestId, f: Flags, format: Format)
    requires Placed(reqs, s, i) && r in t.table && t.table == s.table[r := t.table[r]] && t.table[r].format == format
    requires Expected(f, i) == Some(format)
    ensures Placed(reqs[r := f], t, i)
  {
    forall q: RequestId ensures FormatOf(t, q) == Wanted(reqs[r := f], q, i) {
      assert FormatOf(s, q) == Wanted(reqs, q, i);
    }
  }

  lemma PlacedGone(reqs: map<RequestId, Flags>, s: State, i: nat, t: State, r: RequestId)
    requires Placed(reqs, s, i) && t.table == s.table - {r}
    ensures Placed(reqs - {r}, t, i)
  {
    forall q: RequestId ensures FormatOf(t, q) == Wanted(reqs - {r}, q, i) {
      assert FormatOf(s, q) == Wanted(reqs, q, i);
    }
  }

  /** Flags change where this manager holds, and should hold, nothing of the request. */
  lemma PlacedElsewhere(reqs: map<RequestId, Flags>, s: State, i: nat, r: RequestId, f: Flags)
    requires Placed(reqs, s, i) && Wanted(reqs, r, i) == Expected(f, i)
    ensures Placed(reqs[r := f], s, i)
  {
    forall q: RequestId ensures FormatOf(s, q) == Wanted(reqs[r := f], q, i) {
      assert FormatOf(s, q) == Wanted(reqs, q, i);
    }
  }

  ghost predicate OthersHeld(g: Group, h: Group, r: RequestId)
    requires Sized(g) && Sized(h) && g.k == h.k
  {
    forall i, q | 0 <= i < g.k && q != r :: Held(h.mgrs[i], q) == Held(g.mgrs[i], q)
  }

  /** Only the flags of `r` change, and `r` has nothing in flight. */
  lemma RequestsKept(g: Group, h: Group, r: RequestId)
    requires Sized(g) && Sized(h) && g.k == h.k && RequestsOk(g) && OthersHeld(g, h, r)
    requires h.phase == g.phase && h.taken == g.taken && r !in g.taken
    requires h.reqs - {r} == g.reqs - {r} && (r in h.reqs ==> FlagsOk(h, h.reqs[r]))
    ensures RequestsOk(h)
  {
    forall q | q in h.reqs ensures FlagsOk(h, h.reqs[q]) {
      assert q != r ==> q in h.reqs - {r} && (h.reqs - {r})[q] == (g.reqs - {r})[q];
    }
    forall q | q in h.taken ensures FlightOk(h, q, h.taken[q]) {
      assert FlightOk(g, q, g.taken[q]);
      assert q in g.reqs - {r} && (h.reqs - {r})[q] == (g.reqs - {r})[q];
    }
  }

  // ---------- admission, growth, release ----------

  /** After the admission check the allocation succeeds. */
  lemma AdmittedFits(g: Geometry, s: State, out: Tables, r: RequestId, need: nat)
    requires Shape(g, s, out) && r !in s.table && need <= FreeCount(s)
    ensures Allocate(s, r, s.isFusion, false, need).Some?
  {
  }

  lemma AdmitManager(g: Group, r: RequestId, rank: nat, need: nat, i: nat)
    requires Safe(g) && Enabled(g, Admit(r, rank, need)) && i < g.k
    ensures ManagerOk(Apply(g, Admit(r, rank, need)), i)
    ensures Uses(Flags(g.phase == Balloon, rank, true), i) ==>
      Held(Apply(g, Admit(r, rank, need)).mgrs[i], r) == need
  {
    var f := Flags(g.phase == Balloon, rank, true);
    var s, out := g.mgrs[i], OutOf(g.taken, i);
    var h := Apply(g, Admit(r, rank, need));
    assert ManagerOk(g, i);
    assert FormatOf(s, r) == Wanted(g.reqs, r, i);
    if Uses(f, i) {
      AdmittedFits(Geo(g), s, out, r, need);
      AllocateMoves(Geo(g), s, out, r, f.fusion, false, need);
      AllocateEffect(s, r, f.fusion, false, need);
      PlacedPut(g.reqs, s, i, h.mgrs[i], r, f, if f.fusion then Cell else Whole);
      MovedOk(g, h, i);
    } else {
      PlacedElsewhere(g.reqs, s, i, r, f);
      UnmovedOk(g, h, i);
    }
  }

  lemma AdmitSafe(g: Group, r: RequestId, rank: nat, need: nat)
    requires Safe(g) && Enabled(g, Admit(r, rank, need))
    ensures Safe(Apply(g, Admit(r, rank, need)))
  {
    var h := Apply(g, Admit(r, rank, need));
    forall i | 0 <= i < g.k
      ensures ManagerOk(h, i) && forall q | q != r :: Held(h.mgrs[i], q) == Held(g.mgrs[i], q)
    {
      AdmitManager(g, r, rank, need, i);
      AllocateOnOthers(g.mgrs[i], r, Flags(g.phase == Balloon, rank, true), i, need);
    }
    assert h.reqs - {r} == g.reqs - {r};
    RequestsKept(g, h, r);
  }

  lemma AllocateOnOthers(s: State, r: RequestId, f: Flags, i: nat, need: nat)
    ensures forall q | q != r :: Held(AllocateOn(s, r, f, i, need), q) == Held(s, q)
  {
    if Uses(f, i) && Allocate(s, r, f.fusion, false, need).Some? {
      AllocateEffect(s, r, f.fusion, false, need);
    }
  }

  lemma GrowSafe(g: Group, r: RequestId, i: nat, need: nat)
    requires Safe(g) && Enabled(g, Grow(r, i, need))
    ensures Safe(Apply(g, Grow(r, i, need)))
  {
    var h := Apply(g, Grow(r, i, need));
    var s, f := g.mgrs[i], g.reqs[r];
    assert ManagerOk(g, i);
    assert FormatOf(s, r) == Wanted(g.reqs, r, i);
    AllocateOnOthers(s, r, f, i, need);
    if h.mgrs[i] != s {
      AllocateMoves(Geo(g), s, OutOf(g.taken, i), r, f.fusion, false, need);
      AllocateEffect(s, r, f.fusion, false, need);
      assert g.reqs[r := f] == g.reqs;
      PlacedPut(g.reqs, s, i, h.mgrs[i], r, f, s.table[r].format);
      MovedOk(g, h, i);
    }
    forall j | 0 <= j < g.k ensures ManagerOk(h, j) {
      assert ManagerOk(g, j);
    }
    RequestsKept(g, h, r);
  }

  lemma ReleaseMoved(g: Group, r: RequestId, i: nat)
    requires Safe(g) && Enabled(g, Release(r)) && i < g.k && Uses(g.reqs[r], i)
    ensures g.mgrs[i].fusionSize > 0 && g.mgrs[i].numBase > 0 && Free(g.mgrs[i], r, g.reqs[r].fusion, false).Some?
    ensures var t := Free(g.mgrs[i], r, g.reqs[r].fusion, false).value;
      && t == ReleaseOn(g.mgrs[i], r, g.reqs[r], i) && t.table == g.mgrs[i].table - {r}
      && Moves(Geo(g), g.mgrs[i], OutOf(g.taken, i), t, OutOf(g.taken, i)) && SameStanding(g, g.mgrs[i], t)
  {
    var f := g.reqs[r];
    assert ManagerOk(g, i);
    assert FormatOf(g.mgrs[i], r) == Wanted(g.reqs, r, i);
    FreeMoves(Geo(g), g.mgrs[i], OutOf(g.taken, i), r, f.fusion, false, g.draining);
    if g.phase == Initially {
      FreeEffect(g.mgrs[i], r, false);
    }
  }

  lemma ReleaseManager(g: Group, r: RequestId, i: nat)
    requires Safe(g) && Enabled(g, Release(r)) && i < g.k
    ensures ManagerOk(Apply(g, Release(r)), i)
    ensures Uses(g.reqs[r], i) ==> Free(g.mgrs[i], r, g.reqs[r].fusion, false).Some?
    ensures forall q | q != r :: Held(Apply(g, Release(r)).mgrs[i], q) == Held(g.mgrs[i], q)
  {
    var f, s := g.reqs[r], g.mgrs[i];
    var h := Apply(g, Release(r));
    assert ManagerOk(g, i);
    assert FormatOf(s, r) == Wanted(g.reqs, r, i);
    if Uses(f, i) {
      ReleaseMoved(g, r, i);
      PlacedGone(g.reqs, s, i, h.mgrs[i], r);
      MovedOk(g, h, i);
    } else {
      assert s.table - {r} == s.table;
      PlacedGone(g.reqs, s, i, s, r);
      UnmovedOk(g, h, i);
    }
  }

  lemma ReleaseSafe(g: Group, r: RequestId)
    requires Safe(g) && Enabled(g, Release(r))
    ensures Safe(Apply(g, Release(r)))
  {
    forall i | 0 <= i < g.k
      ensures ManagerOk(Apply(g, Release(r)), i)
      ensures forall q | q != r :: Held(Apply(g, Release(r)).mgrs[i], q) == Held(g.mgrs[i], q)
    {
      ReleaseManager(g, r, i);
    }
    RequestsKept(g, Apply(g, Release(r)), r);
  }

  // ---------- resharding ----------

  /** The peers before the first one that is short of pages are served, the others untouched. */
  lemma {:induction false} AllocatePeersEffect(mgrs: seq<State>, r: RequestId, home: nat, need: nat, i: nat)
    returns (end: nat)
    requires i <= |mgrs|
    ensures i <= end <= |mgrs|
    ensures var p := AllocatePeers(mgrs, r, home, need, i);
      && (p.1 <==> end == |mgrs|)
      && (!p.1 ==> end != home && Allocate(mgrs[end], r, false, true, need).None?)
      && forall j | 0 <= j < |mgrs| ::
           if i <= j < end && j != home then Some(p.0[j]) == Allocate(mgrs[j], r, false, true, need)
           else p.0[j] == mgrs[j]
    decreases |mgrs| - i
  {
    if i == |mgrs| {
      end := i;
    } else if i == home {
      end := AllocatePeersEffect(mgrs, r, home, need, i + 1);
    } else {
      match Allocate(mgrs[i], r, false, true, need)
      case None => end := i;
      case Some(t) => end := AllocatePeersEffect(mgrs[i := t], r, home, need, i + 1);
    }
  }

  /** Served and rolled back, a peer holds what it held. */
  lemma RollbackMoves(g: Geometry, s: State, out: Tables, r: RequestId, need: nat, draining: bool)
    requires Sound(g, s, out, draining) && s.isFusion && r !in s.table
    requires Allocate(s, r, false, true, need).Some?
    ensures var u := FreeOr(Allocate(s, r, false, true, need).value, r, false, true);
      Moves(g, s, out, u, out) && u.table == s.table
  {
    var t := Allocate(s, r, false, true, need).value;
    AllocateMoves(g, s, out, r, false, true, need);
    AllocateEffect(s, r, false, true, need);
    MovesSound(g, s, out, t, out, draining);
    FreeMoves(g, t, out, r, false, true, draining);
    MovesTrans(g, s, out, t, out, Free(t, r, false, true).value, out);
    assert s.table[r := t.table[r]] - {r} == s.table;
  }

  lemma PreparedPeer(g: Group, r: RequestId, need: nat, i: nat)
    requires Safe(g) && Enabled(g, BeginReshard(r, need)) && i < g.k && i != g.reqs[r].home
    ensures var p := PreparePeers(g.mgrs, r, g.reqs[r].home, need);
      && Moves(Geo(g), g.mgrs[i], OutOf(g.taken, i), p.0[i], OutOf(g.taken, i))
      && (p.1 ==> Some(p.0[i]) == Allocate(g.mgrs[i], r, false, true, need))
      && (!p.1 ==> p.0[i].table == g.mgrs[i].table)
  {
    var home := g.reqs[r].home;
    var s := g.mgrs[i];
    assert ManagerOk(g, i);
    assert FormatOf(s, r) == Wanted(g.reqs, r, i);
    var end := AllocatePeersEffect(g.mgrs, r, home, need, 0);
    if i < end {
      AllocateMoves(Geo(g), s, OutOf(g.taken, i), r, false, true, need);
      RollbackMoves(Geo(g), s, OutOf(g.taken, i), r, need, g.draining);
    } else {
      MovesSelf(Geo(g), s, OutOf(g.taken, i));
    }
  }

  lemma HomeUntouched(g: Group, r: RequestId, need: nat)
    requires Safe(g) && Enabled(g, BeginReshard(r, need))
    ensures g.reqs[r].home < g.k
    ensures PreparePeers(g.mgrs, r, g.reqs[r].home, need).0[g.reqs[r].home] == g.mgrs[g.reqs[r].home]
  {
    assert FlagsOk(g, g.reqs[r]);
    var end := AllocatePeersEffect(g.mgrs, r, g.reqs[r].home, need, 0);
  }

  lemma BeginReshardManager(g: Group, r: RequestId, need: nat, i: nat)
    requires Safe(g) && Enabled(g, BeginReshard(r, need)) && i < g.k
    ensures ManagerOk(Apply(g, BeginReshard(r, need)), i)
  {
    var h := Apply(g, BeginReshard(r, need));
    var home := g.reqs[r].home;
    var s := g.mgrs[i];
    var f := Flags(true, home, false);
    assert ManagerOk(g, i);
    assert FormatOf(s, r) == Wanted(g.reqs, r, i);
    if i == home {
      HomeUntouched(g, r, need);
      PlacedElsewhere(g.reqs, s, i, r, f);
      UnmovedOk(g, h, i);
    } else {
      PreparedPeer(g, r, need, i);
      if PreparePeers(g.mgrs, r, home, need).1 {
        AllocateEffect(s, r, false, true, need);
        PlacedPut(g.reqs, s, i, h.mgrs[i], r, f, Cell);
      } else {
        assert Placed(g.reqs, h.mgrs[i], i) by {
          forall q: RequestId ensures FormatOf(h.mgrs[i], q) == Wanted(g.reqs, q, i) {
            assert FormatOf(s, q) == Wanted(g.reqs, q, i);
          }
        }
      }
      MovedOk(g, h, i);
    }
  }

  lemma NothingTaken(g: Group)
    requires Safe(g) && g.phase != Restore
    ensures g.taken == map[]
  {
    forall q: RequestId ensures q !in g.taken {
      if q in g.taken {
        OnlyInRestore(g, q, g.taken[q]);
      }
    }
  }

  lemma OnlyInRestore(g: Group, r: RequestId, flight: Flight)
    ensures FlightOk(g, r, flight) ==> g.phase == Restore
  {
  }

  /** With nothing in flight only the flags matter. */
  lemma RequestsUntaken(g: Group, h: Group, r: RequestId)
    requires RequestsOk(g) && h.taken == map[] && h.phase == g.phase && h.k == g.k
    requires h.reqs - {r} == g.reqs - {r} && (r in h.reqs ==> FlagsOk(h, h.reqs[r]))
    ensures RequestsOk(h)
  {
    forall q | q in h.reqs ensures FlagsOk(h, h.reqs[q]) {
      assert q != r ==> q in h.reqs - {r} && (h.reqs - {r})[q] == (g.reqs - {r})[q];
    }
  }

  lemma BeginReshardSafe(g: Group, r: RequestId, need: nat)
    requires Safe(g) && Enabled(g, BeginReshard(r, need))
    ensures Safe(Apply(g, BeginReshard(r, need)))
  {
    var h := Apply(g, BeginReshard(r, need));
    forall i | 0 <= i < g.k ensures ManagerOk(h, i) {
      BeginReshardManager(g, r, need, i);
    }
    NothingTaken(g);
    assert FlagsOk(g, g.reqs[r]);
    assert h.reqs - {r} == g.reqs - {r};
    RequestsUntaken(g, h, r);
  }

  lemma EndReshardSafe(g: Group, r: RequestId)
    requires Safe(g) && Enabled(g, EndReshard(r))
    ensures Safe(Apply(g, EndReshard(r)))
    ensures g.reqs[r].home < g.k && FreeExcept(g.mgrs[g.reqs[r].home], r, g.k, g.reqs[r].home).Some?
  {
    var h := Apply(g, EndReshard(r));
    var home := g.reqs[r].home;
    var f := Flags(true, home, true);
    assert FlagsOk(g, g.reqs[r]);
    assert ManagerOk(g, home);
    assert FormatOf(g.mgrs[home], r) == Wanted(g.reqs, r, home);
    forall i | 0 <= i < g.k ensures ManagerOk(h, i) {
      var s := g.mgrs[i];
      assert ManagerOk(g, i);
      if i == home {
        ReshardMoves(Geo(g), s, OutOf(g.taken, i), r, home);
        PlacedPut(g.reqs, s, i, h.mgrs[i], r, f, Cell);
        MovedOk(g, h, i);
      } else {
        PlacedElsewhere(g.reqs, s, i, r, f);
        UnmovedOk(g, h, i);
      }
    }
    NothingTaken(g);
    assert h.reqs - {r} == g.reqs - {r};
    RequestsUntaken(g, h, r);
  }

  // ---------- the waiting queue ----------

  lemma ParkSafe(g: Group, r: RequestId)
    requires Safe(g) && Enabled(g, Park(r))
    ensures Safe(Apply(g, Park(r)))
  {
    var h := Apply(g, Park(r));
    NothingTaken(g);
    forall i | 0 <= i < g.k ensures ManagerOk(h, i) {
      assert ManagerOk(g, i);
    }
    SameRequests(g, h);
  }

  /** During BALLOON a request whose cells are everywhere may change its home. */
  lemma SwapInSafe(g: Group, r: RequestId, rank: nat, joins: bool)
    requires Safe(g) && Enabled(g, SwapIn(r, rank, joins))
    ensures Safe(Apply(g, SwapIn(r, rank, joins)))
  {
    var h := Apply(g, SwapIn(r, rank, joins));
    NothingTaken(g);
    forall i | 0 <= i < g.k ensures ManagerOk(h, i) {
      assert ManagerOk(g, i);
      PlacedElsewhere(g.reqs, g.mgrs[i], i, r, Flags(true, rank, true));
      UnmovedOk(g, h, i);
    }
    assert h.reqs - {r} == g.reqs - {r};
    RequestsUntaken(g, h, r);
  }

  // ---------- who goes on resharding ----------

  /** Looking for stale requests and moving them between engines touches no page. */
  lemma FlagsOnlySafe(g: Group, h: Group)
    requires Safe(g) && h == g.(holder := h.holder, resharding := h.resharding) && h.resharding <= g.resharding
    ensures Safe(h)
  {
    forall i | 0 <= i < g.k ensures ManagerOk(h, i) {
      assert ManagerOk(g, i);
    }
    forall r | r in g.reqs ensures FlagsOk(h, h.reqs[r]) {
      assert FlagsOk(g, g.reqs[r]);
    }
    forall r | r in g.taken ensures FlightOk(h, r, h.taken[r]) {
      assert FlightOk(g, r, g.taken[r]);
    }
  }

  // ---------- live restore ----------

  lemma TakeMoved(g: Group, r: RequestId, rank: nat)
    requires Safe(g) && rank < g.k && r !in g.taken && g.phase == Restore
    requires Held(g.mgrs[rank], r) <= |g.mgrs[rank].free|
    ensures var (t, blocks) := TakeBlocks(g.mgrs[rank], Held(g.mgrs[rank], r));
      var taken := g.taken[r := Flight(rank, blocks)];
      && Moves(Geo(g), g.mgrs[rank], OutOf(g.taken, rank), t, OutOf(taken, rank)) && Placed(g.reqs, t, rank)
  {
    var s := g.mgrs[rank];
    assert ManagerOk(g, rank);
    var (t, blocks) := TakeBlocks(s, Held(s, r));
    TakeMoves(Geo(g), s, OutOf(g.taken, rank), r, Held(s, r));
    assert OutOf(g.taken[r := Flight(rank, blocks)], rank) == OutOf(g.taken, rank)[r := Slot(Whole, blocks)];
    forall q: RequestId ensures FormatOf(t, q) == Wanted(g.reqs, q, rank) {
      assert FormatOf(s, q) == Wanted(g.reqs, q, rank);
    }
  }

  lemma TakeManager(g: Group, r: RequestId, rank: nat, i: nat)
    requires Safe(g) && Enabled(g, Take(r, rank)) && i < g.k && Apply(g, Take(r, rank)) != g
    ensures ManagerOk(Apply(g, Take(r, rank)), i)
  {
    var h := Apply(g, Take(r, rank));
    assert ManagerOk(g, i);
    if i == rank {
      TakeMoved(g, r, rank);
      MovedOk(g, h, i);
    } else {
      assert OutOf(h.taken, i) == OutOf(g.taken, i);
      UnmovedOk(g, h, i);
    }
  }

  lemma TakeSafe(g: Group, r: RequestId, rank: nat)
    requires Safe(g) && Enabled(g, Take(r, rank))
    ensures Safe(Apply(g, Take(r, rank)))
  {
    var h := Apply(g, Take(r, rank));
    if h != g {
      forall i | 0 <= i < g.k ensures ManagerOk(h, i) {
        TakeManager(g, r, rank, i);
      }
      assert FlagsOk(g, g.reqs[r]);
      forall q | q in h.taken ensures FlightOk(h, q, h.taken[q]) {
        assert q != r ==> FlightOk(g, q, g.taken[q]);
      }
    }
  }

  /** Between the two halves of completing a live restore: the cells are back in the reserve. */
  ghost predicate CellsBack(g: Group, r: RequestId, i: nat, t: State)
    requires Sized(g) && i < g.k
  {
    && Moves(Geo(g), g.mgrs[i], OutOf(g.taken, i), t, OutOf(g.taken, i))
    && t.table == g.mgrs[i].table - {r} && Placed(g.reqs - {r}, t, i)
  }

  lemma CompleteFrees(g: Group, r: RequestId, i: nat)
    requires Safe(g) && Enabled(g, Complete(r)) && i < g.k
    ensures g.mgrs[i].fusionSize > 0 && g.mgrs[i].numBase > 0 && Free(g.mgrs[i], r, true, false).Some?
    ensures CellsBack(g, r, i, FreeOr(g.mgrs[i], r, true, false))
  {
    assert FlightOk(g, r, g.taken[r]);
    assert ManagerOk(g, i);
    assert FormatOf(g.mgrs[i], r) == Wanted(g.reqs, r, i);
    FreeMoves(Geo(g), g.mgrs[i], OutOf(g.taken, i), r, true, false, g.draining);
    PlacedGone(g.reqs, g.mgrs[i], i, Free(g.mgrs[i], r, true, false).value, r);
  }

  ghost predicate Completed(g: Group, h: Group, r: RequestId, rank: nat) {
    && Sized(g) && Sized(h) && h.n == g.n && h.k == g.k && h.draining == g.draining
    && g.phase == Restore && h.phase == Restore
    && h.reqs == (g.reqs - {r})[r := Flags(false, rank, true)]
    && r in g.taken && g.taken[r].rank == rank && h.taken == g.taken - {r}
  }

  lemma CompletedHome(g: Group, h: Group, r: RequestId, rank: nat, t: State)
    requires Completed(g, h, r, rank) && rank < g.k && ManagerOk(g, rank) && CellsBack(g, r, rank, t)
    requires h.mgrs[rank] == Install(t, r, g.taken[r].pages)
    ensures ManagerOk(h, rank)
  {
    var out := OutOf(g.taken, rank);
    assert out - {r} == OutOf(h.taken, rank);
    InstallMoves(Geo(g), t, out, r);
    MovesTrans(Geo(g), g.mgrs[rank], out, t, out, h.mgrs[rank], out - {r});
    PlacedPut(g.reqs - {r}, t, rank, h.mgrs[rank], r, Flags(false, rank, true), Whole);
    MovedOk(g, h, rank);
  }

  lemma CompletedElsewhere(g: Group, h: Group, r: RequestId, rank: nat, i: nat)
    requires Completed(g, h, r, rank) && i < g.k && i != rank && ManagerOk(g, i) && CellsBack(g, r, i, h.mgrs[i])
    ensures ManagerOk(h, i)
  {
    assert OutOf(h.taken, i) == OutOf(g.taken, i);
    PlacedElsewhere(g.reqs - {r}, h.mgrs[i], i, r, Flags(false, rank, true));
    MovedOk(g, h, i);
  }

  lemma CompleteShape(g: Group, r: RequestId)
    requires Safe(g) && Enabled(g, Complete(r))
    ensures Completed(g, Apply(g, Complete(r)), r, g.taken[r].rank)
  {
    assert FlightOk(g, r, g.taken[r]);
    assert (g.reqs - {r})[r := Flags(false, g.taken[r].rank, true)] == Apply(g, Complete(r)).reqs;
  }

  lemma CompleteManager(g: Group, r: RequestId, i: nat)
    requires Safe(g) && Enabled(g, Complete(r)) && i < g.k
    ensures ManagerOk(Apply(g, Complete(r)), i)
  {
    var h := Apply(g, Complete(r));
    var rank := g.taken[r].rank;
    CompleteFrees(g, r, i);
    CompleteShape(g, r);
    assert ManagerOk(g, i);
    if i == rank {
      CompletedHome(g, h, r, rank, FreeOr(g.mgrs[i], r, true, false));
    } else {
      CompletedElsewhere(g, h, r, rank, i);
    }
  }

  lemma CompleteHeld(g: Group, r: RequestId, i: nat, q: RequestId)
    requires Safe(g) && Enabled(g, Complete(r)) && i < g.k && q != r
    ensures Held(Apply(g, Complete(r)).mgrs[i], q) == Held(g.mgrs[i], q)
  {
    CompleteFrees(g, r, i);
  }

  lemma CompleteSafe(g: Group, r: RequestId)
    requires Safe(g) && Enabled(g, Complete(r))
    ensures Safe(Apply(g, Complete(r)))
  {
    var h := Apply(g, Complete(r));
    forall i | 0 <= i < g.k
      ensures ManagerOk(h, i) && forall q | q != r :: Held(h.mgrs[i], q) == Held(g.mgrs[i], q)
    {
      CompleteManager(g, r, i);
      forall q | q != r ensures Held(h.mgrs[i], q) == Held(g.mgrs[i], q) {
        CompleteHeld(g, r, i, q);
      }
    }
    forall q | q in h.reqs ensures FlagsOk(h, h.reqs[q]) {
      assert q != r ==> FlagsOk(g, g.reqs[q]);
    }
    forall q | q in h.taken ensures FlightOk(h, q, h.taken[q]) {
      assert FlightOk(g, q, g.taken[q]);
    }
  }

  // ---------- steps within BALLOON ----------

  lemma SameRequests(g: Group, h: Group)
    requires Safe(g) && h.taken == map[] && h.reqs == g.reqs && h.phase == g.phase && h.k == g.k
    ensures RequestsOk(h)
  {
    forall q | q in h.reqs ensures FlagsOk(h, h.reqs[q]) {
      assert FlagsOk(g, g.reqs[q]);
    }
  }

  lemma SameTables(reqs: map<RequestId, Flags>, s: State, t: State, i: nat)
    requires Placed(reqs, s, i) && t.table == s.table
    ensures Placed(reqs, t, i)
  {
    forall q: RequestId ensures FormatOf(t, q) == Wanted(reqs, q, i) {
      assert FormatOf(s, q) == Wanted(reqs, q, i);
    }
  }

  lemma FuseReserveSafe(g: Group)
    requires Safe(g) && Enabled(g, FuseReserve)
    ensures Safe(Apply(g, FuseReserve))
  {
    var h := Apply(g, FuseReserve);
    NothingTaken(g);
    forall i | 0 <= i < g.k ensures ManagerOk(h, i) {
      assert ManagerOk(g, i);
      ConvertAllMoves(Geo(g), g.mgrs[i], OutOf(g.taken, i));
      SameTables(g.reqs, g.mgrs[i], h.mgrs[i], i);
      MovedOk(g, h, i);
    }
    SameRequests(g, h);
  }

  lemma BeginDrainSafe(g: Group)
    requires Safe(g) && Enabled(g, BeginDrain)
    ensures Safe(Apply(g, BeginDrain))
  {
    var h := Apply(g, BeginDrain);
    NothingTaken(g);
    forall i | 0 <= i < g.k ensures ManagerOk(h, i) {
      assert ManagerOk(g, i);
    }
    SameRequests(g, h);
  }

  lemma DrainSafe(g: Group, i: nat)
    requires Safe(g) && Enabled(g, Drain(i))
    ensures Safe(Apply(g, Drain(i)))
  {
    var h := Apply(g, Drain(i));
    NothingTaken(g);
    forall j | 0 <= j < g.k ensures ManagerOk(h, j) {
      assert ManagerOk(g, j);
      if j == i {
        DrainSound(Geo(g), g.mgrs[i], OutOf(g.taken, i));
        SameTables(g.reqs, g.mgrs[i], h.mgrs[i], i);
      } else {
        UnmovedOk(g, h, j);
      }
    }
    SameRequests(g, h);
  }

  lemma PackSafe(g: Group, r: RequestId, i: nat)
    requires Safe(g) && Enabled(g, PackOne(r, i))
    ensures Safe(Apply(g, PackOne(r, i)))
  {
    var h := Apply(g, PackOne(r, i));
    NothingTaken(g);
    forall j | 0 <= j < g.k ensures ManagerOk(h, j) {
      var s := g.mgrs[j];
      assert ManagerOk(g, j);
      if j == i && Pack(s, r).Some? {
        assert FormatOf(s, r) == Wanted(g.reqs, r, i);
        PackMoves(Geo(g), s, OutOf(g.taken, i), r);
        PackShape(Geo(g), s, OutOf(g.taken, i), r);
        assert g.reqs[r := g.reqs[r]] == g.reqs;
        PlacedPut(g.reqs, s, i, h.mgrs[i], r, g.reqs[r], Cell);
        MovedOk(g, h, i);
      } else {
        UnmovedOk(g, h, j);
      }
    }
    SameRequests(g, h);
  }

  // ---------- phase conversions ----------

  lemma StaleOnly(g: Group, i: nat)
    requires Safe(g) && i < g.k && forall r | r in g.reqs :: !g.reqs[r].fusion
    ensures AllWhole(g.mgrs[i].table)
  {
    assert ManagerOk(g, i);
    forall r | r in g.mgrs[i].table ensures g.mgrs[i].table[r].format == Whole {
      assert FormatOf(g.mgrs[i], r) == Wanted(g.reqs, r, i);
    }
  }

  /** What is lost when a manager is rebuilt from its data does not matter to an instance on its own. */
  lemma RebuiltFaithful(g: Geometry, s: State)
    requires Standalone(g, s)
    ensures Rebuilt(g.n, s) == s.(numReserved := 0) && Standalone(g, Rebuilt(g.n, s))
    ensures forall k: nat :: ConvertToPipeline(Rebuilt(g.n, s), k) == ConvertToPipeline(s, k)
  {
    var t := Rebuilt(g.n, s);
    forall c: nat ensures Owners(g, t, map[], c) == Owners(g, s, map[], c) {}
  }

  lemma StandaloneManager(g: Group, i: nat)
    requires Safe(g) && g.phase == Initially && i < g.k
    ensures Standalone(Geo(g), Handed(g.n, g.mgrs[i], i))
  {
    assert ManagerOk(g, i);
    NothingTaken(g);
    assert OutOf(g.taken, i) == map[];
    forall r | r in g.reqs ensures !g.reqs[r].fusion {
      assert FlagsOk(g, g.reqs[r]);
    }
    StaleOnly(g, i);
    StandaloneAnyway(Geo(g), g.mgrs[i], g.draining);
    RebuiltFaithful(Geo(g), g.mgrs[i]);
  }

  lemma StandaloneAnyway(g: Geometry, s: State, draining: bool)
    requires g.k == 1 && Sound(g, s, map[], draining) && !s.isFusion && AllWhole(s.table)
    requires s.reserved == [] && s.maxReserved == 0 && s.maxGpu == g.n
    ensures Standalone(g, s)
  {
  }

  lemma ToBalloonManager(g: Group, extra: seq<nat>, holder: map<RequestId, nat>, engines: set<nat>, i: nat)
    requires Safe(g) && Enabled(g, ToBalloon(extra, holder, engines)) && i < g.k
    ensures ManagerOk(Apply(g, ToBalloon(extra, holder, engines)), i)
  {
    var h := Apply(g, ToBalloon(extra, holder, engines));
    var s := Handed(g.n, g.mgrs[i], i);
    StandaloneManager(g, i);
    NothingTaken(g);
    assert OutOf(h.taken, i) == map[];
    ConvertSound(Geo(g), Geo(h), s);
    AddExtendSound(Geo(h), ConvertToPipeline(s, g.k), map[], extra[i]);
    assert ManagerOk(g, i);
    SameTables(g.reqs, g.mgrs[i], h.mgrs[i], i);
  }

  lemma ToBalloonSafe(g: Group, extra: seq<nat>, holder: map<RequestId, nat>, engines: set<nat>)
    requires Safe(g) && Enabled(g, ToBalloon(extra, holder, engines))
    ensures Safe(Apply(g, ToBalloon(extra, holder, engines)))
  {
    forall i | 0 <= i < g.k ensures ManagerOk(Apply(g, ToBalloon(extra, holder, engines)), i) {
      ToBalloonManager(g, extra, holder, engines, i);
    }
    NothingTaken(g);
    forall r | r in g.reqs ensures FlagsOk(Apply(g, ToBalloon(extra, holder, engines)), g.reqs[r]) {
      assert FlagsOk(g, g.reqs[r]);
    }
  }

  lemma BackToBalloonManager(g: Group, extra: seq<nat>, holder: map<RequestId, nat>, engines: set<nat>, i: nat)
    requires Safe(g) && Enabled(g, BackToBalloon(extra, holder, engines)) && i < g.k
    ensures ManagerOk(Apply(g, BackToBalloon(extra, holder, engines)), i)
  {
    var h := Apply(g, BackToBalloon(extra, holder, engines));
    var s := g.mgrs[i];
    assert ManagerOk(g, i);
    assert OutOf(g.taken, i) == map[];
    ConvertWithReserveSound(Geo(g), s, g.draining);
    AddExtendSound(Geo(h), ConvertWithReserve(s, g.k), map[], extra[i]);
    SameTables(g.reqs, s, h.mgrs[i], i);
  }

  lemma BackToBalloonSafe(g: Group, extra: seq<nat>, holder: map<RequestId, nat>, engines: set<nat>)
    requires Safe(g) && Enabled(g, BackToBalloon(extra, holder, engines))
    ensures Safe(Apply(g, BackToBalloon(extra, holder, engines)))
  {
    forall i | 0 <= i < g.k ensures ManagerOk(Apply(g, BackToBalloon(extra, holder, engines)), i) {
      BackToBalloonManager(g, extra, holder, engines, i);
    }
    forall r | r in g.reqs ensures FlagsOk(Apply(g, BackToBalloon(extra, holder, engines)), g.reqs[r]) {
      assert FlagsOk(g, g.reqs[r]);
    }
  }

  lemma ToRestoreManager(g: Group, quota: nat, i: nat)
    requires Safe(g) && Enabled(g, ToRestore(quota)) && i < g.k
    ensures ManagerOk(Apply(g, ToRestore(quota)), i)
  {
    var h := Apply(g, ToRestore(quota));
    var s := g.mgrs[i];
    assert ManagerOk(g, i);
    NothingTaken(g);
    RestoreSound(Geo(g), s, OutOf(g.taken, i), quota);
    SameTables(g.reqs, s, h.mgrs[i], i);
  }

  lemma ToRestoreSafe(g: Group, quota: nat)
    requires Safe(g) && Enabled(g, ToRestore(quota)) && AtRest(g)
    ensures Safe(Apply(g, ToRestore(quota)))
  {
    forall i | 0 <= i < g.k ensures ManagerOk(Apply(g, ToRestore(quota)), i) {
      ToRestoreManager(g, quota, i);
    }
    NothingTaken(g);
    forall r | r in g.reqs ensures FlagsOk(Apply(g, ToRestore(quota)), g.reqs[r]) {
      assert FlagsOk(g, g.reqs[r]);
    }
  }

  lemma NoneInFlight(g: Group)
    requires Safe(g) && forall r | r in g.reqs :: !g.reqs[r].fusion
    ensures g.taken == map[]
  {
    forall q: RequestId ensures q !in g.taken {
      if q in g.taken {
        OnlyFused(g, q, g.taken[q]);
      }
    }
  }

  lemma OnlyFused(g: Group, r: RequestId, flight: Flight)
    ensures FlightOk(g, r, flight) ==> r in g.reqs && g.reqs[r].fusion
  {
  }

  lemma ToInitialManager(g: Group, i: nat)
    requires Safe(g) && Enabled(g, ToInitial) && i < g.k
    ensures ManagerOk(Apply(g, ToInitial), i)
  {
    var h := Apply(g, ToInitial);
    var s := g.mgrs[i];
    assert ManagerOk(g, i);
    NoneInFlight(g);
    assert OutOf(g.taken, i) == map[];
    StaleOnly(g, i);
    SplitSound(Geo(h), Geo(g), s, g.draining);
    RebuiltFaithful(Geo(h), RestoreFromFusion(s).value);
    SameTables(g.reqs, s, h.mgrs[i], i);
  }

  lemma ToInitialSafe(g: Group)
    requires Safe(g) && Enabled(g, ToInitial)
    ensures Safe(Apply(g, ToInitial))
  {
    forall i | 0 <= i < g.k ensures ManagerOk(Apply(g, ToInitial), i) {
      ToInitialManager(g, i);
    }
    NoneInFlight(g);
    forall r | r in g.reqs ensures FlagsOk(Apply(g, ToInitial), g.reqs[r]) {
      assert FlagsOk(g, g.reqs[r]);
    }
  }
}

/** One round of resharding: pages are reserved on the peers, then the page lists are exchanged. */
module Rounds {
  import opened Paging
  import opened Counting
  import opened Sorting
  import opened Pools
  import opened Requests
  import opened Group
  import opened GroupSafety
  import opened Ownership
  import opened Phases
  import opened LiveRestore
  import opened Runs
  import opened Reshard
  import opened Exchange

  // ---------- the page lists of a round ----------

  function HomedAt(requests: seq<Stale>, i: nat): (r: seq<Stale>)
    ensures forall j | 0 <= j < |r| :: r[j].home == i
  {
    if requests == [] then []
    else HomedAt(requests[..|requests| - 1], i)
         + (if requests[|requests| - 1].home == i then [requests[|requests| - 1]] else [])
  }

  function Homes(requests: seq<Stale>, k: nat): (r: seq<seq<Stale>>)
    ensures |r| == k
  {
    seq(k, i requires 0 <= i < k => HomedAt(requests, i))
  }

  function PageMaps(mgrs: seq<State>, homed: seq<seq<Stale>>, i: nat): (r: seq<seq<nat>>)
    requires |homed| == |mgrs| && i < |mgrs|
    ensures |r| == |mgrs|
  {
    seq(|mgrs|, j requires 0 <= j < |mgrs| => PageMap(mgrs, IdsOf(homed[j]), j, i))
  }

  function AllPageMaps(mgrs: seq<State>, homed: seq<seq<Stale>>): (r: seq<seq<seq<nat>>>)
    requires |homed| == |mgrs|
    ensures |r| == |mgrs|
  {
    seq(|mgrs|, i requires 0 <= i < |mgrs| => PageMaps(mgrs, homed, i))
  }

  function IdsOf(requests: seq<Stale>): (r: seq<RequestId>)
    ensures |r| == |requests| && forall j | 0 <= j < |r| :: r[j] == requests[j].id
  {
    seq(|requests|, j requires 0 <= j < |requests| => requests[j].id)
  }

  // ---------- when two page lists pair up ----------

  /** Position `p` of both page lists stands for page `x` of list `t`. */
  ghost predicate Denotes(own: seq<seq<nat>>, other: seq<seq<nat>>, p: nat, t: nat, x: nat) {
    var perm := Permutation(Flatten(own));
    && t < |own| && t < |other| && x < |own[t]| && x < |other[t]| && p < |perm|
    && Applied(Flatten(own), perm)[p] == own[t][x] && Applied(Flatten(other), perm)[p] == other[t][x]
  }

  ghost predicate Meets(own: seq<seq<nat>>, other: seq<seq<nat>>, p: nat) {
    exists t: nat, x: nat :: Denotes(own, other, p, t, x)
  }

  /** The receiver has as many pages as the sender, and page by page they belong together. */
  ghost predicate PairsUp(own: seq<seq<nat>>, other: seq<seq<nat>>) {
    && |Flatten(other)| == |Flatten(own)|
    && forall p | 0 <= p < |Flatten(own)| :: Meets(own, other, p)
  }

  lemma SameSizesPair(own: seq<seq<nat>>, other: seq<seq<nat>>)
    requires Sizes(own) == Sizes(other)
    ensures PairsUp(own, other)
  {
    ExchangePairs(own, other);
    FlattenLength(own);
    FlattenLength(other);
    var perm := Permutation(Flatten(own));
    forall p | 0 <= p < |Flatten(own)| ensures Meets(own, other, p) {
      var (t, x) := Locate(Sizes(own), perm[p]);
      assert Denotes(own, other, p, t, x);
    }
  }

  /** The place where a page stands, if it stands in one place only. */
  lemma LocateIs(lists: seq<seq<nat>>, q: nat, t: nat, x: nat)
    requires Distinct(Flatten(lists)) && q < |Flatten(lists)| && t < |lists| && x < |lists[t]|
    requires Flatten(lists)[q] == lists[t][x]
    ensures q < Total(Sizes(lists)) && Locate(Sizes(lists), q) == (t, x)
  {
    FlattenLength(lists);
    var r := PositionOf(Sizes(lists), t, x);
    FlattenAt(lists, r);
    assert q == r;
  }

  /** Lists in which every position stands for the same page have the same lengths. */
  lemma {:induction false} SameLocations(a: seq<nat>, b: seq<nat>)
    requires |a| == |b| && Total(a) == Total(b)
    requires forall q: nat | q < Total(a) :: Locate(a, q) == Locate(b, q)
    ensures a == b
  {
    if a != [] {
      var last := |a| - 1;
      FrontsEqual(a, b);
      FrontsEqual(b, a);
      assert Total(a[..last]) == Total(b[..last]) && a[last] == b[last];
      forall q: nat | q < Total(a[..last]) ensures Locate(a[..last], q) == Locate(b[..last], q) {
        assert Locate(a, q) == Locate(a[..last], q) && Locate(b, q) == Locate(b[..last], q);
      }
      SameLocations(a[..last], b[..last]);
      assert a == a[..last] + [a[last]] && b == b[..last] + [b[last]];
    }
  }

  lemma FrontsEqual(a: seq<nat>, b: seq<nat>)
    requires |a| == |b| > 0 && Total(a) == Total(b)
    requires forall q: nat | q < Total(a) :: Locate(a, q) == Locate(b, q)
    ensures Total(a[..|a| - 1]) >= Total(b[..|b| - 1])
  {
    var q := Total(a[..|a| - 1]);
    LocateFront(a, q);
    LocateFront(b, q);
  }

  lemma LocateFront(lens: seq<nat>, q: nat)
    requires lens != []
    ensures q < Total(lens) ==> (Locate(lens, q).0 < |lens| - 1 <==> q < Total(lens[..|lens| - 1]))
  {
    LocateBound(lens[..|lens| - 1]);
  }

  /** Page lists whose pages are all different pair up if and only if the lengths agree list by list. */
  lemma PairsExactly(own: seq<seq<nat>>, other: seq<seq<nat>>)
    requires |own| == |other| && Distinct(Flatten(own)) && Distinct(Flatten(other))
    ensures PairsUp(own, other) <==> Sizes(own) == Sizes(other)
  {
    if Sizes(own) == Sizes(other) {
      SameSizesPair(own, other);
    } else if PairsUp(own, other) {
      FlattenLength(own);
      FlattenLength(other);
      forall q: nat | q < Total(Sizes(own)) ensures Locate(Sizes(own), q) == Locate(Sizes(other), q) {
        SameLocation(own, other, q);
      }
      SameLocations(Sizes(own), Sizes(other));
    }
  }

  lemma SameLocation(own: seq<seq<nat>>, other: seq<seq<nat>>, q: nat)
    requires Distinct(Flatten(own)) && Distinct(Flatten(other)) && PairsUp(own, other) && q < |Flatten(own)|
    ensures q < Total(Sizes(own)) && q < Total(Sizes(other)) && Locate(Sizes(own), q) == Locate(Sizes(other), q)
  {
    var perm := Permutation(Flatten(own));
    PermutationCovers(Flatten(own));
    RangeMultiset(0, |Flatten(own)|, q);
    assert q in multiset(perm);
    var p := IndexOf(perm, q);
    assert Meets(own, other, p);
    var t: nat, x: nat :| Denotes(own, other, p, t, x);
    LocateIs(own, q, t, x);
    LocateIs(other, q, t, x);
  }

  // ---------- a round ----------

  /** What instance `i` receives from instance `j` pairs up with what `j` sends, for all of them. */
  ghost predicate RoundPairs(mgrs: seq<State>, homed: seq<seq<Stale>>)
    requires |homed| == |mgrs|
  {
    forall j, i | 0 <= j < |mgrs| && 0 <= i < |mgrs| && i != j ::
      PairsUp(PagesOf(mgrs[j], IdsOf(homed[j])), PagesOf(mgrs[i], IdsOf(homed[j])))
  }

  lemma {:induction false} HomedFrom(requests: seq<Stale>, i: nat)
    requires DistinctStale(requests)
    ensures var r := HomedAt(requests, i);
      && (forall s | s in r :: s in requests && s.home == i) && (forall s | s in requests && s.home == i :: s in r)
      && Distinct(IdsOf(r))
  {
    if requests != [] {
      var n := |requests| - 1;
      var front, last := requests[..n], requests[n];
      assert requests == front + [last];
      HomedFrom(front, i);
      forall s | s in HomedAt(front, i) ensures s.id != last.id {
        var a :| 0 <= a < n && front[a] == s;
        assert requests[a].id != requests[n].id;
      }
    }
  }

  lemma SizesOf(s: State, ids: seq<RequestId>)
    requires forall t | 0 <= t < |ids| :: ids[t] in s.table
    ensures forall t | 0 <= t < |ids| :: Sizes(PagesOf(s, ids))[t] == Held(s, ids[t])
  {
  }

  /** Sender `j` and receiver `i`, once the peers have reserved what was asked for. */
  lemma HomedPairs(g: Group, h: Group, ss: seq<Stale>, j: nat, i: nat)
    requires Safe(h) && h.phase == Balloon && Sized(g) && h.k == g.k && j < h.k && i < h.k && i != j
    requires Distinct(IdsOf(ss)) && forall t | 0 <= t < |ss| :: ss[t].home == j && Served(g, h, ss[t])
    ensures PairsUp(PagesOf(h.mgrs[j], IdsOf(ss)), PagesOf(h.mgrs[i], IdsOf(ss))) <==>
      forall t | 0 <= t < |ss| :: ss[t].need == Held(g.mgrs[j], ss[t].id)
  {
    var ids := IdsOf(ss);
    forall t | 0 <= t < |ids|
      ensures FormatOf(h.mgrs[j], ids[t]) == Some(Whole) && FormatOf(h.mgrs[i], ids[t]) == Some(Cell)
      ensures Held(h.mgrs[i], ids[t]) == ss[t].need && Held(h.mgrs[j], ids[t]) == Held(g.mgrs[j], ids[t])
    {
      assert Served(g, h, ss[t]) && ManagerOk(h, j);
      assert FormatOf(h.mgrs[j], ids[t]) == Wanted(h.reqs, ids[t], j);
      assert SameTable(g.mgrs[j], h.mgrs[j], ids[t]);
    }
    PagesDistinct(h, j, ids, Whole);
    PagesDistinct(h, i, ids, Cell);
    var own, other := PagesOf(h.mgrs[j], ids), PagesOf(h.mgrs[i], ids);
    PairsExactly(own, other);
    SizesOf(h.mgrs[j], ids);
    SizesOf(h.mgrs[i], ids);
    assert Sizes(own) == Sizes(other) <==> forall t | 0 <= t < |ids| :: Sizes(own)[t] == Sizes(other)[t];
  }

  lemma HomedPlaced(g: Group, h: Group, placed: seq<Stale>, j: nat, i: nat)
    requires Safe(h) && h.phase == Balloon && Sized(g) && h.k == g.k && DistinctStale(placed)
    requires forall s | s in placed :: s.home < g.k && Served(g, h, s)
    requires j < g.k && i < g.k && i != j
    ensures var ids := IdsOf(HomedAt(placed, j));
      PairsUp(PagesOf(h.mgrs[j], ids), PagesOf(h.mgrs[i], ids)) <==>
        forall s | s in placed && s.home == j :: s.need == Held(g.mgrs[j], s.id)
  {
    var r := HomedAt(placed, j);
    HomedFrom(placed, j);
    forall t | 0 <= t < |r| ensures r[t] in placed && r[t].home == j {
      assert r[t] in r;
    }
    HomedPairs(g, h, r, j, i);
    if forall t | 0 <= t < |r| :: r[t].need == Held(g.mgrs[j], r[t].id) {
      forall s | s in placed && s.home == j ensures s.need == Held(g.mgrs[j], s.id) {
        var t :| 0 <= t < |r| && r[t] == s;
      }
    }
  }

  lemma PlacedFits(g: Group, h: Group, placed: seq<Stale>)
    requires Safe(h) && h.phase == Balloon && Sized(g) && h.k == g.k && DistinctStale(placed)
    requires forall s | s in placed :: s.home < g.k && Served(g, h, s)
    requires forall s | s in placed :: s.need == Held(g.mgrs[s.home], s.id)
    ensures RoundPairs(h.mgrs, Homes(placed, g.k))
  {
    forall j, i | 0 <= j < g.k && 0 <= i < g.k && i != j
      ensures PairsUp(PagesOf(h.mgrs[j], IdsOf(HomedAt(placed, j))), PagesOf(h.mgrs[i], IdsOf(HomedAt(placed, j))))
    {
      HomedPlaced(g, h, placed, j, i);
    }
  }

  lemma PlacedPair(g: Group, h: Group, placed: seq<Stale>)
    requires Safe(h) && h.phase == Balloon && Sized(g) && h.k == g.k > 1 && DistinctStale(placed)
    requires forall s | s in placed :: s.home < g.k && Served(g, h, s)
    requires RoundPairs(h.mgrs, Homes(placed, g.k))
    ensures forall s | s in placed :: s.need == Held(g.mgrs[s.home], s.id)
  {
    forall s | s in placed ensures s.need == Held(g.mgrs[s.home], s.id) {
      var j, i := s.home, if s.home == 0 then 1 else 0;
      assert Homes(placed, g.k)[j] == HomedAt(placed, j);
      HomedPlaced(g, h, placed, j, i);
    }
  }

  lemma PlacedServed(g: Group, h: Group, head: seq<Stale>, placed: seq<Stale>, unplaced: seq<Stale>)
    requires Safe(h) && PrepareEffect(g, h, head, placed, unplaced)
    ensures forall s | s in placed :: s.home < h.k && Served(g, h, s)
  {
    forall s | s in placed ensures s.home < h.k && Served(g, h, s) {
      var a :| 0 <= a < |placed| && placed[a] == s;
      assert HalfWay(h, s) && FlagsOk(h, h.reqs[s.id]);
    }
  }

  /** After the reservation of a round, all page lists of the exchange pair up if and only if each request
      served was given on the peers exactly as many pages as its home table holds. */
  lemma RoundPairsExactly(g: Group, head: seq<Stale>)
    requires Safe(g) && g.phase == Balloon && g.k > 1 && DistinctStale(head)
    requires forall i | 0 <= i < |head| :: StaleIn(g, head[i])
    ensures var (mgrs, placed, _) := PrepareAll(g.mgrs, head);
      RoundPairs(mgrs, Homes(placed, g.k)) <==>
        forall s | s in placed :: s.home < g.k && s.need == Held(g.mgrs[s.home], s.id)
  {
    var (mgrs, placed, unplaced) := PrepareAll(g.mgrs, head);
    var h := PrepareAllSafe(g, head);
    PlacedServed(g, h, head, placed, unplaced);
    if forall s | s in placed :: s.need == Held(g.mgrs[s.home], s.id) {
      PlacedFits(g, h, placed);
    }
    if RoundPairs(mgrs, Homes(placed, g.k)) {
      PlacedPair(g, h, placed);
    }
  }

  // ---------- the maps of a round ----------

  /** At place `p` of what is sent and of what is taken stand pages of one request, at the same index of its table
      on the sender and of its table on the receiver. */
  ghost predicate SamePage(sender: State, receiver: State, requests: seq<Stale>, home: nat, sent: seq<nat>,
                           taken: seq<nat>, p: nat) {
    exists s: Stale, x: nat ::
      && s in requests && s.home == home && s.id in sender.table && s.id in receiver.table
      && x < Held(sender, s.id) && x < Held(receiver, s.id) && p < |sent| && p < |taken|
      && sent[p] == sender.table[s.id].pages[x] && taken[p] == receiver.table[s.id].pages[x]
  }

  /** `maps[i][j]` are the pages instance `i` uses for what instance `j` sends: page by page they belong together, the
      sender goes through its own in increasing order, and leaves none out. */
  ghost predicate MapsFit(mgrs: seq<State>, requests: seq<Stale>, maps: seq<seq<seq<nat>>>, j: nat, i: nat)
    requires |maps| == |mgrs| && j < |mgrs| && i < |mgrs|
  {
    && |maps[j]| == |maps[i]| == |mgrs| && |maps[i][j]| == |maps[j][j]|
    && (forall p | 0 <= p < |maps[j][j]| :: SamePage(mgrs[j], mgrs[i], requests, j, maps[j][j], maps[i][j], p))
    && Increasing(maps[j][j])
    && forall s, x | s in requests && s.home == j && 0 <= x < Held(mgrs[j], s.id) ::
         mgrs[j].table[s.id].pages[x] in maps[j][j]
  }

  lemma HomedFit(h: Group, requests: seq<Stale>, ss: seq<Stale>, j: nat, i: nat)
    requires Safe(h) && j < h.k && i < h.k && Distinct(IdsOf(ss))
    requires forall s | s in ss :: s in requests && s.home == j
    requires forall s | s in requests && s.home == j :: s in ss
    requires forall s | s in ss :: FormatOf(h.mgrs[j], s.id) == Some(Whole)
    requires forall s | s in ss :: s.id in h.mgrs[i].table && Held(h.mgrs[i], s.id) == Held(h.mgrs[j], s.id)
    ensures var sent, taken := PageMap(h.mgrs, IdsOf(ss), j, j), PageMap(h.mgrs, IdsOf(ss), j, i);
      && |sent| == |taken| && Increasing(sent)
      && (forall p | 0 <= p < |sent| :: SamePage(h.mgrs[j], h.mgrs[i], requests, j, sent, taken, p))
      && forall s, x | s in requests && s.home == j && 0 <= x < Held(h.mgrs[j], s.id) ::
           h.mgrs[j].table[s.id].pages[x] in sent
  {
    var ids := IdsOf(ss);
    forall t | 0 <= t < |ids|
      ensures ids[t] == ss[t].id && ss[t] in ss && FormatOf(h.mgrs[j], ids[t]) == Some(Whole)
      ensures ids[t] in h.mgrs[i].table && Held(h.mgrs[i], ids[t]) == Held(h.mgrs[j], ids[t])
    {
      assert ss[t] in ss;
    }
    ExchangeInGroup(h, j, i, ids);
    var sent, taken := PageMap(h.mgrs, ids, j, j), PageMap(h.mgrs, ids, j, i);
    forall p | 0 <= p < |sent| ensures SamePage(h.mgrs[j], h.mgrs[i], requests, j, sent, taken, p) {
      assert PairedAt(h, j, i, ids, p);
      var t: nat, x: nat :|
        && t < |ids| && ids[t] in h.mgrs[j].table && ids[t] in h.mgrs[i].table
        && x < Held(h.mgrs[j], ids[t]) && x < Held(h.mgrs[i], ids[t])
        && p < |sent| && p < |taken|
        && sent[p] == h.mgrs[j].table[ids[t]].pages[x] && taken[p] == h.mgrs[i].table[ids[t]].pages[x];
      assert ss[t] in requests && ss[t].home == j && ss[t].id == ids[t];
    }
    forall s, x | s in requests && s.home == j && 0 <= x < Held(h.mgrs[j], s.id)
      ensures h.mgrs[j].table[s.id].pages[x] in sent
    {
      var t :| 0 <= t < |ss| && ss[t] == s;
      assert ids[t] == s.id;
    }
  }

  lemma PlacedMaps(g: Group, h: Group, placed: seq<Stale>, j: nat, i: nat)
    requires Safe(h) && Sized(g) && h.k == g.k && DistinctStale(placed) && j < h.k && i < h.k
    requires forall s | s in placed :: s.home < g.k && Served(g, h, s) && s.need == Held(g.mgrs[s.home], s.id)
    ensures MapsFit(h.mgrs, placed, AllPageMaps(h.mgrs, Homes(placed, h.k)), j, i)
  {
    var ss := HomedAt(placed, j);
    HomedFrom(placed, j);
    forall s | s in ss
      ensures FormatOf(h.mgrs[j], s.id) == Some(Whole) && s.id in h.mgrs[i].table
      ensures Held(h.mgrs[i], s.id) == Held(h.mgrs[j], s.id)
    {
      ServedTables(g, h, s, j, i);
    }
    HomedFit(h, placed, ss, j, i);
  }

  /** After the reservation of a round in which every request served was given as many pages as its home table
      holds: on all instances the maps of the exchange are pages of one request at one index, read off the tables. */
  lemma MapsPairUp(g: Group, head: seq<Stale>)
    requires Safe(g) && g.phase == Balloon && DistinctStale(head)
    requires forall i | 0 <= i < |head| :: StaleIn(g, head[i])
    requires forall s | s in PrepareAll(g.mgrs, head).1 :: s.home < g.k && s.need == Held(g.mgrs[s.home], s.id)
    ensures var (mgrs, placed, _) := PrepareAll(g.mgrs, head);
      var maps := AllPageMaps(mgrs, Homes(placed, g.k));
      forall j, i | 0 <= j < g.k && 0 <= i < g.k :: MapsFit(mgrs, placed, maps, j, i)
  {
    var (mgrs, placed, unplaced) := PrepareAll(g.mgrs, head);
    var h := PrepareAllSafe(g, head);
    PlacedServed(g, h, head, placed, unplaced);
    forall j, i | 0 <= j < g.k && 0 <= i < g.k
      ensures MapsFit(mgrs, placed, AllPageMaps(mgrs, Homes(placed, g.k)), j, i)
    {
      PlacedMaps(g, h, placed, j, i);
    }
  }

  lemma ServedTables(g: Group, h: Group, s: Stale, j: nat, i: nat)
    requires Safe(h) && Served(g, h, s) && s.home == j < h.k && i < h.k && s.need == Held(g.mgrs[j], s.id)
    ensures FormatOf(h.mgrs[j], s.id) == Some(Whole) && s.id in h.mgrs[i].table
    ensures Held(h.mgrs[i], s.id) == Held(h.mgrs[j], s.id)
  {
    assert ManagerOk(h, j);
    assert FormatOf(h.mgrs[j], s.id) == Wanted(h.reqs, s.id, j);
    assert SameTable(g.mgrs[j], h.mgrs[j], s.id);
  }

  // ---------- one token too many ----------

  /** Two requests of one page each; the first got its next token, but not its next page, before the peers
      reserved two pages for it. What is sent as the second request's page arrives in a page of the first. */
  lemma BoundaryMispairs()
    ensures var own, other := [[0], [1]], [[5, 6], [7]];
      var perm := Permutation(Flatten(own));
      && Applied(Flatten(own), perm) == [0, 1] && Applied(Flatten(other), perm) == [5, 6]
      && !PairsUp(own, other)
  {
    var own: seq<seq<nat>>, other: seq<seq<nat>> := [[0], [1]], [[5, 6], [7]];
    assert own[..1] == [[0]] && own[..1][..0] == [];
    assert other[..1] == [[5, 6]] && other[..1][..0] == [];
    assert Flatten(own[..1]) == [0] && Flatten(other[..1]) == [5, 6];
    assert Flatten(own) == [0, 1] && Flatten(other) == [5, 6, 7];
    assert Range(0, 1) == [0] && Range(0, 2) == [0, 1];
    var perm := Permutation([0, 1]);
    assert perm == [0, 1];
    assert perm[..1] == [0] && perm[..1][..0] == [];
    assert Applied([0, 1], perm[..1]) == [0] && Applied([5, 6, 7], perm[..1]) == [5];
  }
}

/**
  The page lists of one exchange. Instance `j` sorts its own pages and every instance applies the same
  permutation, so that senders and receivers pair up page by page.
 */
module Exchange {
  import opened Paging
  import opened Sorting
  import opened Counting
  import opened Pools
  import opened Ownership
  import opened Phases
  import opened Transfers
  import opened Group
  import opened GroupSafety
  import opened Runs

  /** The page lists of all requests, one after the other. */
  function Flatten(lists: seq<seq<nat>>): seq<nat> {
    if lists == [] then [] else Flatten(lists[..|lists| - 1]) + lists[|lists| - 1]
  }

  function RankKey(raw: seq<nat>): nat -> int {
    (q: nat) => if q < |raw| then raw[q] else 0
  }

  /** `sorted(range(len(raw)), key=lambda k: (raw[k], k))`: ties keep their order because the sort is stable. */
  function Permutation(raw: seq<nat>): seq<nat> {
    SortBy(Range(0, |raw|), RankKey(raw))
  }

  function Applied(raw: seq<nat>, perm: seq<nat>): (r: seq<nat>)
    ensures |r| == |perm|
    ensures forall p | 0 <= p < |perm| && perm[p] < |raw| :: r[p] == raw[perm[p]]
  {
    if perm == [] then []
    else
      var q := perm[|perm| - 1];
      Applied(raw, perm[..|perm| - 1]) + [if q < |raw| then raw[q] else 0]
  }

  lemma PermutationCovers(raw: seq<nat>)
    ensures var perm := Permutation(raw);
      && |perm| == |raw| && multiset(perm) == multiset(Range(0, |raw|))
      && Distinct(perm) && Bounded(perm, |raw|)
      && SortedBy(perm, RankKey(raw))
  {
    var all := Range(0, |raw|);
    var perm := Permutation(raw);
    SortMultiset(all, RankKey(raw));
    SortSorted(all, RankKey(raw));
    RangeMultiset(0, |raw|, 0);
    forall p | 0 <= p < |perm| ensures perm[p] < |raw| {
      assert perm[p] in multiset(perm);
      var i := IndexOf(all, perm[p]);
    }
    forall p, t | 0 <= p < t < |perm| ensures perm[p] != perm[t] {
      if perm[p] == perm[t] {
        RangeMultiset(0, |raw|, perm[p]);
        RepeatedCount(perm, p, t);
      }
    }
  }

  /** The request and the page index that position `q` of the flattened lists stands for. */
  function Locate(lens: seq<nat>, q: nat): (nat, nat)
    requires q < Total(lens)
  {
    var last := |lens| - 1;
    if q >= Total(lens[..last]) then (last, q - Total(lens[..last])) else Locate(lens[..last], q)
  }

  function Sizes(lists: seq<seq<nat>>): (r: seq<nat>)
    ensures |r| == |lists| && forall t | 0 <= t < |lists| :: r[t] == |lists[t]|
  {
    if lists == [] then [] else Sizes(lists[..|lists| - 1]) + [|lists[|lists| - 1]|]
  }

  lemma {:induction false} FlattenLength(lists: seq<seq<nat>>)
    ensures |Flatten(lists)| == Total(Sizes(lists))
  {
    if lists != [] {
      FlattenLength(lists[..|lists| - 1]);
      assert Sizes(lists)[..|lists| - 1] == Sizes(lists[..|lists| - 1]);
    }
  }

  lemma {:induction false} FlattenAt(lists: seq<seq<nat>>, q: nat)
    requires q < |Flatten(lists)|
    ensures q < Total(Sizes(lists))
    ensures var (t, x) := Locate(Sizes(lists), q);
      t < |lists| && x < |lists[t]| && Flatten(lists)[q] == lists[t][x]
  {
    var last := |lists| - 1;
    FlattenLength(lists);
    FlattenLength(lists[..last]);
    assert Sizes(lists)[..last] == Sizes(lists[..last]);
    if q < |Flatten(lists[..last])| {
      FlattenAt(lists[..last], q);
      var (t, x) := Locate(Sizes(lists[..last]), q);
      assert lists[..last][t] == lists[t];
    }
  }

  /** Positions that stand for the same page of the same request are equal. */
  lemma {:induction false} LocateOnce(lens: seq<nat>, p: nat, q: nat)
    requires p < Total(lens) && q < Total(lens) && Locate(lens, p) == Locate(lens, q)
    ensures p == q
  {
    var front := lens[..|lens| - 1];
    LocateBound(front);
    if p < Total(front) && q < Total(front) {
      LocateOnce(front, p, q);
    }
  }

  lemma {:induction false} LocateBound(lens: seq<nat>)
    ensures forall q: nat | q < Total(lens) :: Locate(lens, q).0 < |lens| && Locate(lens, q).1 < lens[Locate(lens, q).0]
  {
    if lens != [] {
      LocateBound(lens[..|lens| - 1]);
    }
  }

  /** If two instances hold tables of the same lengths for the requests of instance `j`, then after both
      apply `j`'s permutation position `p` denotes the same page of the same request on either side,
      no page is denoted twice, and none is left out. */
  lemma ExchangePairs(own: seq<seq<nat>>, other: seq<seq<nat>>)
    requires Sizes(own) == Sizes(other)
    ensures var lens := Sizes(own);
      var perm := Permutation(Flatten(own));
      && |perm| == Total(lens)
      && (forall p | 0 <= p < |perm| ::
            && perm[p] < Total(lens)
            && var (t, x) := Locate(lens, perm[p]);
               && t < |own| && x < |own[t]| && |other| == |own| && x < |other[t]|
               && Applied(Flatten(own), perm)[p] == own[t][x]
               && Applied(Flatten(other), perm)[p] == other[t][x])
      && (forall p, p' | 0 <= p < p' < |perm| :: perm[p] < Total(lens) && perm[p'] < Total(lens) &&
            Locate(lens, perm[p]) != Locate(lens, perm[p']))
  {
    var lens := Sizes(own);
    var perm := Permutation(Flatten(own));
    FlattenLength(own);
    FlattenLength(other);
    PermutationCovers(Flatten(own));
    forall p | 0 <= p < |perm|
      ensures perm[p] < Total(lens)
      ensures var (t, x) := Locate(lens, perm[p]);
        && t < |own| && x < |own[t]| && |other| == |own| && x < |other[t]|
        && Applied(Flatten(own), perm)[p] == own[t][x]
        && Applied(Flatten(other), perm)[p] == other[t][x]
    {
      FlattenAt(own, perm[p]);
      FlattenAt(other, perm[p]);
    }
    forall p, p' | 0 <= p < p' < |perm| ensures Locate(lens, perm[p]) != Locate(lens, perm[p']) {
      if Locate(lens, perm[p]) == Locate(lens, perm[p']) {
        LocateOnce(lens, perm[p], perm[p']);
      }
    }
  }

  lemma {:induction false} PositionOf(lens: seq<nat>, t: nat, x: nat) returns (q: nat)
    requires t < |lens| && x < lens[t]
    ensures q < Total(lens) && Locate(lens, q) == (t, x)
  {
    var last := |lens| - 1;
    if t == last {
      q := Total(lens[..last]) + x;
    } else {
      q := PositionOf(lens[..last], t, x);
    }
  }

  /** Every page is sent. */
  lemma AllSent(lists: seq<seq<nat>>, t: nat, x: nat)
    requires t < |lists| && x < |lists[t]|
    ensures lists[t][x] in Applied(Flatten(lists), Permutation(Flatten(lists)))
  {
    var raw := Flatten(lists);
    var perm := Permutation(raw);
    var q := PositionOf(Sizes(lists), t, x);
    FlattenLength(lists);
    FlattenAt(lists, q);
    PermutationCovers(raw);
    RangeMultiset(0, |raw|, q);
    assert q in multiset(perm);
    var p := IndexOf(perm, q);
    assert Applied(raw, perm)[p] == raw[q];
  }

  ghost predicate Increasing(p: seq<nat>) {
    forall i, j | 0 <= i < j < |p| :: p[i] < p[j]
  }

  /** The sender reads its own pages in strictly increasing order, if it owns each of them once. */
  lemma SenderIncreasing(raw: seq<nat>)
    requires Distinct(raw)
    ensures Increasing(Applied(raw, Permutation(raw)))
  {
    var perm := Permutation(raw);
    PermutationCovers(raw);
    var r := Applied(raw, perm);
    forall i, j | 0 <= i < j < |r| ensures r[i] < r[j] {
      var key := RankKey(raw);
      assert key(perm[i]) <= key(perm[j]);
      assert perm[i] != perm[j];
    }
  }

  // ---------- inside a group ----------

  function PagesOf(s: State, ids: seq<RequestId>): (r: seq<seq<nat>>)
    ensures |r| == |ids| && forall t | 0 <= t < |ids| && ids[t] in s.table :: r[t] == s.table[ids[t]].pages
  {
    if ids == [] then []
    else
      var r := ids[|ids| - 1];
      PagesOf(s, ids[..|ids| - 1]) + [if r in s.table then s.table[r].pages else []]
  }

  /** `block_table_map[j]` as instance `i` builds it. */
  function PageMap(mgrs: seq<State>, ids: seq<RequestId>, j: nat, i: nat): seq<nat>
    requires j < |mgrs| && i < |mgrs|
  {
    Applied(Flatten(PagesOf(mgrs[i], ids)), Permutation(Flatten(PagesOf(mgrs[j], ids))))
  }

  lemma LocatedPage(lists: seq<seq<nat>>, p: nat) returns (t: nat, x: nat)
    requires p < |Flatten(lists)|
    ensures p < Total(Sizes(lists)) && (t, x) == Locate(Sizes(lists), p)
    ensures t < |lists| && x < |lists[t]| && Flatten(lists)[p] == lists[t][x]
  {
    FlattenLength(lists);
    FlattenAt(lists, p);
    t, x := Locate(Sizes(lists), p).0, Locate(Sizes(lists), p).1;
  }

  /** The tables of `ids` on manager `j` are all of one format. */
  ghost predicate AllOf(g: Group, j: nat, ids: seq<RequestId>, format: Format)
    requires j < |g.mgrs|
  {
    forall t | 0 <= t < |ids| :: FormatOf(g.mgrs[j], ids[t]) == Some(format)
  }

  /** Pages of different requests never coincide. */
  lemma PagesDistinct(g: Group, j: nat, ids: seq<RequestId>, format: Format)
    requires Safe(g) && j < g.k && Distinct(ids) && AllOf(g, j, ids, format)
    ensures Distinct(Flatten(PagesOf(g.mgrs[j], ids)))
  {
    var raw := Flatten(PagesOf(g.mgrs[j], ids));
    forall p, q | 0 <= p < q < |raw| ensures raw[p] != raw[q] {
      if raw[p] == raw[q] {
        PageOnce(g, j, ids, format, p, q);
      }
    }
  }

  lemma PageOnce(g: Group, j: nat, ids: seq<RequestId>, format: Format, p: nat, q: nat)
    requires Safe(g) && j < g.k && Distinct(ids) && AllOf(g, j, ids, format)
    requires var raw := Flatten(PagesOf(g.mgrs[j], ids)); p < |raw| && q < |raw| && raw[p] == raw[q]
    ensures p == q
  {
    var lists := PagesOf(g.mgrs[j], ids);
    var t, x := LocatedPage(lists, p);
    var u, y := LocatedPage(lists, q);
    assert FormatOf(g.mgrs[j], ids[t]) == Some(format) && FormatOf(g.mgrs[j], ids[u]) == Some(format);
    SharedPage(g, j, ids[t], x, ids[u], y);
    assert t == u;
    LocateOnce(Sizes(lists), p, q);
  }

  lemma SharedPage(g: Group, j: nat, r: RequestId, x: nat, q: RequestId, y: nat)
    requires Safe(g) && j < g.k
    requires r in g.mgrs[j].table && q in g.mgrs[j].table && g.mgrs[j].table[r].format == g.mgrs[j].table[q].format
    requires x < |g.mgrs[j].table[r].pages| && y < |g.mgrs[j].table[q].pages|
    requires g.mgrs[j].table[r].pages[x] == g.mgrs[j].table[q].pages[y]
    ensures r == q && x == y
  {
    assert ManagerOk(g, j);
    var c := g.mgrs[j].table[r].pages[x];
    assert SlotShape(Geo(g), g.mgrs[j].numExtend, g.mgrs[j].table[r]);
    BlocksWithinCells(Geo(g));
    if g.mgrs[j].table[r].format == Whole {
      DivMod(0, Geo(g).n, c);
    }
    SafeSharesNothing(g, j, r, x, q, y, c);
  }

  /** Stale pages of different requests never coincide in a reachable state. */
  lemma StalePagesDistinct(g: Group, j: nat, ids: seq<RequestId>)
    requires Reachable(g) && Sized(g) && j < g.k && Distinct(ids)
    requires forall t | 0 <= t < |ids| :: FormatOf(g.mgrs[j], ids[t]) == Some(Whole)
    ensures Distinct(Flatten(PagesOf(g.mgrs[j], ids)))
  {
    ReachableSafe(g);
    PagesDistinct(g, j, ids, Whole);
  }

  /** Position `p` of both page lists denotes one page of one request. */
  ghost predicate PairedAt(g: Group, j: nat, i: nat, ids: seq<RequestId>, p: nat)
    requires j < |g.mgrs| && i < |g.mgrs|
  {
    exists t: nat, x: nat ::
      && t < |ids| && ids[t] in g.mgrs[j].table && ids[t] in g.mgrs[i].table
      && x < Held(g.mgrs[j], ids[t]) && x < Held(g.mgrs[i], ids[t])
      && p < |PageMap(g.mgrs, ids, j, j)| && p < |PageMap(g.mgrs, ids, j, i)|
      && PageMap(g.mgrs, ids, j, j)[p] == g.mgrs[j].table[ids[t]].pages[x]
      && PageMap(g.mgrs, ids, j, i)[p] == g.mgrs[i].table[ids[t]].pages[x]
  }

  lemma PairedPosition(g: Group, j: nat, i: nat, ids: seq<RequestId>, p: nat)
    requires j < |g.mgrs| && i < |g.mgrs|
    requires forall t | 0 <= t < |ids| ::
      && ids[t] in g.mgrs[j].table && ids[t] in g.mgrs[i].table
      && Held(g.mgrs[i], ids[t]) == Held(g.mgrs[j], ids[t])
    requires p < |PageMap(g.mgrs, ids, j, j)|
    ensures PairedAt(g, j, i, ids, p)
  {
    var own, other := PagesOf(g.mgrs[j], ids), PagesOf(g.mgrs[i], ids);
    assert Sizes(own) == Sizes(other);
    ExchangePairs(own, other);
    var perm := Permutation(Flatten(own));
    var (t, x) := Locate(Sizes(own), perm[p]);
    assert own[t] == g.mgrs[j].table[ids[t]].pages && other[t] == g.mgrs[i].table[ids[t]].pages;
  }

  /** Between the reservation and the conversion every page list of one exchange pairs up. */
  lemma ExchangeInGroup(g: Group, j: nat, i: nat, ids: seq<RequestId>)
    requires Safe(g) && j < g.k && i < g.k && Distinct(ids)
    requires forall t | 0 <= t < |ids| :: FormatOf(g.mgrs[j], ids[t]) == Some(Whole)
    requires forall t | 0 <= t < |ids| ::
      ids[t] in g.mgrs[i].table && Held(g.mgrs[i], ids[t]) == Held(g.mgrs[j], ids[t])
    ensures Increasing(PageMap(g.mgrs, ids, j, j))
    ensures |PageMap(g.mgrs, ids, j, i)| == |PageMap(g.mgrs, ids, j, j)| == Total(Sizes(PagesOf(g.mgrs[j], ids)))
    ensures forall p | 0 <= p < |PageMap(g.mgrs, ids, j, j)| :: PairedAt(g, j, i, ids, p)
    ensures forall t, x | 0 <= t < |ids| && 0 <= x < Held(g.mgrs[j], ids[t]) ::
      g.mgrs[j].table[ids[t]].pages[x] in PageMap(g.mgrs, ids, j, j)
  {
    var own, other := PagesOf(g.mgrs[j], ids), PagesOf(g.mgrs[i], ids);
    assert Sizes(own) == Sizes(other);
    ExchangePairs(own, other);
    forall p | 0 <= p < |PageMap(g.mgrs, ids, j, j)| ensures PairedAt(g, j, i, ids, p) {
      PairedPosition(g, j, i, ids, p);
    }
    PagesDistinct(g, j, ids, Whole);
    SenderIncreasing(Flatten(own));
    forall t, x | 0 <= t < |ids| && 0 <= x < Held(g.mgrs[j], ids[t])
      ensures g.mgrs[j].table[ids[t]].pages[x] in PageMap(g.mgrs, ids, j, j)
    {
      AllSent(own, t, x);
    }
  }
}

/** Spreading the waiting prompts over the virtual engines of a fused group. */
module Placement {
  import opened Counting
  import opened Sorting
  import opened Balance
  import opened Requests

  /** The queues of one virtual engine. */
  datatype Queues = Queues(short: seq<Req>, long: seq<Req>)

  datatype Policy = Policy(packing: bool, threshold: real, reorder: bool)

  function Length(q: Req): nat {
    |q.prompt|
  }

  function LongerFirst(): Req -> int { (q: Req) => 0 - |q.prompt| }

  function ShorterFirst(): Req -> int { (q: Req) => Length(q) }

  function EarlierFirst(): Req -> int { (q: Req) => q.arrival }

  function Lengths(reqs: seq<Req>): (r: seq<nat>)
    ensures |r| == |reqs|
  {
    seq(|reqs|, i requires 0 <= i < |reqs| => Length(reqs[i]))
  }

  predicate IsLong(p: Policy, q: Req) {
    Length(q) as real > p.threshold
  }

  function Enqueue(p: Policy, e: Queues, q: Req): Queues {
    if !p.packing then e.(short := [q] + e.short)
    else if IsLong(p, q) then e.(long := e.long + [q])
    else e.(short := e.short + [q])
  }

  /** Each request goes to the first least loaded engine. */
  function PlaceAll(p: Policy, engines: seq<Queues>, start: seq<nat>, reqs: seq<Req>): (r: seq<Queues>)
    requires |engines| == |start| > 0
    ensures |r| == |engines|
  {
    if reqs == [] then engines
    else
      var last := |reqs| - 1;
      var r := PlaceAll(p, engines, start, reqs[..last]);
      var i := MinIndex(Loads(start, Lengths(reqs[..last])));
      r[i := Enqueue(p, r[i], reqs[last])]
  }

  function Reordered(p: Policy, wasEmpty: bool, e: Queues): Queues {
    if !p.reorder then e.(short := SortBy(e.short, EarlierFirst()))
    else if wasEmpty then e.(short := SortBy(e.short, ShorterFirst()))
    else e
  }

  predicate NoneWaiting(engines: seq<Queues>) {
    forall i | 0 <= i < |engines| :: engines[i].short == []
  }

  /** `balance_prefill` without the balancing of decodes; `waiting` is the global queue, `start` the load of
      each engine. */
  function BalancePrefill(p: Policy, engines: seq<Queues>, start: seq<nat>, waiting: seq<Req>): (r: seq<Queues>)
    requires |engines| == |start| > 0
    ensures |r| == |engines|
  {
    if waiting == [] then engines
    else
      var placed := PlaceAll(p, engines, start, SortBy(waiting, LongerFirst()));
      seq(|placed|, i requires 0 <= i < |placed| => Reordered(p, NoneWaiting(engines), placed[i]))
  }

  // ---------- nobody is lost, nobody is doubled ----------

  ghost function Copies(reqs: seq<Req>, q: Req): nat {
    multiset(reqs)[q]
  }

  /** How often `q` is in the short queues, and in the long ones. */
  ghost function Shorts(engines: seq<Queues>, q: Req): nat {
    if engines == [] then 0 else Shorts(engines[..|engines| - 1], q) + Copies(engines[|engines| - 1].short, q)
  }

  ghost function Longs(engines: seq<Queues>, q: Req): nat {
    if engines == [] then 0 else Longs(engines[..|engines| - 1], q) + Copies(engines[|engines| - 1].long, q)
  }

  lemma {:induction false} QueuesUpdate(engines: seq<Queues>, i: nat, e: Queues, q: Req)
    requires i < |engines|
    ensures Shorts(engines[i := e], q) + Copies(engines[i].short, q) == Shorts(engines, q) + Copies(e.short, q)
    ensures Longs(engines[i := e], q) + Copies(engines[i].long, q) == Longs(engines, q) + Copies(e.long, q)
  {
    var last := |engines| - 1;
    if i < last {
      QueuesUpdate(engines[..last], i, e, q);
      assert engines[i := e][..last] == engines[..last][i := e];
    } else {
      assert engines[i := e][..last] == engines[..last];
    }
  }

  lemma {:induction false} PlaceAllConserves(p: Policy, engines: seq<Queues>, start: seq<nat>, reqs: seq<Req>, q: Req)
    requires |engines| == |start| > 0
    ensures var r := PlaceAll(p, engines, start, reqs);
      && Longs(r, q) == Longs(engines, q) + (if p.packing && IsLong(p, q) then Copies(reqs, q) else 0)
      && Shorts(r, q) == Shorts(engines, q) + (if p.packing && IsLong(p, q) then 0 else Copies(reqs, q))
  {
    if reqs != [] {
      var last := |reqs| - 1;
      PlaceAllConserves(p, engines, start, reqs[..last], q);
      var r := PlaceAll(p, engines, start, reqs[..last]);
      var i := MinIndex(Loads(start, Lengths(reqs[..last])));
      QueuesUpdate(r, i, Enqueue(p, r[i], reqs[last]), q);
      EnqueueAdds(p, r[i], reqs[last], q);
      CopiesLast(reqs, q);
    }
  }

  lemma CopiesLast(reqs: seq<Req>, q: Req)
    requires reqs != []
    ensures Copies(reqs, q) == Copies(reqs[..|reqs| - 1], q) + (if reqs[|reqs| - 1] == q then 1 else 0)
  {
    assert reqs == reqs[..|reqs| - 1] + [reqs[|reqs| - 1]];
  }

  lemma EnqueueAdds(p: Policy, e: Queues, x: Req, q: Req)
    ensures var r := Enqueue(p, e, x);
      && Copies(r.long, q) == Copies(e.long, q) + (if x == q && p.packing && IsLong(p, q) then 1 else 0)
      && Copies(r.short, q) == Copies(e.short, q) + (if x == q && !(p.packing && IsLong(p, q)) then 1 else 0)
  {
  }

  lemma ReorderedSame(p: Policy, wasEmpty: bool, e: Queues)
    ensures var r := Reordered(p, wasEmpty, e); r.long == e.long && multiset(r.short) == multiset(e.short)
  {
    SortMultiset(e.short, EarlierFirst());
    SortMultiset(e.short, ShorterFirst());
  }

  lemma {:induction false} SameQueues(a: seq<Queues>, b: seq<Queues>, q: Req)
    requires |a| == |b|
    requires forall i | 0 <= i < |a| ::
      multiset(a[i].short) == multiset(b[i].short) && multiset(a[i].long) == multiset(b[i].long)
    ensures Shorts(a, q) == Shorts(b, q) && Longs(a, q) == Longs(b, q)
  {
    if a != [] {
      SameQueues(a[..|a| - 1], b[..|b| - 1], q);
    }
  }

  /** Every waiting request is in exactly one queue more than before: a long queue exactly when packing is on
      and its prompt is above the threshold. */
  lemma BalanceConserves(p: Policy, engines: seq<Queues>, start: seq<nat>, waiting: seq<Req>, q: Req)
    requires |engines| == |start| > 0
    ensures var r := BalancePrefill(p, engines, start, waiting);
      && Longs(r, q) == Longs(engines, q)
           + (if p.packing && |q.prompt| as real > p.threshold then multiset(waiting)[q] else 0)
      && Shorts(r, q) == Shorts(engines, q)
           + (if p.packing && |q.prompt| as real > p.threshold then 0 else multiset(waiting)[q])
  {
    if waiting != [] {
      var jobs := SortBy(waiting, LongerFirst());
      var placed := PlaceAll(p, engines, start, jobs);
      var r := BalancePrefill(p, engines, start, waiting);
      forall i | 0 <= i < |r|
        ensures multiset(r[i].short) == multiset(placed[i].short) && multiset(r[i].long) == multiset(placed[i].long)
      {
        ReorderedSame(p, NoneWaiting(engines), placed[i]);
      }
      SameQueues(r, placed, q);
      PlaceAllConserves(p, engines, start, jobs, q);
      SortMultiset(waiting, LongerFirst());
    }
  }

  // ---------- how balanced the queues are ----------

  ghost function PromptTokens(reqs: seq<Req>): nat {
    if reqs == [] then 0 else PromptTokens(reqs[..|reqs| - 1]) + Length(reqs[|reqs| - 1])
  }

  ghost function Tokens(e: Queues): nat {
    PromptTokens(e.short) + PromptTokens(e.long)
  }

  lemma {:induction false} PromptTokensConcat(a: seq<Req>, b: seq<Req>)
    ensures PromptTokens(a + b) == PromptTokens(a) + PromptTokens(b)
  {
    if b == [] {
      assert a + b == a;
    } else {
      PromptTokensConcat(a, b[..|b| - 1]);
      assert (a + b)[..|a + b| - 1] == a + b[..|b| - 1];
    }
  }

  lemma PromptTokensPush(a: seq<Req>, q: Req)
    ensures PromptTokens(a + [q]) == PromptTokens(a) + Length(q)
    ensures PromptTokens([q] + a) == PromptTokens(a) + Length(q)
  {
    assert (a + [q])[..|a|] == a;
    PromptTokensConcat([q], a);
    assert [q][..0] == [];
  }

  lemma {:induction false} InsertTotal(s: seq<Req>, x: Req, key: Req -> int)
    ensures PromptTokens(Insert(s, x, key)) == PromptTokens(s) + Length(x)
  {
    if s == [] || key(s[|s| - 1]) <= key(x) {
      PromptTokensPush(s, x);
    } else {
      var front, last := s[..|s| - 1], s[|s| - 1];
      InsertTotal(front, x, key);
      PromptTokensPush(Insert(front, x, key), last);
    }
  }

  lemma {:induction false} SortTotal(s: seq<Req>, key: Req -> int)
    ensures PromptTokens(SortBy(s, key)) == PromptTokens(s)
  {
    if s != [] {
      var front, last := s[..|s| - 1], s[|s| - 1];
      SortTotal(front, key);
      InsertTotal(SortBy(front, key), last, key);
    }
  }

  lemma EnqueueTokens(p: Policy, e: Queues, q: Req)
    ensures Tokens(Enqueue(p, e, q)) == Tokens(e) + Length(q)
  {
    PromptTokensPush(e.short, q);
    PromptTokensPush(e.long, q);
  }

  /** The queues grow by exactly the tokens that the load counters grow by. */
  lemma {:induction false} PlaceAllTokens(p: Policy, engines: seq<Queues>, start: seq<nat>, reqs: seq<Req>, e: nat)
    requires |engines| == |start| > 0 && e < |engines|
    ensures Tokens(PlaceAll(p, engines, start, reqs)[e]) + start[e]
         == Tokens(engines[e]) + Loads(start, Lengths(reqs))[e]
  {
    if reqs != [] {
      var last := |reqs| - 1;
      PlaceAllTokens(p, engines, start, reqs[..last], e);
      var r := PlaceAll(p, engines, start, reqs[..last]);
      var i := MinIndex(Loads(start, Lengths(reqs[..last])));
      assert Lengths(reqs)[..last] == Lengths(reqs[..last]);
      EnqueueTokens(p, r[i], reqs[last]);
    }
  }

  lemma BalanceTokens(p: Policy, engines: seq<Queues>, start: seq<nat>, waiting: seq<Req>, e: nat)
    requires |engines| == |start| > 0 && e < |engines|
    ensures Tokens(BalancePrefill(p, engines, start, waiting)[e]) + start[e]
         == Tokens(engines[e]) + Loads(start, Lengths(SortBy(waiting, LongerFirst())))[e]
  {
    if waiting != [] {
      var jobs := SortBy(waiting, LongerFirst());
      var placed := PlaceAll(p, engines, start, jobs);
      PlaceAllTokens(p, engines, start, jobs, e);
      SortTotal(placed[e].short, EarlierFirst());
      SortTotal(placed[e].short, ShorterFirst());
    }
  }

  lemma SortedLengths(waiting: seq<Req>)
    ensures LongestFirst(Lengths(SortBy(waiting, LongerFirst())))
  {
    var jobs, key := SortBy(waiting, LongerFirst()), LongerFirst();
    SortSorted(waiting, key);
    forall i, j | 0 <= i < j < |jobs| ensures Lengths(jobs)[i] >= Lengths(jobs)[j] {
      assert key(jobs[i]) <= key(jobs[j]);
    }
  }

  /** Idle engines with empty queues: no engine gets more than `4/3 - 1/(3m)` times what the best way of
      spreading the same requests would give the fullest one. */
  lemma BalancedNearBest(p: Policy, engines: seq<Queues>, waiting: seq<Req>, a: seq<nat>, bound: nat)
    requires engines != [] && forall i | 0 <= i < |engines| :: engines[i] == Queues([], [])
    requires Within(Lengths(SortBy(waiting, LongerFirst())), a, |engines|, bound)
    ensures var m := |engines|; forall e | 0 <= e < m ::
      3 * m * Tokens(BalancePrefill(p, engines, Idle(m), waiting)[e]) <= (4 * m - 1) * bound
  {
    var m, jobs := |engines|, Lengths(SortBy(waiting, LongerFirst()));
    SortedLengths(waiting);
    LongestFirstBound(jobs, a, m, bound);
    forall e | 0 <= e < m
      ensures 3 * m * Tokens(BalancePrefill(p, engines, Idle(m), waiting)[e]) <= (4 * m - 1) * bound
    {
      BalanceTokens(p, engines, Idle(m), waiting, e);
      assert Tokens(engines[e]) == 0 && Idle(m)[e] == 0;
      assert 3 * m * Loads(Idle(m), jobs)[e] <= (4 * m - 1) * bound;
    }
  }

  /** From any loads, whatever they count: once each engine has in addition what its queues grew by, the gap
      is at most the larger of the starting gap and the longest prompt. */
  lemma BalancedGap(p: Policy, engines: seq<Queues>, start: seq<nat>, waiting: seq<Req>, gap: nat)
    requires |engines| == |start| > 0
    requires GapWithin(start, gap) && forall i | 0 <= i < |waiting| :: Length(waiting[i]) <= gap
    ensures var r := BalancePrefill(p, engines, start, waiting);
      forall i, j | 0 <= i < |r| && 0 <= j < |r| ::
        start[i] + Tokens(r[i]) - Tokens(engines[i]) <= start[j] + Tokens(r[j]) - Tokens(engines[j]) + gap
  {
    var jobs := SortBy(waiting, LongerFirst());
    SortMultiset(waiting, LongerFirst());
    forall i | 0 <= i < |jobs| ensures Lengths(jobs)[i] <= gap {
      assert jobs[i] in multiset(jobs);
      assert jobs[i] in waiting;
    }
    GapBound(start, Lengths(jobs), gap);
    var r := BalancePrefill(p, engines, start, waiting);
    forall i, j | 0 <= i < |r| && 0 <= j < |r|
      ensures start[i] + Tokens(r[i]) - Tokens(engines[i]) <= start[j] + Tokens(r[j]) - Tokens(engines[j]) + gap
    {
      BalanceTokens(p, engines, start, waiting, i);
      BalanceTokens(p, engines, start, waiting, j);
    }
  }

  // ---------- in which order they wait ----------

  /** What waited before still waits behind the requests placed in front of it, shortest first. */
  ghost predicate ShortestInFront(before: Queues, after: Queues, atLeast: nat) {
    && |before.short| <= |after.short|
    && var n := |after.short| - |before.short|;
       && after.short[n..] == before.short
       && SortedBy(after.short[..n], ShorterFirst())
       && forall i | 0 <= i < n :: Length(after.short[i]) >= atLeast
  }

  lemma OneMoreInFront(p: Policy, before: Queues, after: Queues, q: Req)
    requires !p.packing && ShortestInFront(before, after, Length(q))
    ensures ShortestInFront(before, Enqueue(p, after, q), Length(q))
  {
    var n := |after.short| - |before.short|;
    var r := Enqueue(p, after, q);
    assert r.short[n + 1..] == after.short[n..];
    assert r.short[..n + 1] == [q] + after.short[..n];
    var front, key := r.short[..n + 1], ShorterFirst();
    forall i, j | 0 <= i < j < |front| ensures key(front[i]) <= key(front[j]) {
      assert front[j] == after.short[..n][j - 1];
      if i > 0 {
        assert key(after.short[..n][i - 1]) <= key(after.short[..n][j - 1]);
      }
    }
  }

  /** Putting the longest first at the head leaves the shortest in front, before any reordering. */
  lemma {:induction false} NaturalShortestFirst(p: Policy, engines: seq<Queues>, start: seq<nat>, jobs: seq<Req>,
                                                e: nat)
    requires !p.packing && |engines| == |start| > 0 && e < |engines| && SortedBy(jobs, LongerFirst())
    ensures var least := if jobs == [] then 0 else Length(jobs[|jobs| - 1]);
      ShortestInFront(engines[e], PlaceAll(p, engines, start, jobs)[e], least)
  {
    if jobs != [] {
      var last := |jobs| - 1;
      NaturalShortestFirst(p, engines, start, jobs[..last], e);
      var r := PlaceAll(p, engines, start, jobs[..last]);
      if last > 0 {
        assert LongerFirst()(jobs[last - 1]) <= LongerFirst()(jobs[last]);
      }
      if MinIndex(Loads(start, Lengths(jobs[..last]))) == e {
        if last == 0 {
          assert ShortestInFront(engines[e], r[e], Length(jobs[last]));
        }
        OneMoreInFront(p, engines[e], r[e], jobs[last]);
      }
    }
  }

  /** What waited before still waits in front of what was added, longest first. */
  ghost predicate LongestBehind(before: seq<Req>, after: seq<Req>, atLeast: nat) {
    && before <= after && SortedBy(after[|before|..], LongerFirst())
    && forall i | |before| <= i < |after| :: Length(after[i]) >= atLeast
  }

  lemma OneMoreBehind(before: seq<Req>, after: seq<Req>, q: Req)
    requires LongestBehind(before, after, Length(q))
    ensures LongestBehind(before, after + [q], Length(q))
  {
    var rest, key := (after + [q])[|before|..], LongerFirst();
    assert rest == after[|before|..] + [q];
    forall i, j | 0 <= i < j < |rest| ensures key(rest[i]) <= key(rest[j]) {
      if j < |rest| - 1 {
        assert key(after[|before|..][i]) <= key(after[|before|..][j]);
      }
    }
  }

  /** Long requests queue up behind each other, and with packing the short ones do, too. */
  lemma {:induction false} PlacedBehind(p: Policy, engines: seq<Queues>, start: seq<nat>, jobs: seq<Req>, e: nat)
    requires |engines| == |start| > 0 && e < |engines| && SortedBy(jobs, LongerFirst())
    ensures var least := if jobs == [] then 0 else Length(jobs[|jobs| - 1]);
      var r := PlaceAll(p, engines, start, jobs)[e];
      LongestBehind(engines[e].long, r.long, least) && (p.packing ==> LongestBehind(engines[e].short, r.short, least))
  {
    if jobs != [] {
      var last := |jobs| - 1;
      PlacedBehind(p, engines, start, jobs[..last], e);
      var r := PlaceAll(p, engines, start, jobs[..last])[e];
      if last > 0 {
        assert LongerFirst()(jobs[last - 1]) <= LongerFirst()(jobs[last]);
      }
      if MinIndex(Loads(start, Lengths(jobs[..last]))) == e && p.packing {
        if IsLong(p, jobs[last]) {
          OneMoreBehind(engines[e].long, r.long, jobs[last]);
        } else {
          OneMoreBehind(engines[e].short, r.short, jobs[last]);
        }
      }
    }
  }

  /** The short queues: first come, first served, unless reordering is on; then the shortest come first if nothing
      waited before, and else the new ones stand in front, shortest first, or with packing behind, longest first.
      The long queues: the new ones behind, longest first. */
  lemma BalanceOrder(p: Policy, engines: seq<Queues>, start: seq<nat>, waiting: seq<Req>, e: nat)
    requires |engines| == |start| > 0 && e < |engines| && waiting != []
    ensures var r := BalancePrefill(p, engines, start, waiting)[e];
      && (!p.reorder ==> SortedBy(r.short, EarlierFirst()))
      && (p.reorder && NoneWaiting(engines) ==> SortedBy(r.short, ShorterFirst()))
      && (p.reorder && !NoneWaiting(engines) && !p.packing ==> ShortestInFront(engines[e], r, 0))
      && (p.reorder && !NoneWaiting(engines) && p.packing ==> LongestBehind(engines[e].short, r.short, 0))
      && LongestBehind(engines[e].long, r.long, 0)
  {
    var jobs := SortBy(waiting, LongerFirst());
    var placed := PlaceAll(p, engines, start, jobs)[e];
    SortSorted(placed.short, EarlierFirst());
    SortSorted(placed.short, ShorterFirst());
    SortSorted(waiting, LongerFirst());
    PlacedBehind(p, engines, start, jobs, e);
    if !p.packing {
      PlacedInFront(p, engines, start, jobs, e);
    }
  }

  lemma PlacedInFront(p: Policy, engines: seq<Queues>, start: seq<nat>, jobs: seq<Req>, e: nat)
    requires !p.packing && |engines| == |start| > 0 && e < |engines| && SortedBy(jobs, LongerFirst())
    ensures ShortestInFront(engines[e], PlaceAll(p, engines, start, jobs)[e], 0)
  {
    NaturalShortestFirst(p, engines, start, jobs, e);
    AnyLength(engines[e], PlaceAll(p, engines, start, jobs)[e], if jobs == [] then 0 else Length(jobs[|jobs| - 1]));
  }

  lemma AnyLength(before: Queues, after: Queues, atLeast: nat)
    requires ShortestInFront(before, after, atLeast)
    ensures ShortestInFront(before, after, 0)
  {
  }
}

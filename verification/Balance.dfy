/**
  Longest-job-first placement on the least loaded engine: how far from balanced, and how far from the
  best assignment there is, the result can be.
 */
module Balance {
  import opened Counting

  function MinIndex(loads: seq<nat>): (i: nat)
    requires loads != []
    ensures i < |loads|
  {
    if |loads| == 1 then 0
    else
      var i := MinIndex(loads[..|loads| - 1]);
      if loads[|loads| - 1] < loads[i] then |loads| - 1 else i
  }

  /** The engine each job goes to. */
  function Places(start: seq<nat>, jobs: seq<nat>): (p: seq<nat>)
    requires start != []
    ensures |p| == |jobs| && forall i | 0 <= i < |p| :: p[i] < |start|
  {
    if jobs == [] then []
    else Places(start, jobs[..|jobs| - 1]) + [MinIndex(Loads(start, jobs[..|jobs| - 1]))]
  }

  /** The loads once all jobs are placed, each on the first least loaded engine. */
  function Loads(start: seq<nat>, jobs: seq<nat>): (l: seq<nat>)
    requires start != []
    ensures |l| == |start|
  {
    if jobs == [] then start
    else
      var l := Loads(start, jobs[..|jobs| - 1]);
      var i := MinIndex(l);
      l[i := l[i] + jobs[|jobs| - 1]]
  }

  lemma {:induction false} MinIndexLeast(loads: seq<nat>)
    requires loads != []
    ensures forall j | 0 <= j < |loads| :: loads[MinIndex(loads)] <= loads[j]
    ensures forall j | 0 <= j < MinIndex(loads) :: loads[MinIndex(loads)] < loads[j]
  {
    if |loads| > 1 {
      MinIndexLeast(loads[..|loads| - 1]);
    }
  }

  // ---------- from any start: the gap ----------

  ghost predicate GapWithin(loads: seq<nat>, gap: nat) {
    forall i, j | 0 <= i < |loads| && 0 <= j < |loads| :: loads[i] <= loads[j] + gap
  }

  /** The gap at the end is at most the larger of the starting gap and the longest job. */
  lemma {:induction false} GapBound(start: seq<nat>, jobs: seq<nat>, gap: nat)
    requires start != [] && GapWithin(start, gap) && forall i | 0 <= i < |jobs| :: jobs[i] <= gap
    ensures GapWithin(Loads(start, jobs), gap)
  {
    if jobs != [] {
      var front := jobs[..|jobs| - 1];
      GapBound(start, front, gap);
      MinIndexLeast(Loads(start, front));
    }
  }

  // ---------- assignments ----------

  /** The load of engine `q` if job `i` goes to engine `a[i]`. */
  ghost function LoadOf(jobs: seq<nat>, a: seq<nat>, q: nat): nat
    requires |a| == |jobs|
  {
    if jobs == [] then 0
    else
      var last := |jobs| - 1;
      LoadOf(jobs[..last], a[..last], q) + (if a[last] == q then jobs[last] else 0)
  }

  ghost function LoadsOf(jobs: seq<nat>, a: seq<nat>, m: nat): (l: seq<nat>)
    requires |a| == |jobs|
    ensures |l| == m && forall q | 0 <= q < m :: l[q] == LoadOf(jobs, a, q)
  {
    seq(m, q requires 0 <= q < m => LoadOf(jobs, a, q))
  }

  /** Every engine stays within `bound`. */
  ghost predicate Within(jobs: seq<nat>, a: seq<nat>, m: nat, bound: nat) {
    && |a| == |jobs| && Bounded(a, m)
    && forall q | 0 <= q < m :: LoadOf(jobs, a, q) <= bound
  }

  lemma {:induction false} TotalUpdate(p: seq<nat>, i: nat, x: nat)
    requires i < |p|
    ensures Total(p[i := x]) == Total(p) - p[i] + x
  {
    var last := |p| - 1;
    if i < last {
      TotalUpdate(p[..last], i, x);
      assert p[i := x][..last] == p[..last][i := x];
    } else {
      assert p[i := x][..last] == p[..last];
    }
  }

  lemma {:induction false} LoadsTotal(start: seq<nat>, jobs: seq<nat>)
    requires start != []
    ensures Total(Loads(start, jobs)) == Total(start) + Total(jobs)
  {
    if jobs != [] {
      var front := jobs[..|jobs| - 1];
      LoadsTotal(start, front);
      var l := Loads(start, front);
      TotalUpdate(l, MinIndex(l), l[MinIndex(l)] + jobs[|jobs| - 1]);
    }
  }

  lemma {:induction false} TotalZero(p: seq<nat>)
    requires forall i | 0 <= i < |p| :: p[i] == 0
    ensures Total(p) == 0
  {
    if p != [] {
      TotalZero(p[..|p| - 1]);
    }
  }

  /** Any assignment hands out every job once. */
  lemma {:induction false} AssignedTotal(jobs: seq<nat>, a: seq<nat>, m: nat)
    requires |a| == |jobs| && Bounded(a, m)
    ensures Total(LoadsOf(jobs, a, m)) == Total(jobs)
  {
    if jobs == [] {
      TotalZero(LoadsOf(jobs, a, m));
    } else {
      var last := |jobs| - 1;
      AssignedTotal(jobs[..last], a[..last], m);
      var before := LoadsOf(jobs[..last], a[..last], m);
      TotalUpdate(before, a[last], before[a[last]] + jobs[last]);
      assert LoadsOf(jobs, a, m) == before[a[last] := before[a[last]] + jobs[last]];
    }
  }

  lemma {:induction false} TotalAtMost(p: seq<nat>, bound: nat)
    requires forall i | 0 <= i < |p| :: p[i] <= bound
    ensures Total(p) <= |p| * bound
  {
    if p != [] {
      TotalAtMost(p[..|p| - 1], bound);
      assert |p| * bound == (|p| - 1) * bound + bound;
    }
  }

  lemma {:induction false} TotalAtLeast(p: seq<nat>, bound: nat)
    requires forall i | 0 <= i < |p| :: p[i] >= bound
    ensures Total(p) >= |p| * bound
  {
    if p != [] {
      TotalAtLeast(p[..|p| - 1], bound);
      assert |p| * bound == (|p| - 1) * bound + bound;
    }
  }

  /** The greedy placement is one of the assignments. */
  lemma {:induction false} GreedyAssigns(start: seq<nat>, jobs: seq<nat>, q: nat)
    requires q < |start|
    ensures Loads(start, jobs)[q] == start[q] + LoadOf(jobs, Places(start, jobs), q)
  {
    if jobs != [] {
      var last := |jobs| - 1;
      GreedyAssigns(start, jobs[..last], q);
      assert Places(start, jobs)[..last] == Places(start, jobs[..last]);
    }
  }

  lemma {:induction false} LoadGrows(jobs: seq<nat>, a: seq<nat>, q: nat, n: nat)
    requires |a| == |jobs| && n <= |jobs|
    ensures LoadOf(jobs[..n], a[..n], q) <= LoadOf(jobs, a, q)
  {
    if n < |jobs| {
      var last := |jobs| - 1;
      LoadGrows(jobs[..last], a[..last], q, n);
      assert jobs[..last][..n] == jobs[..n] && a[..last][..n] == a[..n];
    } else {
      assert jobs[..n] == jobs && a[..n] == a;
    }
  }

  lemma WithinPrefix(jobs: seq<nat>, a: seq<nat>, m: nat, bound: nat, n: nat)
    requires Within(jobs, a, m, bound) && n <= |jobs|
    ensures Within(jobs[..n], a[..n], m, bound)
  {
    forall q | 0 <= q < m ensures LoadOf(jobs[..n], a[..n], q) <= bound {
      LoadGrows(jobs, a, q, n);
    }
  }

  // ---------- few long jobs per engine ----------

  /** An engine that runs job `i` carries at least its length. */
  lemma {:induction false} LoadOfOne(jobs: seq<nat>, a: seq<nat>, i: nat)
    requires |a| == |jobs| && i < |jobs|
    ensures LoadOf(jobs, a, a[i]) >= jobs[i]
  {
    if i < |jobs| - 1 {
      LoadOfOne(jobs[..|jobs| - 1], a[..|jobs| - 1], i);
    }
  }

  lemma {:induction false} LoadOfTwo(jobs: seq<nat>, a: seq<nat>, i: nat, j: nat)
    requires |a| == |jobs| && i < j < |jobs| && a[i] == a[j]
    ensures LoadOf(jobs, a, a[i]) >= jobs[i] + jobs[j]
  {
    var last := |jobs| - 1;
    if j < last {
      LoadOfTwo(jobs[..last], a[..last], i, j);
    } else {
      LoadOfOne(jobs[..last], a[..last], i);
    }
  }

  lemma {:induction false} LoadOfThree(jobs: seq<nat>, a: seq<nat>, i: nat, j: nat, t: nat)
    requires |a| == |jobs| && i < j < t < |jobs| && a[i] == a[j] == a[t]
    ensures LoadOf(jobs, a, a[i]) >= jobs[i] + jobs[j] + jobs[t]
  {
    var last := |jobs| - 1;
    if t < last {
      LoadOfThree(jobs[..last], a[..last], i, j, t);
    } else {
      LoadOfTwo(jobs[..last], a[..last], i, j);
    }
  }

  ghost predicate AtMostTwice(a: seq<nat>) {
    forall i, j, t | 0 <= i < j < t < |a| :: !(a[i] == a[j] && a[j] == a[t])
  }

  ghost predicate Into(a: seq<nat>, s: set<nat>) {
    forall i | 0 <= i < |a| :: a[i] in s
  }

  lemma {:induction false} OncePerTarget(a: seq<nat>, s: set<nat>)
    requires Distinct(a) && Into(a, s)
    ensures |a| <= |s|
  {
    if a != [] {
      var last := |a| - 1;
      OncePerTarget(a[..last], s - {a[last]});
    }
  }

  lemma NoThird(a: seq<nat>, i: nat, u: nat, last: nat)
    requires AtMostTwice(a) && i < last < |a| && u < last && u != i && a[i] == a[last]
    ensures a[u] != a[last]
  {
  }

  lemma {:induction false} TwicePerTarget(a: seq<nat>, s: set<nat>)
    requires AtMostTwice(a) && Into(a, s)
    ensures |a| <= 2 * |s|
    decreases |a|
  {
    if a != [] {
      var last := |a| - 1;
      var v := a[last];
      assert |s - {v}| == |s| - 1;
      if i :| 0 <= i < last && a[i] == v {
        var rest := Without(a[..last], i);
        forall t | 0 <= t < |rest| ensures rest[t] in s - {v} {
          NoThird(a, i, if t < i then t else t + 1, last);
        }
        assert AtMostTwice(rest);
        TwicePerTarget(rest, s - {v});
      } else {
        TwicePerTarget(a[..last], s - {v});
      }
    }
  }

  ghost function Engines(m: nat): (s: set<nat>)
    ensures |s| == m && forall q: nat :: q in s <==> q < m
  {
    if m == 0 then {} else Engines(m - 1) + {m - 1}
  }

  ghost function SetOf(a: seq<nat>): (s: set<nat>)
    ensures forall q: nat :: q in s <==> q in a
  {
    set i | 0 <= i < |a| :: a[i]
  }

  lemma {:induction false} SetOfSize(a: seq<nat>)
    ensures |SetOf(a)| <= |a|
    ensures Distinct(a) ==> |SetOf(a)| == |a|
  {
    if a == [] {
      assert SetOf(a) == {};
    } else {
      var last := |a| - 1;
      SetOfSize(a[..last]);
      assert SetOf(a) == SetOf(a[..last]) + {a[last]};
    }
  }

  // ---------- longest first ----------

  ghost predicate LongestFirst(jobs: seq<nat>) {
    forall i, j | 0 <= i <= j < |jobs| :: jobs[i] >= jobs[j]
  }

  function Idle(m: nat): (s: seq<nat>)
    ensures |s| == m && forall q | 0 <= q < m :: s[q] == 0
  {
    seq(m, _ => 0)
  }

  /** While there are fewer jobs than engines some engine is idle. */
  lemma IdleEngine(jobs: seq<nat>, m: nat) returns (q: nat)
    requires m > 0 && |jobs| < m
    ensures q < m && q !in Places(Idle(m), jobs) && Loads(Idle(m), jobs)[q] == 0
  {
    var places := Places(Idle(m), jobs);
    SetOfSize(places);
    if Engines(m) <= SetOf(places) {
      SubsetSize(Engines(m), SetOf(places));
      assert false;
    }
    q :| q in Engines(m) && q !in SetOf(places);
    GreedyAssigns(Idle(m), jobs, q);
    UnusedLoad(jobs, places, q);
  }

  lemma SubsetSize(s: set<nat>, t: set<nat>)
    requires s <= t
    ensures |s| <= |t|
  {
    if s != {} {
      var x :| x in s;
      SubsetSize(s - {x}, t - {x});
    }
  }

  lemma {:induction false} UnusedLoad(jobs: seq<nat>, a: seq<nat>, q: nat)
    requires |a| == |jobs| && q !in a
    ensures LoadOf(jobs, a, q) == 0
  {
    if jobs != [] {
      UnusedLoad(jobs[..|jobs| - 1], a[..|jobs| - 1], q);
    }
  }

  /** The first `m` jobs go to different engines. */
  lemma {:induction false} SpreadOut(jobs: seq<nat>, m: nat)
    requires m > 0 && |jobs| <= m && forall i | 0 <= i < |jobs| :: jobs[i] > 0
    ensures Distinct(Places(Idle(m), jobs))
  {
    if jobs != [] {
      var last := |jobs| - 1;
      var front := jobs[..last];
      SpreadOut(front, m);
      var q := IdleEngine(front, m);
      var l := Loads(Idle(m), front);
      MinIndexLeast(l);
      var places := Places(Idle(m), front);
      forall i | 0 <= i < last ensures places[i] != MinIndex(l) {
        LoadOfOne(front, places, i);
        GreedyAssigns(Idle(m), front, places[i]);
      }
    }
  }

  // ---------- the bound of Graham ----------

  /** If no engine of the best assignment takes three, it takes at most two jobs each. */
  lemma ThreeTooMany(jobs: seq<nat>, a: seq<nat>, m: nat, bound: nat, least: nat)
    requires Within(jobs, a, m, bound) && 3 * least > bound && forall i | 0 <= i < |jobs| :: jobs[i] >= least
    ensures AtMostTwice(a) && |jobs| <= 2 * m
  {
    forall i, j, t | 0 <= i < j < t < |a| ensures !(a[i] == a[j] && a[j] == a[t]) {
      if a[i] == a[j] && a[j] == a[t] {
        LoadOfThree(jobs, a, i, j, t);
      }
    }
    TwicePerTarget(a, Engines(m));
  }

  /** The `h + 1` longest jobs cannot all have an engine to themselves: the rest would not fit. */
  lemma NotAllAlone(a: seq<nat>, m: nat, h: nat)
    requires AtMostTwice(a) && Bounded(a, m) && m < |a| <= 2 * m && h == 2 * m - |a|
    ensures exists x, y :: 0 <= x <= h && 0 <= y < |a| && x != y && a[x] == a[y]
  {
    if forall x, y | 0 <= x <= h && 0 <= y < |a| && x != y :: a[x] != a[y] {
      var long, rest := a[..h + 1], a[h + 1..];
      SetOfSize(long);
      assert SetOf(long) <= Engines(m);
      var others := Engines(m) - SetOf(long);
      forall i | 0 <= i < |rest| ensures rest[i] in others {
        AloneElsewhere(a, m, h, h + 1 + i);
      }
      TwiceSuffix(a, h + 1);
      TwicePerTarget(rest, others);
    }
  }

  lemma AloneElsewhere(a: seq<nat>, m: nat, h: nat, y: nat)
    requires Bounded(a, m) && h < y < |a| && forall x | 0 <= x <= h :: a[x] != a[y]
    ensures a[y] in Engines(m) - SetOf(a[..h + 1])
  {
  }

  /** Some engine of the best assignment runs one of the `2m - j` longest jobs together with another. */
  lemma SharedLongJob(jobs: seq<nat>, a: seq<nat>, m: nat, bound: nat, h: nat)
    requires Within(jobs, a, m, bound) && LongestFirst(jobs) && AtMostTwice(a)
    requires m < |jobs| <= 2 * m && h == 2 * m - |jobs|
    ensures bound >= jobs[h] + jobs[|jobs| - 1]
  {
    NotAllAlone(a, m, h);
    var x, y :| 0 <= x <= h && 0 <= y < |jobs| && x != y && a[x] == a[y];
    LoadOfTwo(jobs, a, if x < y then x else y, if x < y then y else x);
    assert jobs[x] >= jobs[h] && jobs[y] >= jobs[|jobs| - 1];
  }

  lemma TwiceSuffix(a: seq<nat>, n: nat)
    requires AtMostTwice(a) && n <= |a|
    ensures AtMostTwice(a[n..])
  {
    forall i, j, t | 0 <= i < j < t < |a| - n ensures !(a[n..][i] == a[n..][j] && a[n..][j] == a[n..][t]) {
      assert !(a[n + i] == a[n + j] && a[n + j] == a[n + t]);
    }
  }

  lemma {:induction false} PlacesPrefix(start: seq<nat>, jobs: seq<nat>, n: nat)
    requires start != [] && n <= |jobs|
    ensures Places(start, jobs)[..n] == Places(start, jobs[..n])
  {
    if n < |jobs| {
      var last := |jobs| - 1;
      PlacesPrefix(start, jobs[..last], n);
      assert Places(start, jobs)[..n] == Places(start, jobs)[..last][..n];
      assert jobs[..last][..n] == jobs[..n];
    } else {
      assert jobs[..n] == jobs;
    }
  }

  /** An engine that got job `i` and no other carries just that job. */
  lemma {:induction false} LoadOfAlone(jobs: seq<nat>, a: seq<nat>, i: nat)
    requires |a| == |jobs| && i < |jobs| && forall j | 0 <= j < |a| && j != i :: a[j] != a[i]
    ensures LoadOf(jobs, a, a[i]) == jobs[i]
  {
    var last := |jobs| - 1;
    if i < last {
      LoadOfAlone(jobs[..last], a[..last], i);
    } else {
      UnusedLoad(jobs[..last], a[..last], a[i]);
    }
  }

  lemma NotCovered(first: seq<nat>, second: seq<nat>) returns (u: nat)
    requires Distinct(first) && |second| < |first|
    ensures u < |first| && first[u] !in second
  {
    SetOfSize(first);
    SetOfSize(second);
    if SetOf(first) <= SetOf(second) {
      SubsetSize(SetOf(first), SetOf(second));
      assert false;
    }
    var q :| q in SetOf(first) && q !in SetOf(second);
    u :| 0 <= u < |first| && first[u] == q;
  }

  lemma LoneEngine(places: seq<nat>, m: nat, h: nat) returns (i: nat)
    requires h < m <= |places| && |places| - m < m - h && Distinct(places[..m])
    ensures h <= i < m && forall j | 0 <= j < |places| && j != i :: places[j] != places[i]
  {
    var first, second := places[h..m], places[m..];
    assert Distinct(first) by {
      forall u, v | 0 <= u < v < |first| ensures first[u] != first[v] {
        assert places[..m][h + u] != places[..m][h + v];
      }
    }
    var u := NotCovered(first, second);
    i := h + u;
    forall j | 0 <= j < |places| && j != i ensures places[j] != places[i] {
      if j < m {
        assert places[..m][j] != places[..m][i];
      } else {
        assert second[j - m] == places[j];
      }
    }
  }

  /** Among the engines that got jobs `h..m` at first, one has not got a second job yet. */
  lemma SingleEngine(jobs: seq<nat>, m: nat, h: nat) returns (i: nat)
    requires 0 < m <= |jobs| && h < m && |jobs| - m < m - h && forall t | 0 <= t < |jobs| :: jobs[t] > 0
    ensures h <= i < m && Loads(Idle(m), jobs)[Places(Idle(m), jobs)[i]] == jobs[i]
  {
    var places := Places(Idle(m), jobs);
    PlacesPrefix(Idle(m), jobs, m);
    SpreadOut(jobs[..m], m);
    i := LoneEngine(places, m, h);
    LoadOfAlone(jobs, places, i);
    GreedyAssigns(Idle(m), jobs, places[i]);
  }

  /** Placing a job longer than a third of the bound keeps its engine within the bound. */
  lemma LongJobFits(jobs: seq<nat>, a: seq<nat>, m: nat, bound: nat)
    requires m > 0 && jobs != [] && Within(jobs, a, m, bound) && LongestFirst(jobs) && 3 * jobs[|jobs| - 1] > bound
    ensures var l := Loads(Idle(m), jobs[..|jobs| - 1]);
      l[MinIndex(l)] + jobs[|jobs| - 1] <= bound
  {
    var j := |jobs| - 1;
    var front := jobs[..j];
    var l := Loads(Idle(m), front);
    MinIndexLeast(l);
    if j < m {
      var q := IdleEngine(front, m);
      LoadOfOne(jobs, a, j);
    } else {
      ThreeTooMany(jobs, a, m, bound, jobs[j]);
      var h := 2 * m - |jobs|;
      SharedLongJob(jobs, a, m, bound, h);
      var i := SingleEngine(front, m, h);
    }
  }

  /** Placing a job no longer than a third of the bound: the engine was least loaded. */
  lemma ShortJobFits(jobs: seq<nat>, a: seq<nat>, m: nat, bound: nat)
    requires m > 0 && jobs != [] && Within(jobs, a, m, bound) && 3 * jobs[|jobs| - 1] <= bound
    ensures var l := Loads(Idle(m), jobs[..|jobs| - 1]);
      3 * m * (l[MinIndex(l)] + jobs[|jobs| - 1]) <= (4 * m - 1) * bound
  {
    var p := jobs[|jobs| - 1];
    var front := jobs[..|jobs| - 1];
    var l := Loads(Idle(m), front);
    var least := l[MinIndex(l)];
    MinIndexLeast(l);
    TotalAtLeast(l, least);
    LoadsTotal(Idle(m), front);
    TotalZero(Idle(m));
    AssignedTotal(jobs, a, m);
    TotalAtMost(LoadsOf(jobs, a, m), bound);
    ShortArithmetic(m, least, p, bound);
  }

  lemma ShortArithmetic(m: nat, least: nat, p: nat, bound: nat)
    requires m > 0 && m * least + p <= m * bound && 3 * p <= bound
    ensures 3 * m * (least + p) <= (4 * m - 1) * bound
  {
    Expand(m, least, p, bound);
    Scale(m - 1, p, bound);
  }

  lemma Expand(m: nat, least: nat, p: nat, bound: nat)
    requires m > 0
    ensures 3 * m * (least + p) == 3 * (m * least) + 3 * p + 3 * ((m - 1) * p)
    ensures (4 * m - 1) * bound == 3 * (m * bound) + (m - 1) * bound
  {
  }

  lemma Scale(a: nat, x: nat, y: nat)
    requires 3 * x <= y
    ensures 3 * (a * x) <= a * y
  {
    assert a * (3 * x) <= a * y;
  }

  /** From empty engines, longest first on the least loaded of `m` engines never loads one with more than
      `4/3 - 1/(3m)` times what the best assignment of the same jobs needs. */
  lemma {:induction false} LongestFirstBound(jobs: seq<nat>, a: seq<nat>, m: nat, bound: nat)
    requires m > 0 && LongestFirst(jobs) && Within(jobs, a, m, bound)
    ensures forall q | 0 <= q < m :: 3 * m * Loads(Idle(m), jobs)[q] <= (4 * m - 1) * bound
  {
    if jobs != [] {
      var last := |jobs| - 1;
      WithinPrefix(jobs, a, m, bound, last);
      LongestFirstBound(jobs[..last], a[..last], m, bound);
      if 3 * jobs[last] <= bound {
        ShortJobFits(jobs, a, m, bound);
      } else {
        LongJobFits(jobs, a, m, bound);
        var l := Loads(Idle(m), jobs[..last]);
        LongArithmetic(m, l[MinIndex(l)] + jobs[last], bound);
      }
    }
  }

  lemma LongArithmetic(m: nat, load: nat, bound: nat)
    requires m > 0 && load <= bound
    ensures 3 * m * load <= (4 * m - 1) * bound
  {
    assert 3 * m * load <= 3 * m * bound;
    assert (4 * m - 1) * bound == 3 * m * bound + (m - 1) * bound;
  }
}

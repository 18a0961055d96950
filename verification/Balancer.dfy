/** `balance_prefill` as the loop it is, over the queues of all virtual engines. */
module Balancer {
  import opened Balance
  import opened Sorting
  import opened Placement
  import opened Requests

  class QueueSet {
    var engines: seq<Queues>
    var waiting: seq<Req>

    constructor (m: nat)
      ensures waiting == [] && |engines| == m && forall i | 0 <= i < m :: engines[i] == Queues([], [])
    {
      waiting := [];
      engines := seq(m, i => Queues([], []));
    }

    /** `tokens_in_queue.index(min(tokens_in_queue))`. */
    static method LeastLoaded(loads: seq<nat>) returns (least: nat)
      requires loads != []
      ensures least == MinIndex(loads)
    {
      least := 0;
      var j := 1;
      while j < |loads|
        invariant 0 <= least < j <= |loads|
        invariant least == MinIndex(loads[..j])
      {
        assert loads[..j + 1][..j] == loads[..j];
        if loads[j] < loads[least] {
          least := j;
        }
        j := j + 1;
      }
      assert loads[..j] == loads;
    }

    method EnqueueAt(p: Policy, i: nat, q: Req)
      requires i < |engines|
      modifies this`engines
      ensures engines == old(engines)[i := Enqueue(p, old(engines)[i], q)]
    {
      var e := engines[i];
      if p.packing {
        if Length(q) as real > p.threshold {
          engines := engines[i := e.(long := e.long + [q])];
        } else {
          engines := engines[i := e.(short := e.short + [q])];
        }
      } else {
        engines := engines[i := e.(short := [q] + e.short)];
      }
    }

    /** One request after the other to the least loaded engine. */
    method PlaceRequests(p: Policy, start: seq<nat>, jobs: seq<Req>)
      requires |engines| == |start| > 0
      modifies this`engines
      ensures engines == PlaceAll(p, old(engines), start, jobs)
    {
      ghost var before := engines;
      var loads, j := start, 0;
      assert Lengths(jobs[..0]) == [];
      while j < |jobs|
        invariant 0 <= j <= |jobs| && |engines| == |start|
        invariant loads == Loads(start, Lengths(jobs[..j]))
        invariant engines == PlaceAll(p, before, start, jobs[..j])
      {
        PlaceStep(p, before, start, jobs, j);
        var least := LeastLoaded(loads);
        loads := loads[least := loads[least] + Length(jobs[j])];
        EnqueueAt(p, least, jobs[j]);
        j := j + 1;
      }
      assert jobs[..j] == jobs;
    }

    method Reorder(p: Policy, wasEmpty: bool)
      modifies this`engines
      ensures |engines| == |old(engines)|
      ensures forall i | 0 <= i < |engines| :: engines[i] == Reordered(p, wasEmpty, old(engines)[i])
    {
      ghost var before := engines;
      var i := 0;
      while i < |engines|
        invariant 0 <= i <= |engines| == |before|
        invariant forall j | 0 <= j < |engines| ::
          engines[j] == if j < i then Reordered(p, wasEmpty, before[j]) else before[j]
      {
        var e := engines[i];
        if !p.reorder {
          engines := engines[i := e.(short := SortBy(e.short, EarlierFirst()))];
        } else if wasEmpty {
          engines := engines[i := e.(short := SortBy(e.short, ShorterFirst()))];
        }
        i := i + 1;
      }
    }

    /** `balance_prefill`; `start` is the number of tokens each engine has before it. */
    method Balance(p: Policy, start: seq<nat>)
      requires |engines| == |start| > 0
      modifies this
      ensures waiting == [] && engines == BalancePrefill(p, old(engines), start, old(waiting))
    {
      var jobs := SortBy(waiting, LongerFirst());
      waiting := [];
      if |jobs| == 0 {
        return;
      }
      var wasEmpty := NoneWaiting(engines);
      PlaceRequests(p, start, jobs);
      Reorder(p, wasEmpty);
    }
  }

  lemma PlaceStep(p: Policy, engines: seq<Queues>, start: seq<nat>, jobs: seq<Req>, j: nat)
    requires |engines| == |start| > 0 && j < |jobs|
    ensures var l := Loads(start, Lengths(jobs[..j])); var i := MinIndex(l);
      var r := PlaceAll(p, engines, start, jobs[..j]);
      && Loads(start, Lengths(jobs[..j + 1])) == l[i := l[i] + Length(jobs[j])]
      && PlaceAll(p, engines, start, jobs[..j + 1]) == r[i := Enqueue(p, r[i], jobs[j])]
  {
    assert jobs[..j + 1][..j] == jobs[..j];
    assert Lengths(jobs[..j + 1])[..j] == Lengths(jobs[..j]);
  }
}

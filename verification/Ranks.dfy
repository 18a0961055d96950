/** How workers are renumbered when `n` replicas become one pipeline, and back. */
module Ranks {
  import opened Paging

  datatype Place = Place(stages: nat, stage: nat, replicas: nat, replica: nat)

  predicate InRange(p: Place) {
    p.stage < p.stages && p.replica < p.replicas
  }

  /** The rank over all workers of one tensor-parallel position. */
  function Flat(p: Place): nat {
    p.stages * p.replica + p.stage
  }

  function Renumbered(flat: nat, stages: nat, replicas: nat): Place
    requires stages > 0
  {
    Place(stages, flat % stages, replicas, flat / stages)
  }

  function Dropped(p: Place, n: nat): Place
    requires p.stages * n > 0
  {
    Renumbered(Flat(p), p.stages * n, p.replicas / n)
  }

  function Restored(p: Place, n: nat): Place
    requires n > 0 && p.stages / n > 0
  {
    Renumbered(Flat(p), p.stages / n, p.replicas * n)
  }

  /** `pipeline_parallel_*` and `replica_*` of one worker's parallel configuration. */
  class ParallelConfig {
    var pipelineSize: nat
    var pipelineRank: nat
    var replicaSize: nat
    var replicaRank: nat

    ghost function View(): Place
      reads this
    {
      Place(pipelineSize, pipelineRank, replicaSize, replicaRank)
    }

    method PmmDrop(n: nat)
      requires n > 0 && pipelineSize * n > 0
      modifies this
      ensures View() == Dropped(old(View()), n)
      ensures Flat(View()) == old(Flat(View()))
      ensures old(InRange(View())) && old(replicaSize) % n == 0 ==> InRange(View())
    {
      ghost var p := View();
      FlatRenumbered(Flat(p), p.stages * n, p.replicas / n);
      if InRange(p) && p.replicas % n == 0 {
        DropRoundTrip(p, n);
      }
      var size, replicas := pipelineSize * n, replicaSize / n;
      var flat := pipelineSize * replicaRank + pipelineRank;
      pipelineSize, replicaSize := size, replicas;
      pipelineRank, replicaRank := flat % size, flat / size;
    }

    method PmmRestore(n: nat)
      requires n > 0 && pipelineSize / n > 0
      modifies this
      ensures View() == Restored(old(View()), n)
      ensures Flat(View()) == old(Flat(View()))
      ensures old(InRange(View())) && old(pipelineSize) % n == 0 ==> InRange(View())
    {
      ghost var p := View();
      FlatRenumbered(Flat(p), p.stages / n, p.replicas * n);
      if InRange(p) && p.stages % n == 0 {
        RestoreRoundTrip(p, n);
      }
      var size, replicas := pipelineSize / n, replicaSize * n;
      var flat := pipelineSize * replicaRank + pipelineRank;
      pipelineSize, replicaSize := size, replicas;
      pipelineRank, replicaRank := flat % size, flat / size;
    }
  }

  // ---------- arithmetic ----------

  lemma FlatOf(p: Place)
    requires InRange(p)
    ensures Flat(p) % p.stages == p.stage && Flat(p) / p.stages == p.replica
  {
    DivMod(p.replica, p.stages, p.stage);
    Commute(p.replica, p.stages);
  }

  lemma Commute(a: nat, b: nat)
    ensures a * b == b * a
  {
  }

  lemma FlatRenumbered(flat: nat, stages: nat, replicas: nat)
    requires stages > 0
    ensures Flat(Renumbered(flat, stages, replicas)) == flat
    ensures Renumbered(flat, stages, replicas).stage < stages
  {
  }

  lemma FlatBelow(p: Place, r: nat)
    requires p.stage < p.stages
    ensures Flat(p) < p.stages * r <==> p.replica < r
  {
    Commute(p.stages, p.replica);
    Commute(p.stages, r);
    MulMonotone(p.replica + 1, r, p.stages);
    MulMonotone(r, p.replica, p.stages);
    assert (p.replica + 1) * p.stages == p.replica * p.stages + p.stages;
  }

  lemma Regroup(s: nat, n: nat, q: nat)
    ensures (s * n) * q == s * (q * n)
  {
  }

  // ---------- dropping and restoring ----------

  /** Dropping keeps the flat rank, so two workers never end up in one place, and it is undone exactly. */
  lemma DropRoundTrip(p: Place, n: nat)
    requires InRange(p) && n > 0 && p.replicas % n == 0
    ensures p.stages * n > 0
    ensures var d := Dropped(p, n);
      InRange(d) && Flat(d) == Flat(p) && d.stages / n == p.stages && Restored(d, n) == p
  {
    assert p.stages * n > 0 by { MulMonotone(1, p.stages, n); }
    var d := Dropped(p, n);
    FlatRenumbered(Flat(p), p.stages * n, p.replicas / n);
    FlatBelow(p, p.replicas);
    Regroup(p.stages, n, p.replicas / n);
    assert (p.replicas / n) * n == p.replicas;
    FlatBelow(d, p.replicas / n);
    assert d.stages / n == p.stages by { DivMod(p.stages, n, 0); }
    FlatOf(p);
  }

  /** Restoring stays in range and is undone exactly by dropping, when `n` divides the stages. */
  lemma RestoreRoundTrip(p: Place, n: nat)
    requires InRange(p) && n > 0 && p.stages % n == 0
    ensures p.stages / n > 0
    ensures var r := Restored(p, n); InRange(r) && Flat(r) == Flat(p) && r.stages * n == p.stages && Dropped(r, n) == p
  {
    var stages := p.stages / n;
    assert stages * n == p.stages;
    assert stages > 0;
    var r := Restored(p, n);
    FlatRenumbered(Flat(p), stages, p.replicas * n);
    FlatBelow(p, p.replicas);
    Regroup(stages, n, p.replicas);
    Commute(n, p.replicas);
    FlatBelow(r, p.replicas * n);
    FlatOf(p);
    assert r.replicas / n == p.replicas by { DivMod(p.replicas, n, 0); }
  }

  lemma DropInjective(p: Place, q: Place, n: nat)
    requires InRange(p) && InRange(q) && p.stages == q.stages && p.replicas == q.replicas
    requires n > 0 && p.replicas % n == 0
    ensures p.stages * n > 0 && q.stages * n > 0
    ensures Dropped(p, n) == Dropped(q, n) ==> p == q
  {
    DropRoundTrip(p, n);
    DropRoundTrip(q, n);
  }

  /** The last worker leaves the range unless `n` divides the replicas: that is exactly when dropping works. */
  lemma DropInRangeExactly(stages: nat, replicas: nat, n: nat)
    requires stages > 0 && replicas > 0 && n > 0
    ensures stages * n > 0
    ensures replicas % n == 0 <==> InRange(Dropped(Place(stages, stages - 1, replicas, replicas - 1), n))
  {
    var p := Place(stages, stages - 1, replicas, replicas - 1);
    if replicas % n == 0 {
      DropRoundTrip(p, n);
    } else {
      assert stages * n > 0 by { MulMonotone(1, stages, n); }
      var d := Dropped(p, n);
      FlatRenumbered(Flat(p), stages * n, replicas / n);
      FlatBelow(d, replicas / n);
      Regroup(stages, n, replicas / n);
      FlatBelow(p, (replicas / n) * n);
      assert (replicas / n) * n < replicas;
    }
  }
}

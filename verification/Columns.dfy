/**
  Which complete columns the merge loops find. They look at a list sorted by residue alone, so the order
  of a column's cells is the one they had before the sort.
 */
module Columns {
  import opened Paging
  import opened Counting
  import opened Sorting
  import opened Pools
  import opened Ownership
  import opened Merging
  import opened Phases

  /** Of the cells of column `b` the one in row 0 comes first. */
  ghost predicate Leads(p: seq<nat>, b: nat, n: nat)
    requires n > 0
  {
    exists i :: 0 <= i < |p| && p[i] == b && forall j | 0 <= j < i :: p[j] % n != b
  }

  lemma InEither(head: seq<nat>, rest: seq<nat>, b: nat)
    ensures b in head + rest <==> b in head || b in rest
  {
  }

  lemma {:induction false} BasesAt(p: seq<nat>, from: nat, n: nat, k: nat, b: nat)
    requires from <= |p| && n > 0 && k > 0
    ensures b in Bases(p, from, n, k) <==> ClosesFrom(p, from, n, k, b)
    decreases |p| - from
  {
    if from < |p| {
      BasesAt(p, from + 1, n, k, b);
      ClosesHere(p, from, n, k, b);
      InEither(if Closes(p, from, n, k) then [p[from]] else [], Bases(p, from + 1, n, k), b);
    }
  }

  lemma ClosesHere(p: seq<nat>, from: nat, n: nat, k: nat, b: nat)
    requires from < |p| && n > 0 && k > 0
    ensures ClosesFrom(p, from, n, k, b)
      <==> (p[from] == b && Closes(p, from, n, k)) || ClosesFrom(p, from + 1, n, k, b)
  {
    if ClosesFrom(p, from, n, k, b) {
      var i :| from <= i < |p| && p[i] == b && Closes(p, i, n, k);
    }
  }

  /** In a sorted list, a column is found if and only if it is complete and led by its row 0. */
  lemma FoundExactly(g: Geometry, p: seq<nat>, b: nat)
    requires Mergeable(g, p)
    ensures b in Bases(p, 0, g.n, g.k) <==> b < g.n && HoldsColumn(g, p, b) && Leads(p, b, g.n)
  {
    BasesAt(p, 0, g.n, g.k, b);
    if ClosesFrom(p, 0, g.n, g.k, b) {
      var i :| 0 <= i < |p| && p[i] == b && Closes(p, i, g.n, g.k);
      ClosesExact(g, p, i);
    }
    if b < g.n && HoldsColumn(g, p, b) && Leads(p, b, g.n) {
      var i :| 0 <= i < |p| && p[i] == b && forall j | 0 <= j < i :: p[j] % g.n != b;
      ClosesExact(g, p, i);
    }
  }

  // ---------- before the sort ----------

  lemma {:induction false} LeadsClass(p: seq<nat>, b: nat, n: nat)
    requires b < n
    ensures var q := KeyClass(p, ResidueKey(n), b);
      && (Leads(p, b, n) <==> q != [] && q[0] == b)
      && (q == [] <==> forall i | 0 <= i < |p| :: p[i] % n != b)
  {
    if p != [] {
      var last := |p| - 1;
      var front := p[..last];
      LeadsClass(front, b, n);
      SmallResidue(b, n);
      LeadsFront(p, b, n);
      if KeyClass(front, ResidueKey(n), b) == [] && p[last] == b {
        assert forall j | 0 <= j < last :: front[j] % n != b;
        assert Leads(p, b, n);
      }
    }
  }

  lemma LeadsFront(p: seq<nat>, b: nat, n: nat)
    requires n > 0 && p != []
    ensures var front := p[..|p| - 1];
      Leads(p, b, n) <==>
        Leads(front, b, n) || (p[|p| - 1] == b && forall j | 0 <= j < |front| :: front[j] % n != b)
  {
    var front := p[..|p| - 1];
    if Leads(front, b, n) {
      var i :| 0 <= i < |front| && front[i] == b && forall j | 0 <= j < i :: front[j] % n != b;
      assert p[i] == b && forall j | 0 <= j < i :: p[j] % n != b;
    }
    if Leads(p, b, n) {
      var i :| 0 <= i < |p| && p[i] == b && forall j | 0 <= j < i :: p[j] % n != b;
      if i < |front| {
        assert front[i] == b && forall j | 0 <= j < i :: front[j] % n != b;
      }
    }
  }

  lemma {:induction false} ClassConcat(a: seq<nat>, b: seq<nat>, key: nat -> int, v: int)
    ensures KeyClass(a + b, key, v) == KeyClass(a, key, v) + KeyClass(b, key, v)
  {
    if b == [] {
      assert a + b == a;
    } else {
      var last := |b| - 1;
      ClassConcat(a, b[..last], key, v);
      assert (a + b)[..|a + b| - 1] == a + b[..last];
    }
  }

  lemma NotBehind(p: seq<nat>, i: nat, from: nat)
    requires Distinct(p) && i < from <= |p|
    ensures p[i] !in p[from..]
  {
  }

  /** Every cell of a column that is complete behind place `from` stands behind it. */
  lemma NoneBefore(g: Geometry, p: seq<nat>, from: nat, b: nat)
    requires Mergeable(g, p) && from <= |p| && b < g.n && HoldsColumn(g, p[from..], b)
    ensures KeyClass(p[..from], ResidueKey(g.n), b) == []
  {
    forall i | 0 <= i < from ensures p[..from][i] % g.n != b {
      NotBehind(p, i, from);
      ColumnOfCell(g, p[i]);
    }
    LeadsClass(p[..from], b, g.n);
  }

  /** So a column is merged if and only if none of its cells is kept in reserve and its row 0 came first
      before the sort, which keeps the order of cells with the same residue. */
  lemma MergedExactly(g: Geometry, cells: seq<nat>, quota: nat, b: nat)
    requires Mergeable(g, SortBy(cells, ResidueKey(g.n)))
    ensures var rest := Suffix(SortBy(cells, ResidueKey(g.n)), quota);
      b in Bases(rest, 0, g.n, g.k) <==> b < g.n && HoldsColumn(g, rest, b) && Leads(cells, b, g.n)
  {
    var key := ResidueKey(g.n);
    var sorted := SortBy(cells, key);
    var from := if quota <= |sorted| then quota else |sorted|;
    var rest := Suffix(sorted, quota);
    assert rest == sorted[from..] && sorted == sorted[..from] + rest;
    assert SortedBy(rest, key) && Distinct(rest);
    FoundExactly(g, rest, b);
    if b < g.n && HoldsColumn(g, rest, b) {
      NoneBefore(g, sorted, from, b);
      ClassConcat(sorted[..from], rest, key, b);
      assert [] + KeyClass(rest, key, b) == KeyClass(rest, key, b);
      SortStable(cells, key, b);
      LeadsClass(rest, b, g.n);
      LeadsClass(cells, b, g.n);
    }
  }

  /** The one column of two cells, its row 0 second: complete, and not found. */
  lemma ColumnMissed()
    ensures var g := Geometry(1, 2);
      var p := SortBy([1, 0], ResidueKey(1));
      p == [1, 0] && HoldsColumn(g, p, 0) && Bases(p, 0, 1, 2) == []
  {
    var g, cells: seq<nat>, one: seq<nat> := Geometry(1, 2), [1, 0], [1];
    var key := ResidueKey(1);
    assert cells[..1] == one && one[..0] == [];
    assert SortBy(one, key) == one;
    assert SortBy(cells, key) == Insert(one, 0, key) == cells;
    assert CellId(0, 1, 0) == 0 && CellId(0, 1, 1) == 1;
    assert !Closes(cells, 0, 1, 2) && !Closes(cells, 1, 1, 2);
    assert Bases(cells, 2, 1, 2) == [] && Bases(cells, 1, 1, 2) == [];
  }

  /** Entering RESTORE merges column `b`: all its cells are free behind the `quota` cells that stay, its row 0 first. */
  ghost predicate Merged(g: Geometry, s: State, quota: nat, b: nat) {
    b < g.n && HoldsColumn(g, Suffix(SortBy(s.fusion, ResidueKey(g.n)), quota), b) && Leads(s.fusion, b, g.n)
  }

  lemma OnceOrNever(p: seq<nat>, x: nat)
    requires Distinct(p)
    ensures multiset(p)[x] == if x in p then 1 else 0
  {
    if x in p {
      var i :| 0 <= i < |p| && p[i] == x;
      assert p == p[..i] + [x] + p[i + 1..];
      assert x !in p[..i] && x !in p[i + 1..];
    }
  }

  /** A cell stays in reserve exactly when its column is not merged, a block is free exactly when it was in reserve or
      its column is merged. */
  lemma RestoreExactly(g: Geometry, s: State, out: Tables, quota: nat)
    requires Sound(g, s, out, true) && s.isFusion && s.numExtend == 0
    ensures s.numBase / s.fusionSize == g.n && EnterRestore(s, quota).Some?
    ensures var t := EnterRestore(s, quota).value;
      && !t.isFusion && t.table == s.table && t.numReserved == quota && t.fusion == []
      && (forall b: nat | b < g.n :: b in t.free <==> b in s.reserved || Merged(g, s, quota, b))
      && forall c: nat | c < g.Cells() :: c in t.reserved <==> c in s.fusion && !Merged(g, s, quota, c % g.n)
  {
    ReadyToRestore(g, s, out, true, quota);
    RestoreSound(g, s, out, quota);
    EnterRestoreValue(g, s, quota);
    var t := EnterRestore(s, quota).value;
    forall b: nat | b < g.n ensures b in t.free <==> b in s.reserved || Merged(g, s, quota, b) {
      MergedExactly(g, s.fusion, quota, b);
    }
    forall c: nat | c < g.Cells() ensures c in t.reserved <==> c in s.fusion && !Merged(g, s, quota, c % g.n) {
      StaysExactly(g, s, quota, c);
    }
  }

  lemma StaysExactly(g: Geometry, s: State, quota: nat, c: nat)
    requires RestoreReady(g, s, quota) && EnterRestore(s, quota).Some? && c < g.Cells()
    ensures c in EnterRestore(s, quota).value.reserved <==> c in s.fusion && !Merged(g, s, quota, c % g.n)
  {
    var t := EnterRestore(s, quota).value;
    var cells: seq<nat> := RestoreCells(g, s);
    var bases: seq<nat> := Bases(Suffix(cells, quota), 0, g.n, g.k);
    RestorePooled(g, s, quota, c);
    EnterRestoreValue(g, s, quota);
    HitsConcat(g, Whole, s.reserved, bases, c);
    assert multiset(t.reserved)[c] + multiset(bases)[c % g.n] == multiset(s.fusion)[c];
    MergedExactly(g, s.fusion, quota, c % g.n);
    OnceOrNever(bases, c % g.n);
    SortMultiset(s.fusion, ResidueKey(g.n));
    OnceOrNever(cells, c);
    assert c in t.reserved <==> multiset(t.reserved)[c] > 0;
    assert c in s.fusion <==> multiset(s.fusion)[c] > 0;
    assert c in cells <==> multiset(cells)[c] > 0;
    if Merged(g, s, quota, c % g.n) {
      assert multiset(bases)[c % g.n] == 1;
    }
  }

  // ---------- where promotion stops ----------

  lemma {:induction false} NoFirstBase(p: seq<nat>, from: nat, n: nat, k: nat)
    requires from <= |p| && n > 0 && k > 0 && FirstBase(p, from, n, k).None?
    ensures forall i | from <= i < |p| :: !Closes(p, i, n, k)
    decreases |p| - from
  {
    if from < |p| {
      NoFirstBase(p, from + 1, n, k);
    }
  }

  /** A column of `k` cells for each block, and not one more than it takes to bring the reserve within its quota. */
  lemma {:induction false} PromoteTrades(s: State)
    requires s.fusionSize > 0 && s.numBase > 0
    ensures Promote(s).Some? ==>
      var t := Promote(s).value;
      && |t.reserved| + s.fusionSize * |t.free| == |s.reserved| + s.fusionSize * |s.free|
      && s.free <= t.free && (t == s || |t.reserved| + s.fusionSize > s.numReserved)
    decreases |s.reserved|
  {
    if |s.reserved| > s.numReserved && FirstBase(s.reserved, 0, s.numBase, s.fusionSize).Some? {
      var b := FirstBase(s.reserved, 0, s.numBase, s.fusionSize).value;
      var rest := RemoveColumn(s.reserved, b, 0, s.numBase, s.fusionSize);
      if rest.Some? {
        RemoveColumnLength(s.reserved, b, 0, s.numBase, s.fusionSize);
        PromoteTrades(Promoted(s, b, rest.value));
        assert s.fusionSize * (|s.free| + 1) == s.fusionSize * |s.free| + s.fusionSize;
      }
    }
  }

  /** Promotion ends with the reserve within its quota, or every complete column has another cell in front
      of its row 0. */
  lemma {:induction false} PromoteEnds(g: Geometry, s: State)
    requires Restoring(g, s)
    ensures Promote(s).Some?
    ensures var t := Promote(s).value;
      || |t.reserved| <= t.numReserved
      || forall b | 0 <= b < g.n && HoldsColumn(g, t.reserved, b) :: !Leads(t.reserved, b, g.n)
    decreases |s.reserved|
  {
    if |s.reserved| > s.numReserved {
      match FirstBase(s.reserved, 0, g.n, g.k)
      case Some(b) =>
        var i := FirstBaseCloses(s.reserved, 0, g.n, g.k);
        ClosesSound(g, s.reserved, i);
        PromotedKeeps(g, s, b, 0);
        var rest := RemoveColumn(s.reserved, b, 0, g.n, g.k).value;
        RemoveColumnLength(s.reserved, b, 0, g.n, g.k);
        PromoteEnds(g, Promoted(s, b, rest));
      case None =>
        NoFirstBase(s.reserved, 0, g.n, g.k);
        forall b | 0 <= b < g.n && HoldsColumn(g, s.reserved, b) ensures !Leads(s.reserved, b, g.n) {
          FoundExactly(g, s.reserved, b);
          BasesAt(s.reserved, 0, g.n, g.k, b);
        }
    }
  }
}

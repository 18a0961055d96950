/**
  Merging cells back into blocks. Both loops look at a list sorted by residue only and promote block
  `b` when the entry `k-1` places after it has the same residue.
 */
module Merging {
  import opened Paging
  import opened Sorting
  import opened Pools
  import opened Counting
  import opened Ownership

  ghost predicate Mergeable(g: Geometry, p: seq<nat>) {
    SortedBy(p, ResidueKey(g.n)) && Distinct(p) && AllBelow(p, g.Cells())
  }

  ghost predicate HoldsRows(g: Geometry, p: seq<nat>, b: nat, from: nat) {
    forall row: nat | from <= row < g.k :: CellId(b, g.n, row) in p
  }

  ghost predicate HoldsColumn(g: Geometry, p: seq<nat>, b: nat) {
    HoldsRows(g, p, b, 0)
  }

  ghost function Rows(q: seq<nat>, n: nat): (r: seq<nat>)
    requires n > 0
    ensures |r| == |q| && forall i | 0 <= i < |q| :: r[i] == q[i] / n
  {
    if q == [] then [] else Rows(q[..|q| - 1], n) + [q[|q| - 1] / n]
  }

  /** Distinct cells of one column: at most `k` of them, and `k` of them are the whole column. */
  lemma CellsOfColumn(g: Geometry, q: seq<nat>, b: nat)
    requires Distinct(q) && AllBelow(q, g.Cells()) && forall i | 0 <= i < |q| :: q[i] % g.n == b
    ensures |q| <= g.k
    ensures |q| == g.k ==> HoldsColumn(g, q, b)
  {
    var rows := Rows(q, g.n);
    forall i | 0 <= i < |q| ensures rows[i] < g.k && q[i] == CellId(b, g.n, rows[i]) {
      ColumnOfCell(g, q[i]);
    }
    Pigeonhole(rows, g.k);
    if |q| == g.k {
      forall row: nat | 0 <= row < g.k ensures CellId(b, g.n, row) in q {
        Covers(rows, g.k, row);
        var i :| 0 <= i < |rows| && rows[i] == row;
        assert q[i] == CellId(b, g.n, row);
      }
    }
  }

  lemma ResidueOrder(p: seq<nat>, n: nat, i: nat, j: nat)
    requires n > 0 && SortedBy(p, ResidueKey(n)) && i <= j < |p|
    ensures p[i] % n <= p[j] % n
  {
    var key := ResidueKey(n);
    assert key(p[i]) == p[i] % n && key(p[j]) == p[j] % n;
    if i < j {
      assert key(p[i]) <= key(p[j]);
    }
  }

  lemma SmallResidue(b: nat, n: nat)
    requires b < n
    ensures b % n == b
  {
    DivMod(0, n, b);
  }

  lemma SameResidue(g: Geometry, p: seq<nat>, i: nat, j: nat)
    requires Mergeable(g, p) && i < |p| && Closes(p, i, g.n, g.k) && i <= j < i + g.k
    ensures p[j] % g.n == p[i]
  {
    ResidueOrder(p, g.n, i, j);
    ResidueOrder(p, g.n, j, i + g.k - 1);
    SmallResidue(p[i], g.n);
  }

  /** Soundness of the test: all `k` cells of the column are on the list. */
  lemma ClosesSound(g: Geometry, p: seq<nat>, i: nat)
    requires Mergeable(g, p) && i < |p| && Closes(p, i, g.n, g.k)
    ensures HoldsColumn(g, p, p[i])
  {
    var q := p[i..i + g.k];
    forall j | 0 <= j < g.k ensures q[j] % g.n == p[i] {
      SameResidue(g, p, i, i + j);
    }
    CellsOfColumn(g, q, p[i]);
    forall row: nat | 0 <= row < g.k ensures CellId(p[i], g.n, row) in p {
      assert CellId(p[i], g.n, row) in q;
    }
  }

  lemma NoEarlierCell(g: Geometry, p: seq<nat>, i: nat, j: nat)
    requires Mergeable(g, p) && j < i < |p| && Closes(p, i, g.n, g.k)
    ensures p[j] % g.n != p[i]
  {
    if p[j] % g.n == p[i] {
      var q := [p[j]] + p[i..i + g.k];
      forall t | 0 < t <= g.k ensures q[t] % g.n == p[i] {
        SameResidue(g, p, i, i + t - 1);
      }
      CellsOfColumn(g, q, p[i]);
      assert false;
    }
  }

  ghost function PlaceOf(p: seq<nat>, x: nat): (at: nat)
    ensures x in p ==> at < |p| && p[at] == x
  {
    if x in p then var i :| 0 <= i < |p| && p[i] == x; i else 0
  }

  ghost function Places(g: Geometry, p: seq<nat>, b: nat, i: nat, rows: nat): (r: seq<nat>)
    ensures |r| == rows
    ensures forall row | 0 <= row < rows ::
      var at := PlaceOf(p, CellId(b, g.n, row)); r[row] == if at >= i then at - i else 0
  {
    if rows == 0 then []
    else
      var at := PlaceOf(p, CellId(b, g.n, rows - 1));
      Places(g, p, b, i, rows - 1) + [if at >= i then at - i else 0]
  }

  lemma PlaceInRun(g: Geometry, p: seq<nat>, i: nat, row: nat)
    requires Mergeable(g, p) && i < |p| && p[i] < g.n && !Closes(p, i, g.n, g.k) && row < g.k
    requires CellId(p[i], g.n, row) in p && forall j | 0 <= j < i :: p[j] % g.n != p[i]
    ensures i <= PlaceOf(p, CellId(p[i], g.n, row)) < i + g.k - 1
  {
    var at := PlaceOf(p, CellId(p[i], g.n, row));
    CellOfColumn(g, p[i], row);
    assert p[at] % g.n == p[i];
    if at >= i + g.k - 1 {
      ResidueOrder(p, g.n, i, i + g.k - 1);
      ResidueOrder(p, g.n, i + g.k - 1, at);
      SmallResidue(p[i], g.n);
    }
  }

  lemma DistinctPlaces(g: Geometry, p: seq<nat>, i: nat, b: nat, places: seq<nat>)
    requires b < g.n && |places| == g.k
    requires forall row | 0 <= row < g.k :: i + places[row] < |p| && p[i + places[row]] == CellId(b, g.n, row)
    ensures Distinct(places)
  {
    forall u, v | 0 <= u < v < g.k ensures places[u] != places[v] {
      CellOfColumn(g, b, u);
      CellOfColumn(g, b, v);
    }
  }

  lemma ColumnRunsOn(g: Geometry, p: seq<nat>, i: nat)
    requires Mergeable(g, p) && i < |p| && p[i] < g.n && HoldsColumn(g, p, p[i])
    requires forall j | 0 <= j < i :: p[j] % g.n != p[i]
    ensures Closes(p, i, g.n, g.k)
  {
    if !Closes(p, i, g.n, g.k) {
      // the `k` cells of the column would share `k - 1` places
      var b := p[i];
      var places := Places(g, p, b, i, g.k);
      forall row | 0 <= row < g.k ensures places[row] < g.k - 1 && p[i + places[row]] == CellId(b, g.n, row) {
        PlaceInRun(g, p, i, row);
      }
      DistinctPlaces(g, p, i, b, places);
      Pigeonhole(places, g.k - 1);
      assert false;
    }
  }

  /** The test passes exactly where a complete column opens with its own row 0. */
  lemma ClosesExact(g: Geometry, p: seq<nat>, i: nat)
    requires Mergeable(g, p) && i < |p|
    ensures Closes(p, i, g.n, g.k)
      <==> p[i] < g.n && HoldsColumn(g, p, p[i]) && forall j | 0 <= j < i :: p[j] % g.n != p[i]
  {
    if Closes(p, i, g.n, g.k) {
      ClosesSound(g, p, i);
      forall j | 0 <= j < i ensures p[j] % g.n != p[i] {
        NoEarlierCell(g, p, i, j);
      }
    } else if p[i] < g.n && HoldsColumn(g, p, p[i]) && forall j | 0 <= j < i :: p[j] % g.n != p[i] {
      ColumnRunsOn(g, p, i);
    }
  }

  // ---------- removing columns ----------

  lemma {:induction false} RemoveAt(p: seq<nat>, x: nat) returns (at: nat)
    requires x in p
    ensures at < |p| && p[at] == x && Remove(p, x) == Some(Without(p, at))
  {
    if p[0] == x {
      at := 0;
      assert Without(p, 0) == p[1..];
    } else {
      var t := RemoveAt(p[1..], x);
      at := t + 1;
      assert Without(p, at) == [p[0]] + Without(p[1..], t);
    }
  }

  lemma WithoutMultiset(p: seq<nat>, at: nat)
    requires at < |p|
    ensures multiset(Without(p, at)) == multiset(p) - multiset{p[at]}
  {
    assert p == p[..at] + ([p[at]] + p[at + 1..]);
  }

  lemma WithoutSorted(p: seq<nat>, at: nat, key: nat -> int)
    requires at < |p| && SortedBy(p, key)
    ensures SortedBy(Without(p, at), key)
  {
  }

  lemma WithoutMergeable(g: Geometry, p: seq<nat>, at: nat)
    requires at < |p| && Mergeable(g, p)
    ensures Mergeable(g, Without(p, at))
  {
    WithoutSorted(p, at, ResidueKey(g.n));
  }

  lemma RemoveKeeps(g: Geometry, p: seq<nat>, x: nat)
    requires Mergeable(g, p) && x in p
    ensures Remove(p, x).Some? && Mergeable(g, Remove(p, x).value)
    ensures multiset(Remove(p, x).value) == multiset(p) - multiset{x}
  {
    var at := RemoveAt(p, x);
    WithoutMultiset(p, at);
    WithoutMergeable(g, p, at);
  }

  lemma StillIn(p: seq<nat>, q: seq<nat>, x: nat, y: nat)
    requires multiset(q) == multiset(p) - multiset{x} && y in p && y != x
    ensures y in q
  {
    assert y in multiset(p);
    assert y in multiset(q);
  }

  ghost function InRows(g: Geometry, b: nat, from: nat, c: nat): nat {
    if c % g.n == b && from <= c / g.n < g.k then 1 else 0
  }

  lemma InRowsStep(g: Geometry, b: nat, from: nat, c: nat)
    requires b < g.n && from < g.k
    ensures InRows(g, b, from, c) == InRows(g, b, from + 1, c) + if c == CellId(b, g.n, from) then 1 else 0
  {
    CellRow(g, b, from, c);
  }

  lemma RowsDiffer(g: Geometry, b: nat, i: nat, j: nat)
    requires b < g.n && i < j < g.k
    ensures CellId(b, g.n, i) != CellId(b, g.n, j)
  {
    CellOfColumn(g, b, i);
    CellOfColumn(g, b, j);
  }

  lemma RowsLeft(g: Geometry, p: seq<nat>, q: seq<nat>, b: nat, from: nat, x: nat)
    requires b < g.n && from < g.k && HoldsRows(g, p, b, from)
    requires x == CellId(b, g.n, from) && multiset(q) == multiset(p) - multiset{x}
    ensures HoldsRows(g, q, b, from + 1)
  {
    forall row: nat | from + 1 <= row < g.k ensures CellId(b, g.n, row) in q {
      RowsDiffer(g, b, from, row);
      StillIn(p, q, x, CellId(b, g.n, row));
    }
  }

  lemma {:induction false} RemoveColumnKeeps(g: Geometry, p: seq<nat>, b: nat, from: nat, c: nat)
    requires Mergeable(g, p) && b < g.n && from <= g.k && HoldsRows(g, p, b, from)
    ensures RemoveColumn(p, b, from, g.n, g.k).Some? && Mergeable(g, RemoveColumn(p, b, from, g.n, g.k).value)
    ensures multiset(RemoveColumn(p, b, from, g.n, g.k).value)[c] + InRows(g, b, from, c) == multiset(p)[c]
    decreases g.k - from
  {
    if from < g.k {
      var x: nat := CellId(b, g.n, from);
      assert x in p;
      RemoveKeeps(g, p, x);
      var q: seq<nat> := Remove(p, x).value;
      RowsLeft(g, p, q, b, from, x);
      RemoveColumnKeeps(g, q, b, from + 1, c);
      InRowsStep(g, b, from, c);
      assert multiset(q)[c] + (if c == x then 1 else 0) == multiset(p)[c] by { assert x in multiset(p); }
    }
  }

  lemma WholeRows(g: Geometry, b: nat, c: nat)
    requires b < g.n
    ensures InRows(g, b, 0, c) == Hits(g, Whole, [b], c)
  {
    RowInBase(g, c);
  }

  /** Taking the whole column out and putting block `b` on a list of blocks changes no cell's owners. */
  lemma PromoteHits(g: Geometry, p: seq<nat>, b: nat, blocks: seq<nat>, c: nat)
    requires Mergeable(g, p) && b < g.n && HoldsColumn(g, p, b)
    ensures RemoveColumn(p, b, 0, g.n, g.k).Some?
    ensures Hits(g, Cell, RemoveColumn(p, b, 0, g.n, g.k).value, c) + Hits(g, Whole, blocks + [b], c)
         == Hits(g, Cell, p, c) + Hits(g, Whole, blocks, c)
  {
    RemoveColumnKeeps(g, p, b, 0, c);
    WholeRows(g, b, c);
    HitsConcat(g, Whole, blocks, [b], c);
  }

  // ---------- the loop of `free_blocks` ----------

  lemma {:induction false} FirstBaseCloses(p: seq<nat>, from: nat, n: nat, k: nat) returns (i: nat)
    requires from <= |p| && n > 0 && k > 0 && FirstBase(p, from, n, k).Some?
    ensures from <= i < |p| && Closes(p, i, n, k) && p[i] == FirstBase(p, from, n, k).value
    ensures forall j | from <= j < i :: !Closes(p, j, n, k)
    decreases |p| - from
  {
    if Closes(p, from, n, k) {
      i := from;
    } else {
      i := FirstBaseCloses(p, from + 1, n, k);
    }
  }

  ghost predicate Restoring(g: Geometry, s: State) {
    PoolShape(g, s) && !s.isFusion && Mergeable(g, s.reserved)
  }

  ghost function Promoted(s: State, b: nat, rest: seq<nat>): State {
    s.(reserved := rest, free := s.free + [b], maxGpu := s.maxGpu + 1, maxReserved := s.maxReserved - s.fusionSize)
  }

  lemma PromotedKeeps(g: Geometry, s: State, b: nat, c: nat)
    requires Restoring(g, s) && b < g.n && HoldsColumn(g, s.reserved, b)
    ensures RemoveColumn(s.reserved, b, 0, g.n, g.k).Some?
    ensures var t := Promoted(s, b, RemoveColumn(s.reserved, b, 0, g.n, g.k).value);
      Restoring(g, t) && Pooled(g, t, c) == Pooled(g, s, c)
  {
    RemoveColumnKeeps(g, s.reserved, b, 0, c);
    PromoteHits(g, s.reserved, b, s.free, c);
  }

  lemma PromotedCapacity(g: Geometry, s: State, b: nat, rest: seq<nat>)
    requires PoolShape(g, s) && !s.isFusion
    ensures Capacity(g, Promoted(s, b, rest)) == Capacity(g, s)
  {
    assert g.k * (s.maxGpu + 1) == g.k * s.maxGpu + g.k;
  }

  /** No removal raises, and promotion moves pages without changing any cell's owners. */
  lemma {:induction false} PromoteKeeps(g: Geometry, s: State, c: nat)
    requires Restoring(g, s)
    ensures Promote(s).Some?
    ensures var t := Promote(s).value;
      && t == s.(reserved := t.reserved, free := t.free, maxGpu := t.maxGpu, maxReserved := t.maxReserved)
      && Restoring(g, t) && Capacity(g, t) == Capacity(g, s) && Pooled(g, t, c) == Pooled(g, s, c)
    decreases |s.reserved|
  {
    if |s.reserved| > s.numReserved && FirstBase(s.reserved, 0, g.n, g.k).Some? {
      var i := FirstBaseCloses(s.reserved, 0, g.n, g.k);
      var b := s.reserved[i];
      ClosesSound(g, s.reserved, i);
      PromotedKeeps(g, s, b, c);
      var rest := RemoveColumn(s.reserved, b, 0, g.n, g.k).value;
      RemoveColumnLength(s.reserved, b, 0, g.n, g.k);
      PromotedCapacity(g, s, b, rest);
      PromoteKeeps(g, Promoted(s, b, rest), c);
    }
  }

  lemma SortedReserve(g: Geometry, p: seq<nat>)
    requires AllBelow(p, g.Cells()) && forall c: nat | c < g.Cells() :: multiset(p)[c] <= 1
    ensures Mergeable(g, SortBy(p, ResidueKey(g.n)))
  {
    var q := SortBy(p, ResidueKey(g.n));
    SortSorted(p, ResidueKey(g.n));
    SortMultiset(p, ResidueKey(g.n));
    forall i | 0 <= i < |q| ensures q[i] < g.Cells() {
      assert q[i] in multiset(q);
      assert q[i] in multiset(p);
      var j :| 0 <= j < |p| && p[j] == q[i];
    }
    forall i, j | 0 <= i < j < |q| ensures q[i] != q[j] {
      if q[i] == q[j] {
        RepeatedCount(q, i, j);
      }
    }
  }

  lemma CellOnce(g: Geometry, s: State, out: Tables, r: RequestId, draining: bool, c: nat)
    requires Sound(g, s, out, draining) && !s.isFusion && r in s.table && s.table[r].format == Cell && c < g.Cells()
    ensures multiset(s.reserved + s.table[r].pages)[c] <= 1
  {
    SumSplit(s.table, HitsAt(g, c), r);
    assert Owners(g, s, out, c) == 1;
    HitsConcat(g, Cell, s.reserved, s.table[r].pages, c);
  }

  lemma FreeRestoredMoves(g: Geometry, s: State, out: Tables, r: RequestId, draining: bool, onlyNew: bool)
    requires Sound(g, s, out, draining) && !s.isFusion
    requires r in s.table && s.table[r].format == Cell
    ensures Free(s, r, true, onlyNew).Some?
    ensures Moves(g, s, out, Free(s, r, true, onlyNew).value, out)
  {
    var pages: seq<nat> := s.table[r].pages;
    var cells := SortBy(s.reserved + pages, ResidueKey(g.n));
    var t := Dropped(s, r).(reserved := cells);
    forall c: nat | c < g.Cells() ensures multiset(s.reserved + pages)[c] <= 1 {
      CellOnce(g, s, out, r, draining, c);
    }
    SortedReserve(g, s.reserved + pages);
    SortMultiset(s.reserved + pages, ResidueKey(g.n));
    PromoteKeeps(g, t, 0);
    var u := Promote(t).value;
    forall c: nat ensures Pooled(g, u, c) == Pooled(g, s, c) + Hits(g, Cell, pages, c) {
      PromoteKeeps(g, t, c);
      HitsConcat(g, Cell, s.reserved, pages, c);
    }
    ReleaseMoves(g, s, u, out, r);
  }

  // ---------- the loops of `restore_kvblocks` ----------

  ghost predicate ClosesFrom(p: seq<nat>, from: nat, n: nat, k: nat, b: nat)
    requires n > 0 && k > 0
  {
    exists i | from <= i < |p| :: p[i] == b && Closes(p, i, n, k)
  }

  lemma {:induction false} BasesClose(p: seq<nat>, from: nat, n: nat, k: nat)
    requires from <= |p| && n > 0 && k > 0 && Distinct(p)
    ensures var bases := Bases(p, from, n, k);
      Distinct(bases) && forall t | 0 <= t < |bases| :: ClosesFrom(p, from, n, k, bases[t])
    decreases |p| - from
  {
    if from < |p| {
      BasesClose(p, from + 1, n, k);
      var rest := Bases(p, from + 1, n, k);
      forall t | 0 <= t < |rest| ensures ClosesFrom(p, from, n, k, rest[t]) && rest[t] != p[from] {
        assert ClosesFrom(p, from + 1, n, k, rest[t]);
        var i :| from + 1 <= i < |p| && p[i] == rest[t] && Closes(p, i, n, k);
      }
    }
  }

  ghost predicate HoldsColumns(g: Geometry, p: seq<nat>, bases: seq<nat>) {
    Distinct(bases) && AllBelow(bases, g.n) && forall t | 0 <= t < |bases| :: HoldsColumn(g, p, bases[t])
  }

  lemma BasesHeld(g: Geometry, p: seq<nat>)
    requires Mergeable(g, p)
    ensures HoldsColumns(g, p, Bases(p, 0, g.n, g.k))
  {
    var bases := Bases(p, 0, g.n, g.k);
    BasesClose(p, 0, g.n, g.k);
    forall t | 0 <= t < |bases| ensures bases[t] < g.n && HoldsColumn(g, p, bases[t]) {
      assert ClosesFrom(p, 0, g.n, g.k, bases[t]);
      var i :| 0 <= i < |p| && p[i] == bases[t] && Closes(p, i, g.n, g.k);
      ClosesSound(g, p, i);
    }
  }

  lemma OtherColumnStays(g: Geometry, p: seq<nat>, b: nat, other: nat)
    requires Mergeable(g, p) && b < g.n && other < g.n && b != other
    requires HoldsColumn(g, p, b) && HoldsColumn(g, p, other)
    ensures RemoveColumn(p, b, 0, g.n, g.k).Some?
    ensures HoldsColumn(g, RemoveColumn(p, b, 0, g.n, g.k).value, other)
  {
    RemoveColumnKeeps(g, p, b, 0, 0);
    var q: seq<nat> := RemoveColumn(p, b, 0, g.n, g.k).value;
    forall row: nat | 0 <= row < g.k ensures CellId(other, g.n, row) in q {
      var y: nat := CellId(other, g.n, row);
      CellOfColumn(g, other, row);
      RemoveColumnKeeps(g, p, b, 0, y);
      assert y in p;
      assert y in multiset(p);
      assert y in multiset(q);
    }
  }

  lemma ColumnsLeft(g: Geometry, p: seq<nat>, bases: seq<nat>)
    requires Mergeable(g, p) && HoldsColumns(g, p, bases) && bases != []
    ensures RemoveColumn(p, bases[0], 0, g.n, g.k).Some?
    ensures var q := RemoveColumn(p, bases[0], 0, g.n, g.k).value;
      Mergeable(g, q) && |q| + g.k == |p| && HoldsColumns(g, q, bases[1..])
  {
    RemoveColumnKeeps(g, p, bases[0], 0, 0);
    RemoveColumnLength(p, bases[0], 0, g.n, g.k);
    forall t | 0 <= t < |bases| - 1
      ensures HoldsColumn(g, RemoveColumn(p, bases[0], 0, g.n, g.k).value, bases[1..][t])
    {
      OtherColumnStays(g, p, bases[0], bases[1..][t]);
    }
  }

  lemma HeadHits(g: Geometry, p: seq<nat>, bases: seq<nat>, c: nat)
    requires Mergeable(g, p) && HoldsColumns(g, p, bases) && bases != []
    ensures RemoveColumn(p, bases[0], 0, g.n, g.k).Some?
    ensures Hits(g, Cell, RemoveColumn(p, bases[0], 0, g.n, g.k).value, c) + Hits(g, Whole, bases, c)
         == Hits(g, Cell, p, c) + Hits(g, Whole, bases[1..], c)
  {
    RemoveColumnKeeps(g, p, bases[0], 0, c);
    WholeRows(g, bases[0], c);
    HitsSplit(g, Whole, bases, 1, c);
    assert bases[..1] == [bases[0]];
  }

  lemma {:induction false} RemoveColumnsShape(g: Geometry, p: seq<nat>, bases: seq<nat>)
    requires Mergeable(g, p) && HoldsColumns(g, p, bases)
    ensures RemoveColumns(p, bases, g.n, g.k).Some?
    ensures var left := RemoveColumns(p, bases, g.n, g.k).value;
      AllBelow(left, g.Cells()) && |left| + g.k * |bases| == |p|
    decreases |bases|
  {
    if bases != [] {
      ColumnsLeft(g, p, bases);
      RemoveColumnsShape(g, RemoveColumn(p, bases[0], 0, g.n, g.k).value, bases[1..]);
      assert g.k * |bases| == g.k * (|bases| - 1) + g.k;
    }
  }

  /** Every removal succeeds, and columns traded for blocks change no cell's owners. */
  lemma {:induction false} RemoveColumnsHits(g: Geometry, p: seq<nat>, bases: seq<nat>, c: nat)
    requires Mergeable(g, p) && HoldsColumns(g, p, bases)
    ensures RemoveColumns(p, bases, g.n, g.k).Some?
    ensures Hits(g, Cell, RemoveColumns(p, bases, g.n, g.k).value, c) + Hits(g, Whole, bases, c) == Hits(g, Cell, p, c)
    decreases |bases|
  {
    if bases == [] {
      NoHits(g, Whole, c);
    } else {
      ColumnsLeft(g, p, bases);
      HeadHits(g, p, bases, c);
      RemoveColumnsHits(g, RemoveColumn(p, bases[0], 0, g.n, g.k).value, bases[1..], c);
    }
  }
}

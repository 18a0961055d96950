/**
  Pages and who owns them.

  An instance starts with `n` blocks. Fusing `k` instances cuts block `b` into the `k` cells
  `b + i*n`. A page id is therefore read in one of two formats: as a whole block, which stands for
  its column of cells, or as a single cell. Ownership is counted cell by cell.
 */
module Paging {

  type RequestId = nat

  datatype Format = Whole | Cell

  datatype Slot = Slot(format: Format, pages: seq<nat>)

  type Tables = map<RequestId, Slot>

  datatype RawGeometry = Geometry(n: nat, k: nat) {
    ghost function Cells(): nat { n * k }
  }

  type Geometry = g: RawGeometry | g.n > 0 && g.k > 0 witness Geometry(1, 1)

  /** How many entries of `pages`, read in `format`, own cell `c`. */
  ghost function Hits(g: Geometry, format: Format, pages: seq<nat>, c: nat): nat {
    match format
    case Cell => multiset(pages)[c]
    case Whole => if c < g.Cells() then multiset(pages)[c % g.n] else 0
  }

  ghost function HitsAt(g: Geometry, c: nat): Slot -> nat {
    (s: Slot) => Hits(g, s.format, s.pages, c)
  }

  /** The ids from `bound` up. */
  function CountFrom(pages: seq<nat>, bound: nat): nat {
    if pages == [] then 0
    else CountFrom(pages[..|pages| - 1], bound) + (if pages[|pages| - 1] >= bound then 1 else 0)
  }

  ghost function CountFromAt(bound: nat): Slot -> nat {
    (s: Slot) => CountFrom(s.pages, bound)
  }

  /** The sum of `w` over all tables. */
  ghost function Sum(m: Tables, w: Slot -> nat): nat {
    if m == map[] then 0
    else
      var r :| r in m;
      w(m[r]) + Sum(m - {r}, w)
  }

  lemma {:induction false} SumSplit(m: Tables, w: Slot -> nat, r: RequestId)
    ensures Sum(m, w) == (if r in m then w(m[r]) else 0) + Sum(m - {r}, w)
    decreases |m|
  {
    if r !in m {
      assert m - {r} == m;
    } else {
      var p :| p in m && Sum(m, w) == w(m[p]) + Sum(m - {p}, w);
      if p != r {
        SumSplit(m - {p}, w, r);
        SumSplit(m - {r}, w, p);
        assert (m - {p}) - {r} == (m - {r}) - {p};
      }
    }
  }

  lemma SumPut(m: Tables, w: Slot -> nat, r: RequestId, s: Slot)
    ensures Sum(m[r := s], w) == w(s) + Sum(m - {r}, w)
  {
    SumSplit(m[r := s], w, r);
    assert m[r := s] - {r} == m - {r};
  }

  lemma SumMember(m: Tables, w: Slot -> nat, r: RequestId)
    requires r in m
    ensures w(m[r]) <= Sum(m, w)
  {
    SumSplit(m, w, r);
  }

  lemma {:induction false} SumEqual(m: Tables, w: Slot -> nat, v: Slot -> nat)
    requires forall r | r in m :: w(m[r]) == v(m[r])
    ensures Sum(m, w) == Sum(m, v)
    decreases |m|
  {
    if m != map[] {
      var r :| r in m;
      SumSplit(m, w, r);
      SumSplit(m, v, r);
      SumEqual(m - {r}, w, v);
    }
  }

  lemma {:induction false} SumZero(m: Tables, w: Slot -> nat)
    requires forall r | r in m :: w(m[r]) == 0
    ensures Sum(m, w) == 0
    decreases |m|
  {
    if m != map[] {
      var r :| r in m;
      SumSplit(m, w, r);
      SumZero(m - {r}, w);
    }
  }

  lemma {:induction false} CountFromConcat(a: seq<nat>, b: seq<nat>, bound: nat)
    ensures CountFrom(a + b, bound) == CountFrom(a, bound) + CountFrom(b, bound)
  {
    if b == [] {
      assert a + b == a;
    } else {
      CountFromConcat(a, b[..|b| - 1], bound);
      assert (a + b)[..|a + b| - 1] == a + b[..|b| - 1];
    }
  }

  lemma {:induction false} CountFromBelow(p: seq<nat>, bound: nat)
    ensures CountFrom(p, bound) == 0 <==> forall x | x in p :: x < bound
    ensures CountFrom(p, bound) == |p| <==> forall x | x in p :: x >= bound
    ensures CountFrom(p, bound) <= |p|
  {
    if p != [] {
      var front, last := p[..|p| - 1], p[|p| - 1];
      CountFromBelow(front, bound);
      assert p == front + [last];
      assert forall x :: x in p <==> x in front || x == last;
      assert last in p;
    }
  }

  lemma CountFromPermutation(a: seq<nat>, b: seq<nat>, bound: nat)
    requires multiset(a) == multiset(b)
    ensures CountFrom(a, bound) == CountFrom(b, bound)
    decreases |a|
  {
    if a == [] {
      assert |b| == |multiset(b)| == |multiset(a)|;
    } else {
      var x := a[|a| - 1];
      var front := a[..|a| - 1];
      assert a == front + [x];
      assert x in multiset(b);
      var i :| 0 <= i < |b| && b[i] == x;
      var rest := b[..i] + b[i + 1..];
      assert b == b[..i] + [x] + b[i + 1..];
      assert multiset(rest) == multiset(b) - multiset{x};
      CountFromPermutation(front, rest, bound);
      CountFromConcat(b[..i] + [x], b[i + 1..], bound);
      CountFromConcat(b[..i], [x], bound);
      CountFromConcat(b[..i], b[i + 1..], bound);
      CountFromConcat(front, [x], bound);
    }
  }

  /** The cell of block `b` in row `row`, that is `b + row * n` (lemma CellIdProduct). */
  function CellId(b: nat, n: nat, row: nat): nat {
    if row == 0 then b else CellId(b, n, row - 1) + n
  }

  lemma {:induction false} CellIdProduct(b: nat, n: nat, row: nat)
    ensures CellId(b, n, row) == b + row * n
  {
    if row > 0 {
      CellIdProduct(b, n, row - 1);
      assert row * n == (row - 1) * n + n;
    }
  }

  /** Residues name columns: the cells of column `b` are exactly the ids with residue `b`. */
  lemma CellOfColumn(g: Geometry, b: nat, i: nat)
    requires b < g.n && i < g.k
    ensures CellId(b, g.n, i) < g.Cells()
    ensures CellId(b, g.n, i) % g.n == b
    ensures CellId(b, g.n, i) / g.n == i
  {
    CellIdProduct(b, g.n, i);
    MulMonotone(i + 1, g.k, g.n);
    assert (i + 1) * g.n == i * g.n + g.n;
    DivMod(i, g.n, b);
  }

  lemma MulMonotone(a: nat, b: nat, n: nat)
    ensures a <= b ==> a * n <= b * n
  {
  }

  lemma DivMod(q: nat, n: nat, r: nat)
    requires r < n
    ensures (r + q * n) / n == q && (r + q * n) % n == r
  {
    var x := r + q * n;
    assert x == (x / n) * n + x % n;
    MulMonotone(x / n + 1, q, n);
    MulMonotone(q + 1, x / n, n);
  }

  lemma ColumnOfCell(g: Geometry, c: nat)
    requires c < g.Cells()
    ensures c % g.n < g.n && c / g.n < g.k && c == CellId(c % g.n, g.n, c / g.n)
  {
    assert c == c % g.n + (c / g.n) * g.n;
    MulMonotone(g.k, c / g.n, g.n);
    CellIdProduct(c % g.n, g.n, c / g.n);
  }
}

/**
  The page pools of one instance as a value, and what each operation of the block manager does to
  them. `None` stands for an exception or a failed assertion.
 */
module Pools {
  import opened Paging
  import opened Sorting

  datatype Option<+T> = None | Some(value: T)

  datatype State = State(
    free: seq<nat>,
    reserved: seq<nat>,
    reservedSet: set<nat>,
    fusion: seq<nat>,
    extend: seq<nat>,
    isFusion: bool,
    fusionSize: nat,
    maxGpu: int,
    maxFusion: int,
    maxReserved: int,
    maxExtend: int,
    numBase: nat,
    numExtend: nat,
    numReserved: nat,
    table: Tables)

  // ---------- construction and phase conversions ----------

  function Initial(n: nat): State {
    State(Range(0, n), [], {}, [], [], false, 1, n, n, 0, 0, n, 0, 0, map[])
  }

  function Range(from: nat, count: nat): seq<nat> {
    if count == 0 then [] else Range(from, count - 1) + [from + count - 1]
  }

  function Column(b: nat, n: nat, k: nat): seq<nat> {
    if k == 0 then [] else Column(b, n, k - 1) + [CellId(b, n, k - 1)]
  }

  function Columns(blocks: seq<nat>, n: nat, k: nat): seq<nat> {
    if blocks == [] then []
    else Columns(blocks[..|blocks| - 1], n, k) + Column(blocks[|blocks| - 1], n, k)
  }

  function Prefix<T>(s: seq<T>, quota: nat): seq<T> {
    if quota <= |s| then s[..quota] else s
  }

  function Suffix<T>(s: seq<T>, quota: nat): seq<T> {
    if quota <= |s| then s[quota..] else []
  }

  function ConvertToPipeline(s: State, k: nat): State
    requires s.maxGpu >= 0
  {
    var kept := Prefix(s.free, s.maxGpu);
    var cut := Suffix(s.free, s.maxGpu);
    var cells := s.fusion + Columns(cut, s.maxGpu, k);
    s.(numReserved := s.maxGpu,
       maxReserved := s.maxGpu - |s.free| + |kept|,
       numBase := s.maxGpu * k,
       maxGpu := 0,
       reserved := kept,
       reservedSet := (set b | b in kept),
       fusion := cells,
       free := [],
       maxFusion := |cells|,
       isFusion := true,
       fusionSize := k)
  }

  function ConvertWithReserve(s: State, k: nat): State
    requires k > 0 && s.maxGpu + s.maxReserved / k >= 0
  {
    var total := s.maxGpu + s.maxReserved / k;
    var kept := Prefix(s.free, total);
    var cut := Suffix(s.free, total);
    var reserved := s.maxGpu - |s.free| + |kept|;
    s.(numReserved := total,
       maxReserved := reserved,
       maxGpu := 0,
       reserved := kept,
       reservedSet := (set b | b in kept),
       fusion := s.reserved + Columns(cut, s.numBase, k),
       free := [],
       numBase := total * k,
       maxFusion := (total - reserved) * k,
       isFusion := true,
       fusionSize := k)
  }

  function AddExtend(s: State, count: nat): State {
    var extend := s.extend + Range(s.numBase, count);
    s.(extend := extend, maxExtend := |extend|, numExtend := |extend|)
  }

  function ConvertAllReserved(s: State): State
    requires s.fusionSize > 0
  {
    s.(fusion := s.fusion + Columns(s.reserved, s.numBase / s.fusionSize, s.fusionSize),
       reserved := [],
       maxFusion := s.maxFusion + s.maxReserved * s.fusionSize,
       maxReserved := 0)
  }

  /** One turn of the loop that waits for extend pages to come back. */
  function DrainTurn(s: State): State {
    if s.maxExtend > 0 then s.(maxExtend := s.maxExtend - |s.extend|, extend := []) else s.(numExtend := 0)
  }

  function ResidueKey(n: nat): nat -> int
    requires n > 0
  {
    (x: nat) => x % n
  }

  function RestoreBlocks(s: State, quota: nat): Option<State>
    requires s.fusionSize > 0 && s.numBase / s.fusionSize > 0
  {
    var n := s.numBase / s.fusionSize;
    MergeCells(s, n, quota, SortBy(s.fusion, ResidueKey(n)))
  }

  /** The first `quota` cells stay in reserve, complete columns of the rest become blocks. */
  function MergeCells(s: State, n: nat, quota: nat, cells: seq<nat>): Option<State>
    requires s.fusionSize > 0 && n > 0
  {
    var rest := Suffix(cells, quota);
    var bases := Bases(rest, 0, n, s.fusionSize);
    match RemoveColumns(rest, bases, n, s.fusionSize)
    case None => None
    case Some(left) =>
      Some(s.(numBase := n,
              numReserved := quota,
              free := s.reserved + bases,
              maxGpu := s.maxReserved + |bases|,
              maxReserved := s.maxFusion - |rest| + |left|,
              reserved := Prefix(cells, quota) + left,
              reservedSet := {},
              fusion := [],
              maxFusion := 0))
  }

  /** The test of both merge loops: entry `i` opens a run of `k` entries with one residue. */
  predicate Closes(p: seq<nat>, i: nat, n: nat, k: nat)
    requires i < |p| && n > 0 && k > 0
  {
    p[i] < n && i + k - 1 < |p| && p[i] == p[i + k - 1] % n
  }

  function Bases(p: seq<nat>, from: nat, n: nat, k: nat): seq<nat>
    requires from <= |p| && n > 0 && k > 0
    decreases |p| - from
  {
    if from == |p| then []
    else (if Closes(p, from, n, k) then [p[from]] else []) + Bases(p, from + 1, n, k)
  }

  /** `list.remove`: drops the first `x`, or raises. */
  function Remove(p: seq<nat>, x: nat): Option<seq<nat>> {
    if p == [] then None
    else if p[0] == x then Some(p[1..])
    else match Remove(p[1..], x)
         case None => None
         case Some(rest) => Some([p[0]] + rest)
  }

  /** Drops the cells of rows `i..k` of column `b`. */
  function RemoveColumn(p: seq<nat>, b: nat, i: nat, n: nat, k: nat): Option<seq<nat>>
    requires i <= k
    decreases k - i
  {
    if i == k then Some(p)
    else match Remove(p, CellId(b, n, i))
         case None => None
         case Some(rest) => RemoveColumn(rest, b, i + 1, n, k)
  }

  function RemoveColumns(p: seq<nat>, bases: seq<nat>, n: nat, k: nat): Option<seq<nat>>
    decreases |bases|
  {
    if bases == [] then Some(p)
    else match RemoveColumn(p, bases[0], 0, n, k)
         case None => None
         case Some(rest) => RemoveColumns(rest, bases[1..], n, k)
  }

  function RestoreFromFusion(s: State): Option<State>
    requires s.fusionSize > 0
  {
    var total := s.maxGpu + s.maxReserved / s.fusionSize;
    if total != s.numBase then None
    else Some(s.(maxGpu := total,
                 maxReserved := 0,
                 free := s.free + Below(s.reserved, s.numBase),
                 reserved := [],
                 isFusion := false,
                 fusionSize := 1,
                 numBase := total))
  }

  function Below(p: seq<nat>, bound: nat): (r: seq<nat>)
    ensures |r| <= |p|
  {
    if p == [] then []
    else Below(p[..|p| - 1], bound) + (if p[|p| - 1] < bound then [p[|p| - 1]] else [])
  }

  // ---------- pages of requests ----------

  function Held(s: State, r: RequestId): nat {
    if r in s.table then |s.table[r].pages| else 0
  }

  function Grant(s: State, r: RequestId, format: Format, pages: seq<nat>): State {
    var slot := if r in s.table then s.table[r].(pages := s.table[r].pages + pages)
                else Slot(format, pages);
    s.(table := s.table[r := slot])
  }

  function AllocateFusion(s: State, r: RequestId, need: nat): Option<State> {
    if r in s.table && Held(s, r) >= need then Some(s)
    else
      var count := need - Held(s, r);
      if count <= |s.fusion| then
        Some(Grant(s.(fusion := s.fusion[count..]), r, Cell, s.fusion[..count]))
      else if count <= |s.fusion| + |s.extend| then
        var more := count - |s.fusion|;
        Some(Grant(s.(fusion := [], extend := s.extend[more..]), r, Cell, s.fusion + s.extend[..more]))
      else None
  }

  function AllocateReserved(s: State, r: RequestId, format: Format, need: nat): Option<State> {
    if r in s.table && Held(s, r) >= need then Some(s)
    else
      var count := need - Held(s, r);
      if count <= |s.reserved| then
        Some(Grant(s.(reserved := s.reserved[count..]), r, format, s.reserved[..count]))
      else None
  }

  function AllocateFree(s: State, r: RequestId, need: nat): Option<State> {
    if r in s.table && Held(s, r) >= need then Some(s)
    else
      var count := need - Held(s, r);
      if count <= |s.free| then
        Some(Grant(s.(free := s.free[count..]), r, Whole, s.free[..count]))
      else None
  }

  function Allocate(s: State, r: RequestId, fused: bool, onlyNew: bool, need: nat): Option<State> {
    if s.isFusion then
      if onlyNew || fused then AllocateFusion(s, r, need) else AllocateReserved(s, r, Whole, need)
    else if fused then AllocateReserved(s, r, Cell, need)
    else AllocateFree(s, r, need)
  }

  /** Cells come back to the pool their id belongs to. */
  function ReturnCells(s: State, pages: seq<nat>): State {
    if pages == [] then s
    else
      var t := ReturnCells(s, pages[..|pages| - 1]);
      var page := pages[|pages| - 1];
      if page < s.numBase then t.(fusion := t.fusion + [page]) else t.(extend := t.extend + [page])
  }

  function ReturnBlock(s: State, b: nat): State
    requires s.fusionSize > 0
  {
    if b in s.reservedSet then s.(reserved := s.reserved + [b])
    else if |s.reservedSet| < s.numReserved then
      s.(reserved := s.reserved + [b], reservedSet := s.reservedSet + {b})
    else
      s.(fusion := s.fusion + Column(b, s.numBase / s.fusionSize, s.fusionSize),
         maxReserved := s.maxReserved - 1,
         maxFusion := s.maxFusion + s.fusionSize)
  }

  /** Blocks of a stale request during BALLOON. */
  function ReturnBlocks(s: State, blocks: seq<nat>): (t: State)
    requires s.fusionSize > 0
    ensures t.fusionSize == s.fusionSize
  {
    if blocks == [] then s
    else ReturnBlock(ReturnBlocks(s, blocks[..|blocks| - 1]), blocks[|blocks| - 1])
  }

  function FirstBase(p: seq<nat>, from: nat, n: nat, k: nat): Option<nat>
    requires from <= |p| && n > 0 && k > 0
    decreases |p| - from
  {
    if from == |p| || from + k - 1 >= |p| then None
    else if Closes(p, from, n, k) then Some(p[from])
    else FirstBase(p, from + 1, n, k)
  }

  /** `while` the reserve is over quota, promote the first complete column found. */
  function Promote(s: State): Option<State>
    requires s.fusionSize > 0 && s.numBase > 0
    decreases |s.reserved|
  {
    if |s.reserved| <= s.numReserved then Some(s)
    else
      match FirstBase(s.reserved, 0, s.numBase, s.fusionSize)
      case None => Some(s)
      case Some(b) =>
        match RemoveColumn(s.reserved, b, 0, s.numBase, s.fusionSize)
        case None => None
        case Some(rest) =>
          RemoveColumnLength(s.reserved, b, 0, s.numBase, s.fusionSize);
          Promote(s.(reserved := rest,
                     free := s.free + [b],
                     maxGpu := s.maxGpu + 1,
                     maxReserved := s.maxReserved - s.fusionSize))
  }

  lemma RemoveLength(p: seq<nat>, x: nat)
    ensures Remove(p, x).Some? ==> |Remove(p, x).value| == |p| - 1
  {
  }

  lemma RemoveColumnLength(p: seq<nat>, b: nat, i: nat, n: nat, k: nat)
    requires i <= k
    ensures RemoveColumn(p, b, i, n, k).Some? ==> |RemoveColumn(p, b, i, n, k).value| == |p| - (k - i)
    decreases k - i
  {
    if i < k {
      RemoveLength(p, CellId(b, n, i));
    }
  }

  function Free(s: State, r: RequestId, fused: bool, onlyNew: bool): Option<State>
    requires s.fusionSize > 0 && s.numBase > 0
  {
    if r !in s.table then None else GiveBack(s.(table := s.table - {r}), s.table[r].pages, fused, onlyNew)
  }

  function GiveBack(s: State, pages: seq<nat>, fused: bool, onlyNew: bool): Option<State>
    requires s.fusionSize > 0 && s.numBase > 0
  {
    if s.isFusion then
      Some(if onlyNew || fused then ReturnCells(s, pages) else ReturnBlocks(s, pages))
    else if fused then
      Promote(s.(reserved := SortBy(s.reserved + pages, ResidueKey(s.numBase))))
    else
      Some(s.(free := s.free + pages))
  }

  /** Row `rank` of the request's columns stays with the request. */
  function Row(blocks: seq<nat>, n: nat, rank: nat): (r: seq<nat>)
    ensures |r| == |blocks|
    ensures forall i | 0 <= i < |blocks| :: r[i] == CellId(blocks[i], n, rank)
  {
    if blocks == [] then [] else Row(blocks[..|blocks| - 1], n, rank) + [CellId(blocks[|blocks| - 1], n, rank)]
  }

  function ColumnExcept(b: nat, n: nat, k: nat, rank: nat): seq<nat> {
    if k == 0 then []
    else ColumnExcept(b, n, k - 1, rank) + (if k - 1 == rank then [] else [CellId(b, n, k - 1)])
  }

  function ColumnsExcept(blocks: seq<nat>, n: nat, k: nat, rank: nat): seq<nat> {
    if blocks == [] then []
    else ColumnsExcept(blocks[..|blocks| - 1], n, k, rank) + ColumnExcept(blocks[|blocks| - 1], n, k, rank)
  }

  function FreeExcept(s: State, r: RequestId, k: nat, rank: nat): Option<State>
    requires k > 0
  {
    if r !in s.table then None
    else
      var blocks := s.table[r].pages;
      Some(s.(fusion := s.fusion + ColumnsExcept(blocks, s.numBase / k, k, rank),
              maxReserved := s.maxReserved - |blocks|,
              maxFusion := s.maxFusion + |blocks| * k,
              table := s.table[r := Slot(Cell, Row(blocks, s.numBase / k, rank))]))
  }

  function IdKey(): nat -> int { (x: nat) => x }

  /** Moves one request's extend pages into the base region, if strictly more cells are free. */
  function Pack(s: State, r: RequestId): Option<State>
    requires r in s.table
  {
    var pages := SortBy(s.table[r].pages, IdKey());
    var kept := Below(pages, s.numBase);
    var count := |pages| - |kept|;
    if count == 0 then Some(s)
    else if count < |s.fusion| then
      Some(s.(table := s.table[r := s.table[r].(pages := kept + s.fusion[..count])],
              fusion := s.fusion[count..],
              extend := s.extend + pages[|kept|..]))
    else None
  }

  /** `pack_blocks_into_base_region`: gives up at the first request that cannot be packed. */
  function PackAll(s: State, ids: seq<RequestId>): (State, bool)
    requires forall i | 0 <= i < |ids| :: ids[i] in s.table
    decreases |ids|
  {
    if ids == [] then (s, true)
    else match Pack(s, ids[0])
         case None => (s, false)
         case Some(t) => PackAll(t, ids[1..])
  }

  // ---------- live restore ----------

  /** `get_free_gpu_blocks`: the empty list when there are too few. */
  function TakeBlocks(s: State, count: nat): (State, seq<nat>) {
    if count <= |s.free| then (s.(free := s.free[count..]), s.free[..count]) else (s, [])
  }

  /** New blocks for one request after the other, until they run out or `cap` requests have theirs. */
  function TakeAll(s: State, ids: seq<RequestId>, cap: nat): (p: (State, seq<seq<nat>>))
    ensures |p.1| <= |ids|
    decreases |ids|
  {
    if ids == [] then (s, [])
    else
      var (t, blocks) := TakeBlocks(s, Held(s, ids[0]));
      if blocks == [] then (s, [])
      else if cap <= 1 then (t, [blocks])
      else
        var (u, rest) := TakeAll(t, ids[1..], cap - 1);
        (u, [blocks] + rest)
  }

  function Install(s: State, r: RequestId, blocks: seq<nat>): State {
    s.(table := s.table[r := Slot(Whole, blocks)])
  }

  /** `get_num_free_gpu_blocks`. */
  function FreeCount(s: State): nat {
    (if s.isFusion then |s.fusion| else |s.free|) + |s.extend|
  }
}

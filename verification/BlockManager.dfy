/**
  The block manager as the object it is: lists, counters and the block table are fields that the
  methods reassign. Each method is proved against the corresponding operation on `State`; a `false`
  result stands for an exception.
 */
module BlockManagerClass {
  import opened Paging
  import opened Sorting
  import opened Pools
  import opened Ownership
  import opened Requests
  import opened RequestLife

  class BlockManager {
    var freeGpu: seq<nat>
    var reserved: seq<nat>
    var reservedSet: set<nat>
    var freeFusion: seq<nat>
    var freeExtend: seq<nat>
    var isFusionState: bool
    var fusionSize: nat
    var maxNumGpu: int
    var maxNumFusion: int
    var maxNumReserved: int
    var maxNumExtend: int
    var numBase: nat
    var numExtend: nat
    var numReserved: nat
    var blockTable: map<RequestId, seq<nat>>

    /** The block table together with how the pages of each request are to be read. */
    ghost var slots: Tables

    ghost predicate Valid()
      reads this`blockTable, this`slots
    {
      slots.Keys == blockTable.Keys && forall r | r in blockTable :: slots[r].pages == blockTable[r]
    }

    ghost function View(): State
      reads this
    {
      State(freeGpu, reserved, reservedSet, freeFusion, freeExtend, isFusionState, fusionSize,
            maxNumGpu, maxNumFusion, maxNumReserved, maxNumExtend, numBase, numExtend, numReserved, slots)
    }

    constructor (n: nat)
      ensures Valid() && View() == Initial(n)
    {
      freeGpu := Range(0, n);
      reserved, reservedSet, freeFusion, freeExtend := [], {}, [], [];
      isFusionState, fusionSize := false, 1;
      maxNumGpu, maxNumFusion, maxNumReserved, maxNumExtend := n, n, 0, 0;
      numBase, numExtend, numReserved := n, 0, 0;
      blockTable, slots := map[], map[];
    }

    // ---------- groups of fields that change together ----------

    method SetPools(free: seq<nat>, kept: seq<nat>, keptSet: set<nat>, cells: seq<nat>)
      modifies this`freeGpu, this`reserved, this`reservedSet, this`freeFusion
      ensures View() == old(View()).(free := free, reserved := kept, reservedSet := keptSet, fusion := cells)
    {
      freeGpu, reserved, reservedSet, freeFusion := free, kept, keptSet, cells;
    }

    method SetCounters(gpu: int, fusion: int, stale: int)
      modifies this`maxNumGpu, this`maxNumFusion, this`maxNumReserved
      ensures View() == old(View()).(maxGpu := gpu, maxFusion := fusion, maxReserved := stale)
    {
      maxNumGpu, maxNumFusion, maxNumReserved := gpu, fusion, stale;
    }

    method SetLayout(fused: bool, k: nat, base: nat, quota: nat)
      modifies this`isFusionState, this`fusionSize, this`numBase, this`numReserved
      ensures View() == old(View()).(isFusion := fused, fusionSize := k, numBase := base, numReserved := quota)
    {
      isFusionState, fusionSize, numBase, numReserved := fused, k, base, quota;
    }

    method SetTable(r: RequestId, ghost format: Format, pages: seq<nat>)
      requires Valid()
      modifies this`blockTable, this`slots
      ensures Valid() && View() == old(View()).(table := old(slots)[r := Slot(format, pages)])
      ensures blockTable == old(blockTable)[r := pages]
    {
      blockTable, slots := blockTable[r := pages], slots[r := Slot(format, pages)];
    }

    method DropTable(r: RequestId)
      requires Valid()
      modifies this`blockTable, this`slots
      ensures Valid() && View() == old(View()).(table := old(slots) - {r})
    {
      blockTable, slots := blockTable - {r}, slots - {r};
    }

    // ---------- phase conversions ----------

    /** The first `quota` free blocks are kept aside for stale requests. */
    static method SplitFree(free: seq<nat>, quota: nat) returns (kept: seq<nat>, rest: seq<nat>)
      ensures kept == Prefix(free, quota) && rest == Suffix(free, quota)
    {
      if quota <= |free| {
        kept, rest := free[..quota], free[quota..];
      } else {
        kept, rest := free, [];
      }
    }

    static method CutBlock(cells: seq<nat>, block: nat, n: nat, k: nat) returns (all: seq<nat>)
      ensures all == cells + Column(block, n, k)
    {
      all := cells;
      var i := 0;
      while i < k
        invariant 0 <= i <= k
        invariant all == cells + Column(block, n, i)
      {
        CellIdProduct(block, n, i);
        all := all + [n * i + block];
        i := i + 1;
      }
    }

    /** Cuts every block of `blocks` into its cells. */
    static method CutBlocks(cells: seq<nat>, blocks: seq<nat>, n: nat, k: nat) returns (all: seq<nat>)
      ensures all == cells + Columns(blocks, n, k)
    {
      all := cells;
      var j := 0;
      while j < |blocks|
        invariant 0 <= j <= |blocks|
        invariant all == cells + Columns(blocks[..j], n, k)
      {
        assert blocks[..j + 1][..j] == blocks[..j];
        all := CutBlock(all, blocks[j], n, k);
        j := j + 1;
      }
      assert blocks[..j] == blocks;
    }

    method ConvertToPipelineFormat(k: nat)
      requires Valid() && maxNumGpu >= 0
      modifies this
      ensures Valid() && View() == ConvertToPipeline(old(View()), k)
    {
      var kept, rest := SplitFree(freeGpu, maxNumGpu);
      var cells := CutBlocks(freeFusion, rest, maxNumGpu, k);
      SetLayout(true, k, maxNumGpu * k, maxNumGpu);
      SetCounters(0, |cells|, maxNumGpu - |freeGpu| + |kept|);
      SetPools([], kept, (set b | b in kept), cells);
    }

    method ConvertToPipelineFormatWithReserve(k: nat)
      requires Valid() && k > 0 && maxNumGpu + maxNumReserved / k >= 0
      modifies this
      ensures Valid() && View() == ConvertWithReserve(old(View()), k)
    {
      var total := maxNumGpu + maxNumReserved / k;
      var kept, rest := SplitFree(freeGpu, total);
      var cells := CutBlocks(reserved, rest, numBase, k);
      var stale := maxNumGpu - |freeGpu| + |kept|;
      SetLayout(true, k, total * k, total);
      SetCounters(0, (total - stale) * k, stale);
      SetPools([], kept, (set b | b in kept), cells);
    }

    method AddExFusionBlocks(count: nat)
      requires Valid()
      modifies this
      ensures Valid() && View() == AddExtend(old(View()), count)
    {
      var j := 0;
      assert freeExtend + [] == freeExtend;
      while j < count
        invariant 0 <= j <= count
        invariant Valid() && View() == old(View()).(extend := old(freeExtend) + Range(numBase, j))
      {
        freeExtend := freeExtend + [numBase + j];
        j := j + 1;
      }
      maxNumExtend := |freeExtend|;
      numExtend := maxNumExtend;
    }

    method ConvertAllReservedBlocksIntoFusion()
      requires Valid() && fusionSize > 0
      modifies this
      ensures Valid() && View() == ConvertAllReserved(old(View()))
    {
      var cells := CutBlocks(freeFusion, reserved, numBase / fusionSize, fusionSize);
      SetPools(freeGpu, [], reservedSet, cells);
      maxNumFusion := maxNumFusion + maxNumReserved * fusionSize;
      maxNumReserved := 0;
    }

    /** One turn of `wait_for_ex_blocks_to_return`; `done` says that the loop has ended. */
    method WaitTurn() returns (done: bool)
      requires Valid()
      modifies this
      ensures Valid() && View() == DrainTurn(old(View()))
      ensures done <==> old(maxNumExtend) <= 0
    {
      done := !(maxNumExtend > 0);
      if !done {
        maxNumExtend := maxNumExtend - |freeExtend|;
        freeExtend := [];
      } else {
        numExtend := 0;
      }
    }

    /** The blocks whose columns can be merged, as the scan of `restore_kvblocks` finds them. */
    static method FindBases(cells: seq<nat>, n: nat, k: nat) returns (bases: seq<nat>)
      requires n > 0 && k > 0
      ensures bases == Bases(cells, 0, n, k)
    {
      bases := [];
      var i := 0;
      while i < |cells|
        invariant 0 <= i <= |cells|
        invariant bases + Bases(cells, i, n, k) == Bases(cells, 0, n, k)
      {
        var block := cells[i];
        if block < n && i + k - 1 < |cells| && block == cells[i + k - 1] % n {
          bases := bases + [block];
        }
        i := i + 1;
      }
    }

    /** Takes the cells of column `b` out of a list; `list.remove` raises if one is missing. */
    static method RemoveRows(cells: seq<nat>, b: nat, n: nat, k: nat) returns (ok: bool, rest: seq<nat>)
      ensures RemoveColumn(cells, b, 0, n, k) == if ok then Some(rest) else None
    {
      rest := cells;
      var i := 0;
      while i < k
        invariant 0 <= i <= k
        invariant RemoveColumn(cells, b, 0, n, k) == RemoveColumn(rest, b, i, n, k)
      {
        CellIdProduct(b, n, i);
        match Remove(rest, b + i * n) {
          case None =>
            return false, rest;
          case Some(left) =>
            rest := left;
        }
        i := i + 1;
      }
      ok := true;
    }

    /** `restore_kvblocks`, with the reserve ratio already turned into a number of pages. */
    method RestoreKvBlocks(quota: nat) returns (ok: bool)
      requires Valid() && fusionSize > 0 && numBase / fusionSize > 0
      modifies this
      ensures Valid() && RestoreBlocks(old(View()), quota) == if ok then Some(View()) else None
    {
      var n := numBase / fusionSize;
      ok := MergeColumns(n, quota, SortBy(freeFusion, ResidueKey(n)));
    }

    /** Keeps the first `quota` cells in reserve and merges complete columns of the rest. */
    method MergeColumns(n: nat, quota: nat, cells: seq<nat>) returns (ok: bool)
      requires Valid() && fusionSize > 0 && n > 0
      modifies this
      ensures Valid() && MergeCells(old(View()), n, quota, cells) == if ok then Some(View()) else None
    {
      var kept, rest := SplitFree(cells, quota);
      var bases := FindBases(rest, n, fusionSize);
      var left;
      ok, left := MergeBases(rest, bases, n, fusionSize);
      if ok {
        SetLayout(isFusionState, fusionSize, n, quota);
        SetCounters(maxNumReserved + |bases|, 0, maxNumFusion - |rest| + |left|);
        SetPools(reserved + bases, kept + left, {}, []);
      }
    }

    /** Takes the columns of all blocks in `bases` off the list. */
    static method MergeBases(cells: seq<nat>, bases: seq<nat>, n: nat, k: nat) returns (ok: bool, left: seq<nat>)
      ensures RemoveColumns(cells, bases, n, k) == if ok then Some(left) else None
    {
      left := cells;
      var j := 0;
      assert bases[0..] == bases;
      while j < |bases|
        invariant 0 <= j <= |bases|
        invariant RemoveColumns(cells, bases, n, k) == RemoveColumns(left, bases[j..], n, k)
      {
        ok, left := RemoveRows(left, bases[j], n, k);
        if !ok {
          return;
        }
        assert bases[j..][1..] == bases[j + 1..];
        j := j + 1;
      }
      ok := true;
    }

    method RestoreFromFusionState() returns (ok: bool)
      requires Valid() && fusionSize > 0
      modifies this
      ensures ok <==> RestoreFromFusion(old(View())).Some?
      ensures ok ==> Valid() && View() == RestoreFromFusion(old(View())).value
    {
      var total := maxNumGpu + maxNumReserved / fusionSize;
      if total != numBase {
        return false;
      }
      var free := KeepBelow(freeGpu, reserved, numBase);
      SetCounters(total, maxNumFusion, 0);
      SetPools(free, [], reservedSet, freeFusion);
      SetLayout(false, 1, total, numReserved);
      ok := true;
    }

    static method KeepBelow(free: seq<nat>, cells: seq<nat>, bound: nat) returns (all: seq<nat>)
      ensures all == free + Below(cells, bound)
    {
      all := free;
      var j := 0;
      while j < |cells|
        invariant 0 <= j <= |cells|
        invariant all == free + Below(cells[..j], bound)
      {
        assert cells[..j + 1][..j] == cells[..j];
        if cells[j] < bound {
          all := all + [cells[j]];
        }
        j := j + 1;
      }
      assert cells[..j] == cells;
    }

    // ---------- allocation ----------

    method TakeFusion(count: nat) returns (pages: seq<nat>)
      requires count <= |freeFusion|
      modifies this`freeFusion
      ensures pages == old(freeFusion)[..count] && freeFusion == old(freeFusion)[count..]
    {
      pages := freeFusion[..count];
      freeFusion := freeFusion[count..];
    }

    method TakeExtend(count: nat) returns (pages: seq<nat>)
      requires count <= |freeExtend|
      modifies this`freeExtend
      ensures pages == old(freeExtend)[..count] && freeExtend == old(freeExtend)[count..]
    {
      pages := freeExtend[..count];
      freeExtend := freeExtend[count..];
    }

    method AddPages(r: RequestId, ghost format: Format, pages: seq<nat>)
      requires Valid()
      modifies this`blockTable, this`slots
      ensures Valid() && View() == Grant(old(View()), r, format, pages)
    {
      if r !in blockTable {
        SetTable(r, format, pages);
      } else {
        SetTable(r, slots[r].format, blockTable[r] + pages);
      }
    }

    method AllocateFusionBlocks(r: RequestId, need: nat) returns (ok: bool)
      requires Valid()
      modifies this
      ensures ok <==> AllocateFusion(old(View()), r, need).Some?
      ensures Valid() && View() == if ok then AllocateFusion(old(View()), r, need).value else old(View())
    {
      var count := need;
      if r in blockTable {
        if |blockTable[r]| < need {
          count := need - |blockTable[r]|;
        } else {
          return true;
        }
      }
      if |freeFusion| >= count {
        var pages := TakeFusion(count);
        AddPages(r, Cell, pages);
      } else if |freeFusion| + |freeExtend| >= count {
        var avail := |freeFusion|;
        var cells := TakeFusion(avail);
        assert cells == old(freeFusion) && freeFusion == [];
        var more := TakeExtend(count - avail);
        AddPages(r, Cell, cells + more);
      } else {
        return false;
      }
      ok := true;
    }

    method AllocateReservedBlocks(r: RequestId, ghost format: Format, need: nat) returns (ok: bool)
      requires Valid()
      modifies this
      ensures ok <==> AllocateReserved(old(View()), r, format, need).Some?
      ensures Valid() && View() == if ok then AllocateReserved(old(View()), r, format, need).value else old(View())
    {
      var count := need;
      if r in blockTable {
        if |blockTable[r]| < need {
          count := need - |blockTable[r]|;
        } else {
          return true;
        }
      }
      if |reserved| < count {
        return false;
      }
      var pages := reserved[..count];
      reserved := reserved[count..];
      AddPages(r, format, pages);
      ok := true;
    }

    /** `allocate_blocks` up to `need` pages; on failure nothing has changed. */
    method AllocateBlocks(r: RequestId, fused: bool, onlyNew: bool, need: nat) returns (ok: bool)
      requires Valid()
      modifies this
      ensures ok <==> Allocate(old(View()), r, fused, onlyNew, need).Some?
      ensures Valid() && View() == if ok then Allocate(old(View()), r, fused, onlyNew, need).value else old(View())
    {
      if isFusionState {
        if onlyNew || fused {
          ok := AllocateFusionBlocks(r, need);
        } else {
          ok := AllocateReservedBlocks(r, Whole, need);
        }
        return;
      }
      if fused {
        ok := AllocateReservedBlocks(r, Cell, need);
        return;
      }
      var count := need;
      if r in blockTable {
        if |blockTable[r]| < need {
          count := need - |blockTable[r]|;
        } else {
          return true;
        }
      }
      if |freeGpu| < count {
        return false;
      }
      var pages := freeGpu[..count];
      freeGpu := freeGpu[count..];
      AddPages(r, Whole, pages);
      ok := true;
    }

    /** `get_num_free_gpu_blocks`. */
    function GetNumFreeGpuBlocks(): (count: nat)
      reads this
      ensures count == FreeCount(View())
    {
      (if !isFusionState then |freeGpu| else |freeFusion|) + |freeExtend|
    }

    // ---------- release ----------

    method FreeBlocks(r: RequestId, fused: bool, onlyNew: bool) returns (ok: bool)
      requires Valid() && fusionSize > 0 && numBase > 0
      modifies this
      ensures ok <==> Free(old(View()), r, fused, onlyNew).Some?
      ensures ok ==> Valid() && View() == Free(old(View()), r, fused, onlyNew).value
      ensures r !in old(blockTable) ==> !ok && Valid() && View() == old(View())
    {
      if r !in blockTable {
        return false;
      }
      var pages := blockTable[r];
      DropTable(r);
      ok := ReturnPages(pages, fused, onlyNew);
    }

    /** Pages go back to the pool they belong to. */
    method ReturnPages(pages: seq<nat>, fused: bool, onlyNew: bool) returns (ok: bool)
      requires fusionSize > 0 && numBase > 0
      modifies this`freeGpu, this`reserved, this`reservedSet, this`freeFusion, this`freeExtend,
               this`maxNumGpu, this`maxNumFusion, this`maxNumReserved
      ensures GiveBack(old(View()), pages, fused, onlyNew) == if ok then Some(View()) else None
    {
      ok := true;
      if isFusionState {
        if onlyNew || fused {
          ReturnFusion(pages);
        } else {
          ReturnStale(pages);
        }
      } else if fused {
        ok := ReturnCellsToReserve(pages);
      } else {
        freeGpu := freeGpu + pages;
      }
    }

    method ReturnCellsToReserve(pages: seq<nat>) returns (ok: bool)
      requires fusionSize > 0 && numBase > 0
      modifies this`reserved, this`freeGpu, this`maxNumGpu, this`maxNumReserved
      ensures Promote(old(View()).(reserved := SortBy(old(reserved) + pages, ResidueKey(numBase))))
           == if ok then Some(View()) else None
    {
      reserved := SortBy(reserved + pages, ResidueKey(numBase));
      ok := PromoteRedundant();
    }

    method ReturnFusion(pages: seq<nat>)
      modifies this`freeFusion, this`freeExtend
      ensures View() == ReturnCells(old(View()), pages)
    {
      var j := 0;
      while j < |pages|
        invariant 0 <= j <= |pages|
        invariant View() == ReturnCells(old(View()), pages[..j])
      {
        assert pages[..j + 1][..j] == pages[..j];
        if pages[j] < numBase {
          freeFusion := freeFusion + [pages[j]];
        } else {
          freeExtend := freeExtend + [pages[j]];
        }
        j := j + 1;
      }
      assert pages[..j] == pages;
    }

    method ReturnStale(blocks: seq<nat>)
      requires fusionSize > 0
      modifies this`reserved, this`reservedSet, this`freeFusion, this`maxNumReserved, this`maxNumFusion
      ensures View() == ReturnBlocks(old(View()), blocks)
    {
      var j := 0;
      while j < |blocks|
        invariant 0 <= j <= |blocks|
        invariant View() == ReturnBlocks(old(View()), blocks[..j])
      {
        assert blocks[..j + 1][..j] == blocks[..j];
        ReturnStaleBlock(blocks[j]);
        j := j + 1;
      }
      assert blocks[..j] == blocks;
    }

    method ReturnStaleBlock(block: nat)
      requires fusionSize > 0
      modifies this`reserved, this`reservedSet, this`freeFusion, this`maxNumReserved, this`maxNumFusion
      ensures View() == ReturnBlock(old(View()), block)
    {
      if block in reservedSet {
        reserved := reserved + [block];
      } else if |reservedSet| < numReserved {
        reserved, reservedSet := reserved + [block], reservedSet + {block};
      } else {
        freeFusion := freeFusion + Column(block, numBase / fusionSize, fusionSize);
        maxNumReserved, maxNumFusion := maxNumReserved - 1, maxNumFusion + fusionSize;
      }
    }

    /** The `for` loop that looks for the first complete column. */
    static method FindBase(cells: seq<nat>, n: nat, k: nat) returns (found: Option<nat>)
      requires n > 0 && k > 0
      ensures found == FirstBase(cells, 0, n, k)
    {
      var i := 0;
      while i < |cells|
        invariant 0 <= i <= |cells|
        invariant FirstBase(cells, 0, n, k) == FirstBase(cells, i, n, k)
      {
        if i + k - 1 >= |cells| {
          return None;
        }
        if cells[i] < n && cells[i] == cells[i + k - 1] % n {
          return Some(cells[i]);
        }
        i := i + 1;
      }
      found := None;
    }

    /** While the reserve is over quota, complete columns become free blocks. */
    method PromoteRedundant() returns (ok: bool)
      requires fusionSize > 0 && numBase > 0
      modifies this`reserved, this`freeGpu, this`maxNumGpu, this`maxNumReserved
      ensures Promote(old(View())) == if ok then Some(View()) else None
    {
      ghost var goal := Promote(View());
      while |reserved| > numReserved
        invariant goal == Promote(View())
        decreases |reserved|
      {
        var found := FindBase(reserved, numBase, fusionSize);
        if found.None? {
          return true;
        }
        RemoveColumnLength(reserved, found.value, 0, numBase, fusionSize);
        var rest;
        ok, rest := RemoveRows(reserved, found.value, numBase, fusionSize);
        if !ok {
          return false;
        }
        reserved := rest;
        freeGpu := freeGpu + [found.value];
        maxNumGpu := maxNumGpu + 1;
        maxNumReserved := maxNumReserved - fusionSize;
      }
      ok := true;
    }

    // ---------- reshard, packing, live restore ----------

    method FreeBlocksIntoFusionExcept(r: RequestId, k: nat, rank: nat) returns (ok: bool)
      requires Valid() && k > 0
      modifies this
      ensures ok <==> FreeExcept(old(View()), r, k, rank).Some?
      ensures Valid() && View() == if ok then FreeExcept(old(View()), r, k, rank).value else old(View())
    {
      if r !in blockTable {
        return false;
      }
      var blocks := blockTable[r];
      var cells := CutExcept(freeFusion, blocks, numBase / k, k, rank);
      var row := Row(blocks, numBase / k, rank);
      SetPools(freeGpu, reserved, reservedSet, cells);
      SetCounters(maxNumGpu, maxNumFusion + |blocks| * k, maxNumReserved - |blocks|);
      SetTable(r, Cell, row);
      ok := true;
    }

    static method CutExcept(cells: seq<nat>, blocks: seq<nat>, n: nat, k: nat, rank: nat) returns (all: seq<nat>)
      ensures all == cells + ColumnsExcept(blocks, n, k, rank)
    {
      all := cells;
      var j := 0;
      while j < |blocks|
        invariant 0 <= j <= |blocks|
        invariant all == cells + ColumnsExcept(blocks[..j], n, k, rank)
      {
        assert blocks[..j + 1][..j] == blocks[..j];
        all := all + ColumnExcept(blocks[j], n, k, rank);
        j := j + 1;
      }
      assert blocks[..j] == blocks;
    }

    /** Where the extend ids of a sorted list begin. */
    static method FirstExtend(pages: seq<nat>, bound: nat) returns (x: nat)
      requires SortedBy(pages, IdKey())
      ensures x <= |pages| && pages[..x] == Below(pages, bound) && |Below(pages, bound)| == x
    {
      x := 0;
      while x < |pages| && pages[x] < bound
        invariant 0 <= x <= |pages| && AllBelow(pages[..x], bound)
      {
        x := x + 1;
      }
      forall i | 0 <= i < |pages| - x ensures pages[x..][i] >= bound {
        assert IdKey()(pages[x]) <= IdKey()(pages[x + i]);
      }
      assert pages == pages[..x] + pages[x..];
      BelowConcat(pages[..x], pages[x..], bound);
      NoneAbove(pages[..x], bound);
      BelowAll(pages[x..], bound);
    }

    /** One request of `pack_blocks_into_base_region`. */
    method PackRequest(r: RequestId) returns (ok: bool)
      requires Valid() && r in blockTable
      modifies this`blockTable, this`slots, this`freeFusion, this`freeExtend
      ensures Valid() && blockTable.Keys == old(blockTable.Keys) && ok == Pack(old(View()), r).Some?
      ensures View() == if ok then Pack(old(View()), r).value else old(View())
    {
      ghost var goal := Pack(View(), r);
      var pages := SortBy(blockTable[r], IdKey());
      SortSorted(blockTable[r], IdKey());
      var x := FirstExtend(pages, numBase);
      PackAt(View(), r, x);
      var count := |pages| - x;
      if count == 0 {
        return true;
      }
      if count >= |freeFusion| {
        return false;
      }
      MoveToBase(r, pages[..x], pages[x..]);
      ok := true;
    }

    /** The pages in `gone` go back to the extend region, cells take their place. */
    method MoveToBase(r: RequestId, kept: seq<nat>, gone: seq<nat>)
      requires Valid() && r in blockTable && |gone| <= |freeFusion|
      modifies this`blockTable, this`slots, this`freeFusion, this`freeExtend
      ensures Valid() && blockTable.Keys == old(blockTable.Keys)
      ensures View() == old(View()).(
        table := old(slots)[r := old(slots)[r].(pages := kept + old(freeFusion)[..|gone|])],
        fusion := old(freeFusion)[|gone|..],
        extend := old(freeExtend) + gone)
    {
      SetTable(r, slots[r].format, kept + freeFusion[..|gone|]);
      freeFusion, freeExtend := freeFusion[|gone|..], freeExtend + gone;
    }

    method PackBlocksIntoBaseRegion(ids: seq<RequestId>) returns (ok: bool)
      requires Valid() && forall i | 0 <= i < |ids| :: ids[i] in blockTable
      modifies this
      ensures Valid() && (View(), ok) == PackAll(old(View()), ids)
    {
      ghost var goal := PackAll(View(), ids);
      var j := 0;
      while j < |ids|
        invariant 0 <= j <= |ids| && Valid() && blockTable.Keys == old(blockTable.Keys)
        invariant goal == PackAll(View(), ids[j..])
      {
        assert ids[j..][1..] == ids[j + 1..];
        ok := PackRequest(ids[j]);
        if !ok {
          return;
        }
        j := j + 1;
      }
      ok := true;
    }

    /** `get_free_gpu_blocks`. */
    method GetFreeGpuBlocks(count: nat) returns (pages: seq<nat>)
      modifies this`freeGpu
      ensures (View(), pages) == TakeBlocks(old(View()), count)
    {
      if |freeGpu| < count {
        return [];
      }
      pages := freeGpu[..count];
      freeGpu := freeGpu[count..];
    }

    /** New blocks for one request after the other, until they run out or `cap` requests have theirs. */
    method TakeGpuBlocks(ids: seq<RequestId>, cap: nat) returns (blocks: seq<seq<nat>>)
      requires Valid()
      modifies this`freeGpu
      ensures Valid() && (View(), blocks) == TakeAll(old(View()), ids, cap)
    {
      ghost var goal := TakeAll(View(), ids, cap);
      ghost var rest := goal;
      blocks := [];
      assert ids[0..] == ids;
      while |blocks| < |ids|
        invariant |blocks| <= |ids| && (|blocks| > 0 ==> |blocks| < cap) && Valid()
        invariant rest == TakeAll(View(), ids[|blocks|..], Left(cap, |blocks|))
        invariant goal.0 == rest.0 && goal.1 == blocks + rest.1
      {
        TakeStep(View(), ids, |blocks|, Left(cap, |blocks|));
        var next := TakeFor(ids[|blocks|]);
        if next == [] {
          assert blocks + [] == blocks;
          return;
        }
        rest := TakeAll(View(), ids[|blocks| + 1..], Left(cap, |blocks| + 1));
        ExtendsOne(goal.1, blocks, next);
        blocks := blocks + [next];
        if |blocks| >= cap {
          return;
        }
      }
      assert blocks + [] == blocks;
    }

    /** `get_block_table`: what each request of the batch passes to the workers. */
    method GetBlockTable(requests: seq<Req>, blockSize: nat) returns (tables: seq<seq<nat>>)
      requires Valid() && blockSize > 0
      ensures |tables| == |requests|
      ensures forall i | 0 <= i < |requests| ::
        tables[i] == PassedPages(PagesFor(View(), requests[i].id), requests[i], blockSize)
    {
      tables := [];
      while |tables| < |requests|
        invariant |tables| <= |requests|
        invariant forall i | 0 <= i < |tables| ::
          tables[i] == PassedPages(PagesFor(View(), requests[i].id), requests[i], blockSize)
      {
        var q := requests[|tables|];
        var pages := if q.id in blockTable then blockTable[q.id] else [];
        if InContext(q) {
          var count := (q.end + blockSize - 1) / blockSize;
          pages := Slice(pages, 0, count);
        }
        tables := tables + [pages];
      }
    }

    /** As many new blocks as the request has pages. */
    method TakeFor(r: RequestId) returns (pages: seq<nat>)
      requires Valid()
      modifies this`freeGpu
      ensures Valid() && (View(), pages) == TakeBlocks(old(View()), Held(old(View()), r))
    {
      var count := if r in blockTable then |blockTable[r]| else 0;
      pages := GetFreeGpuBlocks(count);
    }

    method InstallBlocks(r: RequestId, pages: seq<nat>)
      requires Valid()
      modifies this`blockTable, this`slots
      ensures Valid() && View() == Install(old(View()), r, pages)
    {
      SetTable(r, Whole, pages);
    }
  }

  lemma PackAt(s: State, r: RequestId, x: nat)
    requires r in s.table && x == |Below(SortBy(s.table[r].pages, IdKey()), s.numBase)|
    ensures var pages := SortBy(s.table[r].pages, IdKey());
      var kept, gone := Below(pages, s.numBase), pages[x..];
      Pack(s, r) ==
        if gone == [] then Some(s)
        else if |gone| >= |s.fusion| then None
        else Some(s.(table := s.table[r := s.table[r].(pages := kept + s.fusion[..|gone|])],
                     fusion := s.fusion[|gone|..],
                     extend := s.extend + gone))
  {
  }

  function Left(cap: nat, used: nat): nat {
    if used < cap then cap - used else 0
  }

  function PagesFor(s: State, r: RequestId): seq<nat> {
    if r in s.table then s.table[r].pages else []
  }

  lemma ExtendsOne(all: seq<seq<nat>>, blocks: seq<seq<nat>>, next: seq<nat>)
    ensures all == blocks + [next] <==> all == (blocks + [next]) + []
    ensures forall rest | all == blocks + ([next] + rest) :: all == (blocks + [next]) + rest
  {
    assert (blocks + [next]) + [] == blocks + [next];
    forall rest | all == blocks + ([next] + rest) ensures all == (blocks + [next]) + rest {
      assert blocks + ([next] + rest) == (blocks + [next]) + rest;
    }
  }

  lemma TakeStep(s: State, ids: seq<RequestId>, j: nat, cap: nat)
    requires j < |ids|
    ensures var (t, blocks) := TakeBlocks(s, Held(s, ids[j]));
      (blocks == [] ==> t == s) && TakeAll(s, ids[j..], cap) ==
        if blocks == [] then (s, [])
        else if cap <= 1 then (t, [blocks])
        else (TakeAll(t, ids[j + 1..], cap - 1).0, [blocks] + TakeAll(t, ids[j + 1..], cap - 1).1)
  {
    assert ids[j..][1..] == ids[j + 1..];
    assert s.free[0..] == s.free;
  }
}

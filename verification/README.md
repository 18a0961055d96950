# KunServe's elastic KV blocks and their scheduler, verified

KunServe serves language models from several instances. Each instance keeps the keys and values of its
requests in `N` GPU blocks handed out by a `BlockManager`. When memory runs short, `k` instances fuse
into one pipeline (INITIAL to BALLOON): every instance then holds only a `k`-th of the layers, so each
block `b` is cut into `k` cells `b`, `b + N`, ..., `b + (k-1)*N`, dropped weights add an extend region
from `k*N` up, and a request needs pages on all `k` managers. Going back (BALLOON to RESTORE to INITIAL)
the extend region is drained, complete columns of cells are merged into blocks, and fused requests are
moved home one by one while the engine keeps running. A page id can mean a block or a cell, both
kinds of request coexist, and steps interleave freely. This project models that allocator, the protocols
of `FlashBackend` that drive it, and the chunked-prefill scheduler, and proves that they are safe.

## How it is built

Pages and ownership
- `Paging`, `Counting`, `Sorting`: page formats, counting owners of a cell, the stable sort.
- `Pools`: the state of one manager as a value and what each operation does to it; `None` stands for an
  exception or a failed assertion.
- `Ownership`, `Merging`, `Phases`, `Transfers`: each operation moves pages between owners and loses none.
- `Columns`: which complete columns the merge loops find.
- `BlockManagerClass`: the manager as a mutable object, every method proved equal to its operation on
  the value. How the pages of a table are to be read is a ghost field.

A fused group
- `Group`: `k` managers, the flags of the requests, blocks in flight, who waits for its reshard, which engine
  holds a request and which engines still go on resharding, and the nineteen steps that can be interleaved; the
  guard of a step is what its caller has checked. Arbitrary quotas, extend sizes and page needs are parameters of
  the steps.
- `GroupSafety`, `Runs`, `Cycle`, `LiveRestore`, `RestoreBatch`, `Draining`: the invariant and what it
  means over all runs.
- `Frames`: a step leaves alone every request it is not about.
- `Waiting`, `Leftovers`: what becomes of the invariant when RESTORE begins with a request in a waiting queue, or
  with a stale one in an engine that still goes on resharding.
- `Reshard`, `Exchange`, `Rounds`: reserving pages on the peers, pairing the page lists, the retry loop.
- `Backend`: these protocols as methods over manager objects.

Requests and scheduling
- `Requests`, `RequestObject`, `RequestBatch`, `RequestLife`: chunks, recomputation, a request's whole life; one
  request and the batch as objects.
- `Prefill`, `PrefillRuns`, `PackedPrefill`, `Admission`, `PackedAdmission`: composing a batch within the token
  budget, over whole histories of an engine, and as steps of the group.
- `Preemption`, `Eviction`: pages for the running batch, and what evicting a request gives back to which pool.
- `Iteration`: whole iterations of an engine, and any number of them.
- `Fleet`: several engines on the same managers, in any order, with all that happens to the group in between.
- `Engine`: one virtual engine as an object with these loops.
- `Balance`, `Placement`, `Balancer`: longest-first placement on the least loaded engine.
- `Ranks`: renumbering workers.

The safety invariant counts, for each of the `k*N` cells of a manager, the entries of pools, tables and
blocks in flight that own it, a block standing for its whole column. The count is one in every
reachable state.

## What the code does where its text says otherwise

- The merge loops sort by residue only. A complete column is merged if and only if its row-0 cell came first
  among its cells before the sort (`Columns.MergedExactly`); with cells 1, 0 and two instances of one block it
  is missed (`Columns.ColumnMissed`). Such columns stay in the reserve, even over its quota
  (`Columns.PromoteEnds`), until the final conversion; soundness does not depend on it.
- The check on the way back from the waiting queue overwrites where a request runs. In RESTORE this takes a
  request that holds cells on all managers for a normal one, and freeing it then breaks single ownership: with one
  block and two instances, cell 1 gets a second owner (`Waiting.CellFreedAsBlock`; `Waiting.WaitingHappens` has the
  run that gets there).
- An engine goes on resharding until one of its steps finds no stale request; beginning RESTORE does not end that.
  Its next step then takes a normal request for a stale one: the peers hand out whole blocks, and the home table is
  cut with the stride `N / k`, because the number of base blocks is `N` again. With two blocks and two instances a
  table of block 0 frees cell 1, which belongs to block 1, and cell 2 has no owner any more
  (`Leftovers.WrongStride`); in general the top cell of the highest block is lost (`Leftovers.TopCellLost`).
  `Leftovers.LeftoverHappens` has the run that gets there.
- Nothing in the code keeps RESTORE from beginning in these two cases. Ownership stays single in all runs after that
  if and only if nobody waits then and no engine that still goes on resharding holds a stale request
  (`Leftovers.PartitionExactly`; that a request left over does break it takes room for its pages on the peers). This
  is about the live mode: requests given up by `reshard_blocks` in the blocking mode are flagged as fused already,
  hold blocks on their home only, and end single ownership as well; they are not part of this condition.
- An engine stopped in the middle of a step has taken its tokens but not composed its next batch, and starts again
  with the batch it had. A request that finished in that step executes once more and ends with an output too many:
  asked for one token it has two, and at a third the overrun guard raises and ends the engine
  (`RequestLife.OneTokenTooMany`). The outputs end where they should if and only if no token comes to a finished
  request (`RequestLife.EndsExactly`), which is exactly when a request that ignores stop words has no more of them
  than asked for (`RequestLife.OutputsBounded`) and the guard does not raise (`RequestLife.OverrunExactly`). The
  output too many can take a page more than a request of full length needs (`RequestLife.PageTooMany`).
- In the same situation a request whose last page is full executes with a page too few (`Fleet.ShortHappens`).
  A batch composed of requests with exactly their pages executes so until it has taken tokens
  (`Fleet.ComposedSince`), and then once more if and only if nobody who took one had its last page full
  (`Fleet.ExecutesExactly`). A request with prompt left runs its chunk again (`RequestLife.PrefillRunsTwice`).
- A stale prefill that is left out of a step while the engine is fused is given its next chunk all the same, and
  the tokens of the chunk it did not run are lost for good (`RequestLife.StalePrefillLosesToken`,
  `RequestLife.LostForGood`). The executed chunks tile the prompt if and only if no chunk is skipped so and none runs
  twice (`RequestLife.PrefillTiles`), unless a batch over its budget leaves nothing for a chunk, which then runs
  empty (`RequestLife.EmptyChunkFails`).
- The exchange relies on the peers having reserved as many pages as the home table holds. An engine stopped between
  a token and the page for it can ask for one more, at a page boundary (`RequestLife.NextTokenFits`), and then pages of
  different requests are paired (`Rounds.BoundaryMispairs`). All page lists of a round pair up if and only if the
  numbers agree for every request served (`Rounds.RoundPairsExactly`).
- In RESTORE evicting a fused request need not help the fused request that starves: complete columns among the
  cells it gives back become free blocks, `k` cells each (`Eviction.EvictionReturns`), and with no quota that can
  be all of them (`Eviction.ColumnLeaves`). Everywhere else the pool the starving request draws from grows by all
  its victim held (`Eviction.EvictionHelps`).
- A request that comes back from the waiting queue with prompt left can be a second partial one
  (`PrefillRuns.SecondPartial`). At most one is partial all along if and only if this never happens
  (`PrefillRuns.AtMostOnePartial`).
- `balance_decode` and the rebalancing when ballooning can push a batch over its token budget. `schedule_prefill`
  then fails the assertion in `set_chunk` exactly when the excess is more than the chunk of the first request with
  prompt left, giving up that chunk and what later such requests leave does not make up for it, and the head of the
  queue would otherwise fit (`Prefill.ScheduleFailsExactly`, with an input in `Prefill.MovedTogetherFails`). With
  one such request at most the first part decides.
- A comment in `free_blocks` says that blocks of stale requests are converted into fusion blocks. They
  are not: the quota covers every block, so that branch is never taken and the blocks stay in the reserve
  (`Cycle.StaleBlocksStayReserved`).
- `restore_from_fusion` called while some request still holds cells outside row 0 leaves foreign ids in
  tables; it yields exactly the blocks `0..N` if and only if no table holds an id from `N` up
  (`Cycle.SplitExact`). The group's step to INITIAL carries the corresponding guard.
- `create_request` shortens a prompt so that prompt and output fit the model, which works exactly when
  the output alone fits (`RequestLife.TruncatedFits`).
- Renumbering ranks stays in range exactly when `n` divides the number of replicas
  (`Ranks.DropInRangeExactly`).
- The way from RESTORE straight back to BALLOON exists in `trigger_balloon`, though `get_event` has it
  commented out; it is a step of the group.

## Model

| member | source | states |
|---|---|---|
| Runs.NoSharing | kunserve/block_manager.py:511-625 | in every reachable state a cell or extend page belongs to at most one entry of one table, and then to no pool |
| Runs.Partition | kunserve/block_manager.py:193-349 | whatever the interleaving of conversions, allocations, releases, reshards, packing and live restores, each of the `k*N` cells of a manager has exactly one owner: none is lost, none handed out twice; the runs are those in which, whenever RESTORE begins, nobody waits and no engine still resharding holds a stale request |
| Leftovers.PartitionExactly | kunserve/flash_backend.py:2609-2638 | the runs that go on after RESTORE has begun all keep every cell with one owner if and only if no request was in a waiting queue when it began and no engine still resharding held a stale one; the second half takes, when nobody waits, a request left over with pages and as many blocks free on every peer |
| Leftovers.LeftoverBreaks | kunserve/flash_backend.py:2609-2638 | resharding a request left over, once RESTORE has begun, leaves some cell without exactly one owner |
| Leftovers.TopCellLost | kunserve/block_manager.py:748-763 | a normal request of any sound RESTORE state that has pages: cut into cells, it leaves a cell of its highest block without an owner |
| Leftovers.WrongStride | kunserve/block_manager.py:748-763 | two blocks, two instances: cell 1 gets a second owner and cell 2 loses its only one |
| Leftovers.LeftoverHappens | kunserve/flash_backend.py:1140-1147 | a run from the start leads there: two instances with one block each, both in use, and one request that finds no room on its peer before RESTORE begins |
| Leftovers.LookEnds | kunserve/flash_backend.py:2637-2638 | a step ends the resharding of its engine if and only if that holds no stale request, and of no other engine |
| Waiting.WaitingBreaks | kunserve/flash_backend.py:2272-2284 | whoever waits then can come back, to whichever instance its engine runs on, and be freed, after which some cell has not exactly one owner or the free list holds an id that is no block |
| Waiting.WaitingHappens | kunserve/flash_backend.py:2624-2636 | a run from the start leads there: two instances of one block, one request resharded, parked and still waiting |
| Waiting.CellFreedAsBlock | kunserve/block_manager.py:722-723 | freeing cell 0 as block 0 gives cell 1 a second owner |
| Waiting.ReachableHolds | kunserve/flash_backend.py:2624-2636 | whoever waits holds pages on every manager |
| Frames.StepFrame | kunserve/block_manager.py:511-763 | no step touches the flags, tables, blocks in flight or place of a request it is not about |
| Runs.FlightIsPrivate | kunserve/flash_backend.py:2406-2417 | blocks taken for a live restore and not yet installed are in no pool and in no table, whatever ran in between |
| Runs.CapacityConserved | kunserve/block_manager.py:198-228 | `max_num_fusion + k*max_num_reserved = k*N` throughout BALLOON, `k*max_num_gpu + max_num_reserved = k*N` throughout RESTORE; the total computed on the way back is exactly `N`, so the assertion of `restore_from_fusion` never fails |
| Runs.StepSafe | kunserve/flash_backend.py:674-815 | every enabled step of the group keeps the whole invariant, reshards during RESTORE among them; entering RESTORE does if nobody waits and nothing is left over |
| Runs.RunSafe | kunserve/llm_engine.py:525-646 | so does every run of steps in the phase order of the engine in which that holds whenever RESTORE begins |
| Cycle.FullCycle | kunserve/block_manager.py:232-349 | an instance back in INITIAL owns exactly the blocks `0..N`, all counters agree with `N`, and the manager rebuilt from the data handed over, which lacks some counters, behaves the same in the next cycle |
| Cycle.WayBack | kunserve/llm_engine.py:546-592 | once no request is fused, a group in BALLOON can always be taken back to INITIAL: two turns of the waiting loop per manager empty the extend region, and merging and splitting succeed for every reserve quota |
| Cycle.SplitExact | kunserve/block_manager.py:337-349 | the conversion never fails its assertion, and yields exactly the blocks `0..N` if and only if no table holds an id from `N` up |
| Cycle.StaleBlocksStayReserved | kunserve/block_manager.py:684-697 | a stale request's blocks all go to the reserve, in order, and are on record there; the branch that cuts them into fusion cells is never taken |
| GroupSafety.RebuiltFaithful | kunserve/flash_backend.py:62-82 | a manager rebuilt from its data converts exactly like the original |
| Merging.ClosesSound | kunserve/block_manager.py:314-318 | the merge test (id below `N`, same residue `k-1` entries later) implies that all `k` cells of the column are in the sorted list |
| Merging.ClosesExact | kunserve/block_manager.py:314-318 | the test passes at an entry if and only if a complete column opens there with its own row-0 cell |
| Columns.MergedExactly | kunserve/block_manager.py:302-318 | a column becomes a block if and only if all its cells are behind the reserve and its row-0 cell stood first among them before the sort |
| Columns.ColumnMissed | kunserve/block_manager.py:302-318 | the cells 1, 0 of the only column are complete and not found |
| Columns.PromoteEnds | kunserve/block_manager.py:700-721 | promotion ends with the reserve within its quota, or every complete column has another cell in front of its row 0 |
| Columns.PromoteTrades | kunserve/block_manager.py:700-721 | it takes `k` cells for each block it frees, and not one column more than brings the reserve within its quota |
| Merging.RemoveColumnKeeps | kunserve/block_manager.py:716-717 | the `remove` calls for a column that is there all succeed and take exactly its cells out, in order |
| Merging.PromoteKeeps | kunserve/block_manager.py:700-721 | the loop in `free_blocks` never raises, keeps the owner count of every cell and the capacity |
| Merging.FreeRestoredMoves | kunserve/block_manager.py:698-721 | freeing a fused request in RESTORE cannot fail and moves pages between owners only |
| Merging.BasesHeld | kunserve/block_manager.py:310-318 | the columns found by the scan of `restore_kvblocks` are distinct, below `N` and completely in the list |
| Phases.ConvertSound | kunserve/block_manager.py:232-260 | cutting blocks into cells turns a sound INITIAL state into a sound BALLOON state |
| Phases.ConvertHoldsBack | kunserve/block_manager.py:232-260 | every free block is held back in the reserve, in order; none is cut yet |
| Phases.ConvertWithReserveSound | kunserve/block_manager.py:193-230 | so does the conversion from RESTORE, in which the reserve changes its meaning from cells to blocks |
| Phases.ConvertWithReserveHoldsBack | kunserve/block_manager.py:193-230 | so it does there with the free blocks, while the cells of the reserve become free |
| Phases.ConvertAllMoves | kunserve/block_manager.py:271-281 | cutting the whole reserve moves pages only and keeps the linear sum of the counters |
| Phases.ConvertAllCuts | kunserve/block_manager.py:271-281 | afterwards the reserve is empty and its counter zero; a cell is free if and only if it was or its block was in reserve, just as often; `k` cells have come for each block |
| Phases.AddExtendSound | kunserve/block_manager.py:262-269 | the extend region is added above all cells, each id once |
| Phases.AddExtendExactly | kunserve/block_manager.py:262-269 | the extend region is the ids from `k*N` up, as many as asked for, and both counters say so |
| Phases.DrainSound | kunserve/block_manager.py:283-292 | a turn of the waiting loop keeps the state sound; once it has stopped no table holds an extend id |
| Phases.RestoreSound | kunserve/block_manager.py:294-335 | merging back into blocks succeeds for every reserve quota and keeps every cell's single owner |
| Columns.RestoreExactly | kunserve/block_manager.py:294-335 | a block is free afterwards if and only if it was in reserve or its column is merged, a cell stays in reserve if and only if it was free and its column is not; no table changes |
| Phases.SplitSound | kunserve/block_manager.py:337-349 | the last conversion succeeds and leaves plain blocks only |
| Transfers.FreeMoves | kunserve/block_manager.py:669-726 | in every mode a release succeeds and gives all pages back to pools |
| Transfers.ReshardMoves | kunserve/block_manager.py:748-763 | keeping row `rank` of a request's columns and freeing the other `k-1` cells of each loses nothing |
| Transfers.PackMoves | kunserve/block_manager.py:797-823 | packing swaps extend ids for cells and keeps every owner count and the number of pages |
| Transfers.PackExactly | kunserve/block_manager.py:797-823 | it gives up if and only if there are extend ids to move and not more free cells than those; else the request is left with as many pages, none of them an extend id |
| Transfers.PackAllExactly | kunserve/block_manager.py:797-823 | over a batch the requests are packed in turn up to the first that cannot be, and no other table changes |
| Ownership.AllocateMoves | kunserve/block_manager.py:511-625 | every allocation only moves pages from a pool to the request |
| Ownership.AllocateExactly | kunserve/block_manager.py:511-625 | in every mode an allocation succeeds if and only if what the request lacks is in the pool that mode and flags select (cells and extend pages, the reserve, or the free list); it then gets just that, from the front, extend pages only when no cell is left, and nothing else changes |
| LiveRestore.LiveRestoreCompletes | kunserve/flash_backend.py:2406-2545 | any run of other steps between taking new blocks and installing them leaves the installation possible; afterwards the request has one block table of the same length on its rank and none elsewhere |
| LiveRestore.RunUndisturbed | kunserve/flash_backend.py:2406-2545 | no run of other steps touches the tables, flags or blocks in flight of a request being restored |
| RestoreBatch.TakeAllIsRun | kunserve/flash_backend.py:2406-2417 | taking blocks for a batch, until they run out or the batch limit is reached, is a run of single takes and gives each request its own blocks |
| RestoreBatch.TakeAllExactly | kunserve/flash_backend.py:2406-2417 | each request served gets a block for every page it holds, from the front of the free list; the next one is left out only if the batch limit is reached, it holds nothing, or too few blocks are left for it |
| RestoreBatch.CompleteAllIsRun | kunserve/flash_backend.py:2534-2546 | installing them is a run of completions after which each request of the batch has exactly its new blocks, on one rank only |
| Draining.DrainNeverGrows | kunserve/block_manager.py:283-292 | while draining no step makes the count of extend pages grow, and a turn takes every free one out of reach |
| Draining.DrainedForGood | kunserve/block_manager.py:283-292 | at every yield point the count is free extend ids plus those in tables; when the loop stops, no table of that manager holds an id from the extend region |
| Reshard.AllOrNothing | kunserve/flash_backend.py:821-855 | one reservation leaves every peer with exactly the pages needed, or none with any and all pools with the same pages as before; the first happens if and only if every peer has room; the home manager is untouched |
| Reshard.PrepareAllSafe | kunserve/flash_backend.py:847-855 | over a batch, each request is served on all its peers or keeps everything it had |
| Reshard.ReshardEffect | kunserve/flash_backend.py:1024-1061 | the retry loop ends; each request placed is converted once, its home table becomes row `rank` of its columns in the same page order; requests given up keep their tables, and each of the first `cap` of them, or of all without a cap, still lacks room on some peer |
| Reshard.LeftInOrder | kunserve/flash_backend.py:1024-1061 | the requests given up are still in the order in which they came |
| Rounds.RoundPairsExactly | kunserve/flash_backend.py:895-944 | after the reservation of a round all page lists of the exchange pair up, page by page and with none left over, if and only if every request served was given on the peers as many pages as its home table holds |
| Rounds.MapsPairUp | kunserve/flash_backend.py:919-944 | if so, then in the maps of the round, on every instance and for every sender, each position is the page at one index of one request's table, there and on the sender; the sender goes through its own pages in increasing order, and every page of every request served is sent |
| Rounds.PairsExactly | kunserve/flash_backend.py:919-944 | two flattened page lists without repetitions pair up under the sender's permutation if and only if the lengths agree request by request |
| Rounds.BoundaryMispairs | kunserve/flash_backend.py:919-944 | with one page too many for the first of two requests, the page of the second arrives in a page of the first |
| RequestLife.NextTokenFits | kunserve/colocated_scheduler.py:71-73 | a token more needs a page more exactly when the tokens fill their pages |
| Exchange.ExchangeInGroup | kunserve/flash_backend.py:919-944 | for tables of the same lengths: after applying the sender's permutation position `p` denotes the same request and page on every instance, the sender's own list is strictly increasing, and no page is left out |
| Exchange.ExchangePairs | kunserve/flash_backend.py:931-944 | the permutation of one flattened page list pairs the pages of every other list of the same shape |
| Exchange.StalePagesDistinct | kunserve/flash_backend.py:919-929 | stale pages of different requests never coincide in a reachable state |
| Sorting.SortStable | kunserve/block_manager.py:302-302 | the sort keeps entries of equal key in order, on which the columns found depend |
| BlockManagerClass.BlockManager.constructor | kunserve/block_manager.py:82-142 | a new manager has exactly the free blocks `0..N` |
| BlockManagerClass.BlockManager.ConvertToPipelineFormat | kunserve/block_manager.py:232-260 | its effect on all lists and counters is that of the value operation proved sound |
| BlockManagerClass.BlockManager.ConvertToPipelineFormatWithReserve | kunserve/block_manager.py:193-230 | the same for the conversion from RESTORE |
| BlockManagerClass.BlockManager.AddExFusionBlocks | kunserve/block_manager.py:262-269 | the same for the extend region |
| BlockManagerClass.BlockManager.ConvertAllReservedBlocksIntoFusion | kunserve/block_manager.py:271-281 | the same for cutting the reserve |
| BlockManagerClass.BlockManager.WaitTurn | kunserve/block_manager.py:283-292 | the same for one turn of the loop that waits for extend pages |
| BlockManagerClass.BlockManager.RestoreKvBlocks | kunserve/block_manager.py:294-335 | the same for merging back; it raises exactly when the value operation has no result |
| BlockManagerClass.BlockManager.FindBases | kunserve/block_manager.py:310-318 | the scan finds exactly the entries that pass the merge test, in order |
| BlockManagerClass.BlockManager.RemoveRows | kunserve/block_manager.py:320-323 | the removal loop takes out the cells of all rows, or raises at the first one missing |
| BlockManagerClass.BlockManager.RestoreFromFusionState | kunserve/block_manager.py:337-349 | the last conversion, with its assertion |
| BlockManagerClass.BlockManager.AllocateFusionBlocks | kunserve/block_manager.py:511-543 | cells first, extend pages for the rest, or an exception that changes nothing |
| BlockManagerClass.BlockManager.AllocateReservedBlocks | kunserve/block_manager.py:545-565 | pages from the reserve, or an exception that changes nothing |
| BlockManagerClass.BlockManager.AllocateBlocks | kunserve/block_manager.py:594-625 | the pool depends on the mode and the request exactly as in the value operation |
| BlockManagerClass.BlockManager.GetNumFreeGpuBlocks | kunserve/block_manager.py:854-863 | the count admission relies on |
| BlockManagerClass.BlockManager.FreeBlocks | kunserve/block_manager.py:669-726 | every mode of release; it raises exactly when the value operation has no result, and a request without pages changes nothing |
| BlockManagerClass.BlockManager.ReturnStaleBlock | kunserve/block_manager.py:684-697 | one block of a stale request |
| BlockManagerClass.BlockManager.FindBase | kunserve/block_manager.py:704-713 | the first complete column of the reserve, if the loop sees one |
| BlockManagerClass.BlockManager.PromoteRedundant | kunserve/block_manager.py:700-721 | the `while` loop terminates with the effect of the value operation |
| BlockManagerClass.BlockManager.FreeBlocksIntoFusionExcept | kunserve/block_manager.py:748-763 | the request keeps row `rank`, all other cells are freed, counters move with them |
| BlockManagerClass.BlockManager.GetBlockTable | kunserve/block_manager.py:786-795 | each request passes its pages, in its context stage only those up to its chunk |
| BlockManagerClass.BlockManager.PackBlocksIntoBaseRegion | kunserve/block_manager.py:797-823 | packs one request after the other, giving up at the first without room |
| BlockManagerClass.BlockManager.GetFreeGpuBlocks | kunserve/block_manager.py:416-421 | the blocks asked for, or none |
| BlockManagerClass.BlockManager.TakeGpuBlocks | kunserve/flash_backend.py:2406-2417 | the loop that takes new blocks for a batch |
| Backend.FlashBackend.PrepareOne | kunserve/flash_backend.py:821-845 | allocation on all peers with rollback has the effect proved all-or-nothing |
| Backend.FlashBackend.PrepareReshardBlocks | kunserve/flash_backend.py:846-855 | the loop over a batch, with the two lists it returns |
| Backend.FlashBackend.ExchangeMaps | kunserve/flash_backend.py:919-944 | the page lists of the exchange are those proved to pair up |
| Backend.FlashBackend.ReshardBatched | kunserve/flash_backend.py:895-1022 | the exchange followed by the conversion on every home manager |
| Backend.FlashBackend.ReshardBlocks | kunserve/flash_backend.py:1024-1061 | the retry loop terminates with the managers and the remaining requests of the specification |
| Backend.FlashBackend.FreeEverywhere | kunserve/flash_backend.py:1304-1310 | a fused request is freed on every manager |
| RequestLife.BlocksExact | kunserve/colocated_scheduler.py:71-73 | the number of pages computed is the least that holds all tokens |
| RequestObject.Request.SetChunk | kunserve/request.py:382-391 | the chunk starts where it did, stays within the prompt and uses all of the size unless it ends the prompt |
| RequestObject.Request.AllocateNextChunk | kunserve/request.py:368-377 | the next chunk starts where the last one ended; what is left is what its old size and the addition exceed it by |
| RequestObject.Request.PrepareForRecompute | kunserve/request.py:314-323 | the tokens so far and the output still to come are the same before and after, and the whole prompt is ahead again |
| RequestObject.Request.AddGeneratedToken | kunserve/request.py:338-352 | appends the token and finishes the request by length or stop word; raises exactly on overrun |
| RequestBatch.BatchedRequests.AddRequest | kunserve/request.py:532-536 | appends a request of a new id, and fails for an id that is there |
| RequestBatch.BatchedRequests.PopFinishedRequests | kunserve/request.py:542-551 | the finished requests come out in order, the others stay in order |
| RequestBatch.ThosePop | kunserve/request.py:542-551 | those who stay are the batch the specification of an iteration goes on with |
| RequestBatch.BatchedRequests.GetNumInputTokens | kunserve/request.py:661-662 | the tokens of the next step over the whole batch |
| RequestBatch.BatchedRequests.NextChunks | kunserve/flash_backend.py:1893-1899 | the objects move on to the chunks of the specification, with the same budget left |
| RequestBatch.BatchedRequests.FinishOneIteration | kunserve/request.py:602-623 | each object takes its token unless its prefill goes on; the exception comes only from a request past its limit |
| RequestLife.LifeFaithful | kunserve/request.py:314-352 | across any number of preemptions, and finished or not: the tokens only grow by appending, the output still allowed is that of the original request, it is finished if and only if one of its outputs was to be the last, and it never has more than one output beyond its limit |
| RequestLife.EndsExactly | kunserve/request.py:325-352 | no output comes after the one that ends the request if and only if no token comes to a finished request |
| RequestLife.OutputsBounded | kunserve/request.py:325-352 | then it has no more outputs than asked for; a request that ignores stop words has more exactly otherwise, and else is finished with exactly as many |
| RequestLife.OverrunExactly | kunserve/request.py:338-342 | the overrun guard raises at the next token if and only if there is one output too many already; never without a token to a finished request, and always with one for a request that ignores stop words |
| RequestLife.OneTokenTooMany | kunserve/flash_backend.py:2224-2225 | asked for one token, executed once more: two outputs, and the guard raises at a third |
| RequestLife.BlocksBounded | kunserve/request.py:414-423 | a request never needs more pages than one of full model length and a token more, and no more than one of full length if no token comes to it finished |
| RequestLife.PageTooMany | kunserve/request.py:414-423 | with prompt and output of just the model length it needs a page more exactly when it has an output too many and the model length fills its pages |
| RequestLife.TruncatedFits | kunserve/request.py:693-695 | prompt and output fit the model if and only if the output alone does, and the prompt loses no more of its end than it must |
| RequestLife.BlocksMonotone | kunserve/colocated_scheduler.py:71-73 | more tokens never need fewer pages |
| RequestLife.PrefillTiles | kunserve/request.py:368-380 | over execution and scheduling in any order, as long as no chunk chosen is empty: by the first generated token the executed chunks are contiguous, disjoint and non-empty and cover the prompt exactly once if and only if no chunk was followed by the next before it ran, and none ran twice |
| RequestLife.EmptyChunkFails | kunserve/request.py:368-380 | a chunk chosen in a batch so far over its budget that nothing is left for it: once it has run, what ran never is such a cover |
| RequestLife.SkipLoses | kunserve/flash_backend.py:1893-1899 | choosing the next chunk of a partial request whose chunk has not run leaves that chunk's first token behind |
| RequestLife.LostForGood | kunserve/flash_backend.py:1893-1899 | a token left behind never runs, whatever follows |
| RequestLife.StalePrefillLosesToken | kunserve/flash_backend.py:2645-2669 | three prompt tokens in chunks of one, the first step left out: token 0 never runs, and the request generates |
| RequestLife.PrefillRunsTwice | kunserve/flash_backend.py:2224-2225 | two prompt tokens in chunks of one, executed twice before the next chunk is chosen: token 0 runs twice |
| RequestLife.TilesFeed | kunserve/request.py:428-437 | such chunks feed the model exactly the prompt, in order |
| RequestLife.PassedExactly | kunserve/block_manager.py:786-795 | whatever ran or was skipped before, the pages passed are exactly those the chunk needs, all of them allocated |
| Prefill.NextChunksConserve | kunserve/flash_backend.py:1886-1899 | after every `allocate_next_chunk` the free budget is the budget minus the tokens of the batch; a request left partial has used all of it |
| Prefill.NextChunksMove | kunserve/flash_backend.py:1893-1899 | every request with prompt left starts where its last chunk ended, whatever budget is left; the others stay as they are |
| Prefill.Considered | kunserve/flash_backend.py:1905-1947 | what the checks on the head decide: `set_chunk` is never asked for nothing, a request is turned away only for a reason, and one that stays partial fills the budget |
| Prefill.AdmitFailsExactly | kunserve/request.py:382-391 | admission fails the assertion of `set_chunk` if and only if the batch is over its budget and the head of the queue would otherwise fit |
| Prefill.ScheduleFailsExactly | kunserve/flash_backend.py:1870-1950 | a whole call fails if and only if the excess over the budget is more than the chunk of the first request with prompt left, is not made up for by giving up that chunk and by what later ones leave, and the head would otherwise fit; with one such request at most the first of these decides |
| Prefill.MovedTogetherFails | kunserve/flash_backend.py:1527-1541 | three generating requests gathered on an engine with a budget of two, and one more that arrives: the call fails |
| PackedPrefill.PackedFailsExactly | kunserve/flash_backend.py:2057-2137 | the packing variant fails if and only if the batch with the long request in it is over its budget and the head would otherwise fit |
| Prefill.InputCountIsLength | kunserve/request.py:439-440 | the tokens of a step are counted as the slice of the prompt is cut, negative bounds included |
| Requests.SliceIs | kunserve/request.py:428-437 | a slice of the prompt is cut as lists are: negative bounds count from the end, and what lies outside is cut off |
| Prefill.AdmitLoopSafe | kunserve/flash_backend.py:1905-1947 | within its budget, admission keeps the budget and stops only when the queue is empty, the budget is used up, the batch is full or the head's pages do not fit |
| Prefill.SchedulePrefillSafe | kunserve/flash_backend.py:1870-1950 | the same for a whole call from a batch within its budget, which leaves at most one partial request, filling the budget |
| PrefillRuns.AtMostOnePartial | kunserve/flash_backend.py:1870-1950 | over every history of an engine that starts empty, requests coming back from the waiting queue included: no assertion fails and the budget is never exceeded; at most one running request is partial all along if and only if none came back with prompt left beside another, and then the batch fills the budget right after scheduling |
| PrefillRuns.SecondPartial | kunserve/flash_backend.py:2272-2284 | two requests of three prompt tokens in chunks of one, the second coming back: both are partial |
| Admission.BlocksFitExactly | kunserve/flash_backend.py:1448-1455 | the check lets a new request pass if and only if each manager it is to use has as many pages as it needs in the pool it will draw from, extend pages included |
| Admission.PushIsAdmit | kunserve/flash_backend.py:1420-1429 | what the check admits the managers grant: a safe step of the group that gives the request exactly its pages and changes nobody else's |
| Admission.AdmitLoopInGroup | kunserve/flash_backend.py:1905-1947 | admission is a run of such steps; everybody who joined has exactly the pages needed, and the queue moves over in order with nobody lost or doubled |
| PackedPrefill.MeanWithinThreshold | kunserve/flash_backend.py:2063-2074 | the mean of the short inputs, or the fallback, never exceeds the threshold |
| PackedPrefill.SchedulePackedSafe | kunserve/flash_backend.py:2057-2137 | the budget is kept, and a long request that joins starts with a chunk within the threshold, never its whole prompt |
| PackedAdmission.PackedInGroup | kunserve/flash_backend.py:2057-2137 | a call is a run of admissions: the long request joins if and only if the smaller of the free budget and the mean is not nothing, the batch is not full and the pages are there on every manager it is to use, and starts with just that many tokens; then the queue moves over in order; everybody who joins holds exactly the pages needed, everybody else keeps what he has |
| PackedAdmission.MeanIs | kunserve/flash_backend.py:2063-2074 | the mean `m` over the short inputs is the one with `m*count <= total < (m+1)*count`, and the floor of the threshold without such inputs |
| PackedAdmission.InputsExactly | kunserve/flash_backend.py:2066-2070 | an input counts as often as there are requests with it, if it is within the threshold, and else not at all |
| PackedAdmission.ContextsExactly | kunserve/flash_backend.py:2063-2063 | of the running requests just those in their context stage count, each once |
| Preemption.VictimFields | kunserve/colocated_scheduler.py:106-128 | the victim is the last running request that does not move, has left its context stage, and is fused like the starving one or normal on the same instance; there is none only if no such request runs |
| Preemption.CompetesExactly | kunserve/colocated_scheduler.py:106-128 | two requests hold pages of one kind on a common manager if and only if both are fused, or both normal on one instance |
| Preemption.VictimExactly | kunserve/colocated_scheduler.py:106-128 | so the victim is the last request whose eviction gives back pages of the kind the starving one needs |
| Eviction.EvictionReturns | kunserve/colocated_scheduler.py:299-322 | on every manager it uses, an eviction gives all pages back to the pool the request draws from, except that in RESTORE complete columns of a fused one become free blocks, `k` cells each |
| Eviction.EvictionHelps | kunserve/flash_backend.py:2240-2269 | on every manager the starving request uses, the pool it draws from grows by exactly what its victim held there, fused requests in RESTORE apart |
| Eviction.ColumnLeaves | kunserve/block_manager.py:700-721 | one block and two instances in RESTORE, no quota: the two cells a fused request gives back become a free block, and the reserve is as empty as before |
| Preemption.EvictSafe | kunserve/colocated_scheduler.py:299-322 | eviction keeps the group safe and everybody else's pages |
| Preemption.GrowAllSafe | kunserve/flash_backend.py:2241-2250 | allocating for the batch stops at the first request that lacks more pages on some manager than the pool it draws from has, and keeps everything safe |
| Preemption.AllocateRunningSafe | kunserve/flash_backend.py:2240-2269 | the loop ends with exactly the pages needed for every running request on every manager it uses, or with one that lacks more pages than its pool has, when nobody is left whose eviction gives back pages of that kind; each victim held pages of the kind some other lacked, holds no page anywhere now, and waits in front of the queue with all output in its prompt; together with the running ones they are all there was |
| Preemption.AlwaysServed | kunserve/flash_backend.py:2240-2269 | the loop never ends without the pages: a starving request generates tokens, so that it can be evicted itself; prefills hold exactly their pages |
| Iteration.PopFinishedSafe | kunserve/flash_backend.py:2227-2228 | finished requests leave with all their pages returned, everybody else keeps theirs |
| Iteration.QueueStaysNew | kunserve/colocated_scheduler.py:299-322 | evicted requests wait like new ones: unknown to every manager, each once, and different from all others waiting |
| Iteration.ExecutedTracked | kunserve/request.py:602-623 | a request that executed never holds more pages than its tokens need |
| Iteration.StillExact | kunserve/request.py:602-623 | after executing, everybody in a batch that held exactly its pages still does if and only if nobody who took a token had its last page full |
| Iteration.BackPages | kunserve/flash_backend.py:2272-2284 | those who come back between the page allocation and the admission join with the pages they have, and everybody else keeps what it has |
| Iteration.BackStops | kunserve/flash_backend.py:2272-2284 | they come in order, tagged for this engine, and the first who does not would exceed the budget or the batch size |
| Iteration.NextBatchSafe | kunserve/flash_backend.py:2219-2374 | the pages always come; in the batch composed everybody is known to the group, each once, with no page too many, and holds exactly the pages needed on every manager used if those do who come back; the queue is unknown to the group, and no request of others is touched |
| Iteration.NobodyLost | kunserve/flash_backend.py:2219-2374 | whoever ran unfinished or waited in the queue is in the batch or in the queue afterwards |
| Iteration.WhoRuns | kunserve/flash_backend.py:2219-2374 | in front of the batch composed stand those who stayed, none of them finished, then those who came back, in order; the next ready one would have exceeded the budget or the batch size before anybody was admitted |
| Iteration.NextBatchFits | kunserve/flash_backend.py:2219-2374 | for a batch within its budget no assertion fails and the batch composed is within it; nobody is left in the queue without a reason, and with one partial request at most, come back or there before, there is one at most after, and then the budget is used up |
| Iteration.IterateSafe | kunserve/flash_backend.py:2219-2374 | what holds before an iteration holds after it, whatever arrives, comes back and is generated; everybody then holds exactly its pages, if those did who came back, just when nobody who took a token had its last page full |
| Iteration.IterateFits | kunserve/flash_backend.py:2219-2374 | so does the budget, and no assertion fails |
| Iteration.IterationsSafe | kunserve/flash_backend.py:2219-2374 | so both hold over any number of iterations of one engine that starts within its budget and to which nobody comes back |
| Fleet.TurnSafe | kunserve/flash_backend.py:467-511 | several engines on one list of managers: composing a batch, with requests coming back on the way, executing one, any step of the group about other requests, a request lent to a queue outside, returned to any batch, or handed to another engine, all keep every engine safe |
| Fleet.PlaySafe | kunserve/flash_backend.py:467-511 | so do all of these in any order, over any number of turns and through all phases |
| Fleet.PlayFits | kunserve/flash_backend.py:467-511 | and no assertion fails as long as the requests put into a batch from outside fit its budget |
| Fleet.EveryBatch | kunserve/flash_backend.py:2219-2374 | from the start on, whatever happened: the next batch any engine composes is as described for one engine alone |
| Fleet.EveryBatchFits | kunserve/flash_backend.py:2219-2374 | and it is always composed, within its budget and with nobody left waiting without a reason, as long as what was put into batches from outside fitted |
| Fleet.ComposedSince | kunserve/flash_backend.py:2641-2669 | whatever the other engines and the group do after an engine composed its batch: when it executes, everybody in it holds exactly the pages needed on every manager used |
| Fleet.ExecutesExactly | kunserve/flash_backend.py:2641-2669 | from the start on, over any play: a batch that executes, composed or not, is so when it was composed from such requests and nobody in it took a token with its last page full since; executing it leaves it so if and only if nobody does now |
| Fleet.ShortHappens | kunserve/flash_backend.py:2224-2225 | a prompt that fills its pages, taken in by an engine that starts, and one token: the batch the engine goes on with has a page too few |
| Fleet.MemberUntouched | kunserve/flash_backend.py:480-500 | an engine stays safe through all that happens to requests it does not keep, changes of phase included |
| Engine.VirtualEngine.PopFinished | kunserve/request.py:542-551 | the unfinished requests stay in order, the pages of the others are freed |
| Engine.VirtualEngine.FetchWaiting | kunserve/flash_backend.py:2272-2284 | the ready requests come back in order, tagged for this engine, until one does not fit |
| Engine.VirtualEngine.GetNextBatch | kunserve/flash_backend.py:2219-2374 | the four parts of the method together, the way back between page allocation and admission among them, have the specified effect |
| Engine.VirtualEngine.FinishOneIteration | kunserve/request.py:602-623 | each request that executed takes its token, unless its prefill goes on |
| Engine.VirtualEngine.AllocateBlocks | kunserve/flash_backend.py:1297-1302 | allocation on all managers of a fused request, or on its home |
| Engine.VirtualEngine.FreeBlocks | kunserve/flash_backend.py:1304-1310 | release on all managers of a fused request, or on its home |
| Engine.VirtualEngine.GetLatestRunningRequest | kunserve/colocated_scheduler.py:106-128 | the backward scan finds the victim those lemmas are about |
| Engine.VirtualEngine.TriggerRecompute | kunserve/colocated_scheduler.py:205-218 | evicts that request, if there is one, and only it |
| Engine.VirtualEngine.AllocateRunning | kunserve/flash_backend.py:2240-2269 | the loop terminates with the managers, batch and queue of the specification, and no exception on the way |
| Engine.VirtualEngine.NextChunks | kunserve/flash_backend.py:1893-1899 | the in-place loop over the batch hands out the chunks of the specification |
| Engine.VirtualEngine.CheckHead | kunserve/flash_backend.py:1441-1492 | the checks decide what the specification says |
| Engine.VirtualEngine.TryAddToCurBatch | kunserve/flash_backend.py:1420-1429 | the pages come on every manager and the request moves from queue to batch |
| Engine.VirtualEngine.AdmitQueue | kunserve/flash_backend.py:1905-1947 | the admission loop has exactly the specified result |
| Engine.VirtualEngine.SchedulePrefill | kunserve/flash_backend.py:1870-1950 | so has the whole call, in place |
| Engine.VirtualEngine.TakeNewBlocks | kunserve/flash_backend.py:2406-2417 | new blocks for the first requests of the batch |
| Engine.VirtualEngine.InstallNewBlocks | kunserve/flash_backend.py:2534-2546 | all cells freed, new tables installed, flags reset, for exactly the requests served |
| Balance.LongestFirstBound | kunserve/flash_backend.py:1842-1855 | from idle engines the fullest of `m` gets at most `4/3 - 1/(3m)` times what any assignment of the same jobs needs |
| Balance.GapBound | kunserve/flash_backend.py:1842-1855 | from any loads the final gap is at most the larger of the starting gap and the longest job |
| Placement.BalanceConserves | kunserve/flash_backend.py:1814-1867 | no request is lost or doubled, and with packing it goes to a long queue exactly when its prompt exceeds the threshold |
| Placement.BalanceTokens | kunserve/flash_backend.py:1842-1855 | the queues grow by exactly the tokens the load counters grow by |
| Placement.BalancedNearBest | kunserve/flash_backend.py:1814-1867 | the placement bound, for the queues themselves |
| Placement.BalancedGap | kunserve/flash_backend.py:1814-1867 | the gap bound for what each engine starts with plus what its queues grow by, whatever the starting loads count |
| Placement.BalanceOrder | kunserve/flash_backend.py:1846-1867 | without reordering the short queues end up first come, first served; with it shortest first when nothing waited before, and otherwise the new requests stand shortest first in front of the old ones or, with packing, longest first behind them; in the long queues they stand longest first behind the old ones |
| Balancer.QueueSet.LeastLoaded | kunserve/flash_backend.py:1844-1844 | the first index of the least load |
| Balancer.QueueSet.Balance | kunserve/flash_backend.py:1814-1867 | draining, sorting, placing and reordering have exactly the specified effect |
| Ranks.DropRoundTrip | kunserve/worker.py:461-502 | for `n` dividing the replicas, dropping stays in range, keeps the flat rank and is undone exactly by restoring |
| Ranks.RestoreRoundTrip | kunserve/worker.py:491-502 | for `n` dividing the stages, restoring stays in range and is undone exactly by dropping |
| Ranks.DropInjective | kunserve/worker.py:461-472 | two workers never get the same place |
| Ranks.DropInRangeExactly | kunserve/worker.py:461-472 | all workers stay in range if and only if `n` divides the replicas |
| Ranks.ParallelConfig.PmmDrop | kunserve/worker.py:461-472 | the fields become those of the renumbered place: the flat rank is kept, and the place is in range if `n` divides the replicas |
| Ranks.ParallelConfig.PmmRestore | kunserve/worker.py:491-502 | the fields become those of the place before: the flat rank is kept, and the place is in range if `n` divides the stages |

## Left out

- Ray actors, the event loop, NCCL and CUDA, the tokenizer, downloading, logging, metrics and the API server: foreign code or I/O; what they decide (arrivals, tokens, votes, reserve quotas, sizes of the extend region) are parameters.
- Swapping to CPU and the location of a table: the authors mark the path as stale; the swapping lists are empty throughout and every table is on the GPU.
- The reserve ratio: the product of a float and a page count is replaced by an arbitrary number of pages, so the results hold for every ratio.
- Aliasing of request objects between the batch and the queues: `Engine` and `Balancer` keep requests as values in their queues; the in-place updates of requests and of a batch of them are the methods of `RequestObject.Request` and `RequestBatch.BatchedRequests`.
- Backend.FlashBackend.PrepareReshardBlocks: takes a request as the id, home and number of pages it is read for, since the method only reads the object.
- Backend.FlashBackend.RawPages: a request without a table counts as an empty page list where the code asserts; Reshard.PrepareAllSafe shows that every request served has its tables.
- Engine.VirtualEngine.FreeBlocks: asks that the release cannot raise halfway, which the group invariant gives every request (Engine.ReleasePossible); the code has no such check.
- Engine.VirtualEngine.AllocateRunning: takes the group as a ghost argument whose invariant excludes an exception halfway through a release; nothing is computed with it.
- Engine.VirtualEngine.SchedulePrefill: takes the group in the same way.
- Engine.VirtualEngine.InstallNewBlocks: takes the group in the same way; all tables are installed before the flags are reset, which no other step can observe.
- Backend.FlashBackend.FreeReshardBlocks: asks that every manager has blocks and a number of instances, which they have in every phase; the code takes residues by them without a check.
- The flag that a fused request waits for its home table to be converted: in the blocking mode the code sets `fusion_exec` on all stale requests before reserving pages, the model when the peers have served the request; requests given up by `reshard_blocks` are covered only up to that point, and what becomes of them afterwards, with blocks on their home only and the flag of a fused request, is not.
- Splitting an engine rebinds its list of managers while schedulers of the leader keep the old list, and followers count ranks from zero again; the model keeps one list and one numbering.
- `balance_decode` and the rebalancing when ballooning: their choice of requests is not modelled; moving one is lending it and returning it elsewhere in `Fleet`, whether or not its tokens fit the budget there.
- Sharing one sampling object between the requests of a batch: every request has its own limit of output tokens.
- Empty prompts, instances without blocks and groups without instances: every request has at least one prompt token, `N > 0` and `k >= 1`.
- The zigzag variant of prefill and prefill-only chunking: switched off in the code.
- PackedPrefill.SchedulePackedSafe: makes no claim on the number of partial requests, because several long requests can be partial at once.
- Page order after packing: the code sorts the table, so only ownership, length and the extend ids are stated.
- RequestLife.PrefillTiles: says nothing when some chunk chosen is empty, which takes a batch over its budget (RequestLife.EmptyChunkFails).
- Reshard.ReshardEffect: conversions follow the reservations of the same round without other steps in between, as in the blocking mode; the interleaved mode is covered by the steps of the group.
- Engine.VirtualEngine.FinishOneIteration: leaves the overrun guard out; it raises exactly as RequestLife.OverrunExactly says, which ends the engine. `Iteration` and `Fleet` leave it out in the same way. How the token ids become text is the tokenizer's business.
- The waiting queue as a field: who is ready to come back is a parameter of `Engine.VirtualEngine.GetNextBatch` and of a turn in `Fleet`; the way into the queue, the reshard and the parking are steps of the group. The swapped queue stays empty.
- An engine whose resharding flag is still set in INITIAL: it has no peers to ask then, and changes flags and counters of its own requests only.
- The first look of an engine in RESTORE: the step to RESTORE takes it for all engines at once, so that an engine without a stale request at that moment never reshards in RESTORE.
- The flags that a request is being migrated or resharded as an object: no code sets them, so new requests come without them; `EngineSafe` keeps it so.
- Abort paths, transfers between groups, the voting thresholds and the deprecated scheduling variants: they would only add easy members or have no claim to prove.

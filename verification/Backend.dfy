/**
  The backend that drives the block managers of a fused group: methods over manager and request
  objects, each proved against the function over `State` values that the theorems are about.
 */
module Backend {
  import opened Counting
  import opened Paging
  import opened Sorting
  import opened Pools
  import opened BlockManagerClass
  import G = Group
  import R = Reshard
  import X = Exchange
  import opened Rounds

  class FlashBackend {
    const managers: seq<BlockManager>
    const blockSize: nat
    const exchangeBatchSize: nat

    ghost predicate Valid()
      reads managers
    {
      && blockSize > 0 && Distinct(managers)
      && forall i | 0 <= i < |managers| :: managers[i].Valid()
    }

    /** The managers as values. */
    ghost function Views(): (v: seq<State>)
      reads managers
      ensures |v| == |managers|
      ensures forall i | 0 <= i < |v| :: v[i] == managers[i].View()
    {
      seq(|managers|, i requires 0 <= i < |managers| reads managers => managers[i].View())
    }

    /** Every manager knows how many instances there are and has blocks: what `free_blocks` divides by. */
    ghost predicate Sized()
      reads managers
    {
      forall i | 0 <= i < |managers| :: managers[i].fusionSize > 0 && managers[i].numBase > 0
    }

    constructor (n: nat, k: nat, blockSize: nat, exchangeBatchSize: nat)
      requires blockSize > 0
      ensures Valid() && Views() == G.Start(n, k).mgrs
      ensures this.blockSize == blockSize && this.exchangeBatchSize == exchangeBatchSize
    {
      var all: seq<BlockManager> := [];
      while |all| < k
        invariant |all| <= k
        invariant Distinct(all)
        invariant forall i | 0 <= i < |all| :: fresh(all[i]) && all[i].Valid() && all[i].View() == Initial(n)
      {
        var bm := new BlockManager(n);
        all := all + [bm];
      }
      managers := all;
      this.blockSize, this.exchangeBatchSize := blockSize, exchangeBatchSize;
    }

    // ---------- one manager of the group ----------

    method AllocateAt(i: nat, r: RequestId, fused: bool, onlyNew: bool, need: nat) returns (ok: bool)
      requires Valid() && i < |managers|
      modifies managers[i]
      ensures Valid()
      ensures old(Sized()) ==> Sized()
      ensures ok <==> Allocate(old(Views())[i], r, fused, onlyNew, need).Some?
      ensures Views() ==
        if ok then old(Views())[i := Allocate(old(Views())[i], r, fused, onlyNew, need).value] else old(Views())
    {
      ok := managers[i].AllocateBlocks(r, fused, onlyNew, need);
    }

    /** `free_blocks`; without pages it raises, which the callers below ignore. */
    method FreeAt(i: nat, r: RequestId, fused: bool, onlyNew: bool) returns (ok: bool)
      requires Valid() && i < |managers| && managers[i].fusionSize > 0 && managers[i].numBase > 0
      requires r in managers[i].slots ==> Free(managers[i].View(), r, fused, onlyNew).Some?
      modifies managers[i]
      ensures Valid()
      ensures ok <==> r in old(Views())[i].table
      ensures Views() == old(Views())[i := G.FreeOr(old(Views())[i], r, fused, onlyNew)]
    {
      ok := managers[i].FreeBlocks(r, fused, onlyNew);
    }

    /** One request after the other, until blocks run out or `cap` requests have theirs. */
    method TakeAllAt(i: nat, ids: seq<RequestId>, cap: nat) returns (blocks: seq<seq<nat>>)
      requires Valid() && i < |managers|
      modifies managers[i]
      ensures Valid()
      ensures var (t, taken) := TakeAll(old(Views())[i], ids, cap);
        Views() == old(Views())[i := t] && blocks == taken
    {
      blocks := managers[i].TakeGpuBlocks(ids, cap);
    }

    method InstallAt(i: nat, r: RequestId, pages: seq<nat>)
      requires Valid() && i < |managers|
      modifies managers[i]
      ensures Valid() && Views() == old(Views())[i := Install(old(Views())[i], r, pages)]
    {
      managers[i].InstallBlocks(r, pages);
    }

    /** `free_blocks` of a fused request on every manager. */
    method FreeEverywhere(r: RequestId)
      requires Valid() && forall i | 0 <= i < |managers| :: FreeableAt(Views()[i], r)
      modifies managers
      ensures Valid()
      ensures Views() == seq(|managers|, i requires 0 <= i < |managers| => G.FreeOr(old(Views())[i], r, true, false))
    {
      ghost var start := Views();
      ghost var goal := seq(|managers|, i requires 0 <= i < |managers| => G.FreeOr(start[i], r, true, false));
      var i := 0;
      while i < |managers|
        invariant 0 <= i <= |managers| && Valid()
        invariant forall j | 0 <= j < |managers| :: Views()[j] == if j < i then goal[j] else start[j]
      {
        assert Views()[i] == start[i];
        var held := FreeAt(i, r, true, false);
        i := i + 1;
      }
      assert Views() == goal;
    }

    // ---------- resharding ----------

    method ReserveOnPeer(i: nat, s: R.Stale) returns (ok: bool)
      requires Valid() && Sized() && i < |managers|
      modifies managers
      ensures Valid() && Sized()
      ensures G.AllocatePeers(old(Views()), s.id, s.home, s.need, i)
           == if ok then G.AllocatePeers(Views(), s.id, s.home, s.need, i + 1) else (Views(), false)
    {
      ok := true;
      if i != s.home {
        ok := AllocateAt(i, s.id, false, true, s.need);
      }
    }

    /** Allocates on one peer after the other; stops at the first that has too few pages. */
    method AllocateReshardBlocks(s: R.Stale) returns (ok: bool)
      requires Valid() && Sized()
      modifies managers
      ensures Valid() && Sized()
      ensures (Views(), ok) == G.AllocatePeers(old(Views()), s.id, s.home, s.need, 0)
    {
      ghost var goal := G.AllocatePeers(Views(), s.id, s.home, s.need, 0);
      ghost var rest := goal;
      var i := 0;
      while i < |managers|
        invariant 0 <= i <= |managers| && Valid() && Sized()
        invariant goal == rest && rest == G.AllocatePeers(Views(), s.id, s.home, s.need, i)
      {
        ok := ReserveOnPeer(i, s);
        if !ok {
          return;
        }
        i := i + 1;
        rest := G.AllocatePeers(Views(), s.id, s.home, s.need, i);
      }
      ok := true;
    }

    /** Takes back what the peers have given. */
    method FreeReshardBlocks(s: R.Stale)
      requires Valid() && Sized()
      modifies managers
      ensures Valid() && Sized()
      ensures Views() == G.FreePeers(old(Views()), s.id, s.home)
    {
      ghost var goal := G.FreePeers(Views(), s.id, s.home);
      ghost var start := Views();
      var i := 0;
      while i < |managers|
        invariant 0 <= i <= |managers| && Valid() && Sized()
        invariant forall j | 0 <= j < |managers| :: Views()[j] == if j < i then goal[j] else start[j]
      {
        if i != s.home {
          var held := FreeAt(i, s.id, false, true);
          FreePeerMode(start[i], s.id);
        }
        i := i + 1;
      }
      assert Views() == goal;
    }

    /** One request: pages on every peer, or on none. */
    method PrepareOne(s: R.Stale) returns (ok: bool)
      requires Valid() && Sized()
      modifies managers
      ensures Valid() && Sized()
      ensures (Views(), ok) == G.PreparePeers(old(Views()), s.id, s.home, s.need)
    {
      ok := AllocateReshardBlocks(s);
      if !ok {
        FreeReshardBlocks(s);
      }
    }

    /** `prepare_reshard_blocks`: the requests served, and the others. */
    method PrepareReshardBlocks(requests: seq<R.Stale>) returns (served: seq<R.Stale>, others: seq<R.Stale>)
      requires Valid() && Sized()
      modifies managers
      ensures Valid() && Sized()
      ensures (Views(), served, others) == R.PrepareAll(old(Views()), requests)
    {
      ghost var start := Views();
      served, others := [], [];
      var j := 0;
      while j < |requests|
        invariant 0 <= j <= |requests| && Valid() && Sized()
        invariant R.PrepareAll(start, requests[..j]) == (Views(), served, others)
      {
        PrepareStep(start, requests, j);
        var ok := PrepareOne(requests[j]);
        if ok {
          served := served + [requests[j]];
        } else {
          others := others + [requests[j]];
        }
        j := j + 1;
      }
      assert requests[..j] == requests;
    }

    /** Groups the requests by home, in order. */
    static method ByHome(requests: seq<R.Stale>, k: nat) returns (homed: seq<seq<R.Stale>>)
      requires HomesBelow(requests, k)
      ensures homed == Homes(requests, k)
    {
      homed := seq(k, i => []);
      var j := 0;
      while j < |requests|
        invariant 0 <= j <= |requests| && |homed| == k
        invariant forall i | 0 <= i < k :: homed[i] == HomedAt(requests[..j], i)
      {
        var s := requests[j];
        assert requests[..j + 1][..j] == requests[..j];
        homed := homed[s.home := homed[s.home] + [s]];
        j := j + 1;
      }
      assert requests[..j] == requests;
    }

    /** The page lists of the requests on manager `i`, one after the other. */
    method RawPages(i: nat, requests: seq<R.Stale>) returns (raw: seq<nat>)
      requires Valid() && i < |managers|
      ensures raw == X.Flatten(X.PagesOf(Views()[i], IdsOf(requests)))
    {
      raw := [];
      var j := 0;
      while j < |requests|
        invariant 0 <= j <= |requests|
        invariant raw == X.Flatten(X.PagesOf(managers[i].View(), IdsOf(requests[..j])))
      {
        IdsOfStep(requests, j);
        PagesStep(managers[i].View(), IdsOf(requests[..j]), requests[j].id);
        var r := requests[j].id;
        raw := raw + (if r in managers[i].blockTable then managers[i].blockTable[r] else []);
        j := j + 1;
      }
      assert requests[..j] == requests;
    }

    /** For every sender the order in which it reads its own pages. */
    method Permutations(homed: seq<seq<R.Stale>>) returns (perms: seq<seq<nat>>)
      requires Valid() && |homed| == |managers|
      ensures perms == Orders(Views(), homed)
    {
      perms := [];
      while |perms| < |managers|
        invariant |perms| <= |managers|
        invariant perms == Orders(Views(), homed)[..|perms|]
      {
        var raw := RawPages(|perms|, homed[|perms|]);
        perms := perms + [X.Permutation(raw)];
      }
    }

    /** `block_table_map` of instance `i`: the permutation of each sender applied to the pages held here. */
    method ExchangeRow(i: nat, homed: seq<seq<R.Stale>>, perms: seq<seq<nat>>) returns (row: seq<seq<nat>>)
      requires Valid() && i < |managers| && |homed| == |managers| && perms == Orders(Views(), homed)
      ensures row == PageMaps(Views(), homed, i)
    {
      row := [];
      while |row| < |managers|
        invariant |row| <= |managers|
        invariant row == PageMaps(Views(), homed, i)[..|row|]
      {
        var raw := RawPages(i, homed[|row|]);
        row := row + [X.Applied(raw, perms[|row|])];
      }
    }

    method ExchangeMaps(homed: seq<seq<R.Stale>>) returns (maps: seq<seq<seq<nat>>>)
      requires Valid() && |homed| == |managers|
      ensures maps == AllPageMaps(Views(), homed)
    {
      var perms := Permutations(homed);
      maps := [];
      while |maps| < |managers|
        invariant |maps| <= |managers|
        invariant maps == AllPageMaps(Views(), homed)[..|maps|]
      {
        var row := ExchangeRow(|maps|, homed, perms);
        maps := maps + [row];
      }
    }

    /** `free_blocks_into_fusion_except_batched` on manager `i`. */
    method ConvertAt(i: nat, requests: seq<R.Stale>)
      requires Valid() && Sized() && i < |managers|
      requires forall j | 0 <= j < |requests| :: requests[j].home == i
      modifies managers[i]
      ensures Valid() && Sized()
      ensures Views() == old(Views())[i := R.ConvertOn(old(Views())[i], |managers|, requests, i)]
    {
      var j := 0;
      ghost var start := managers[i].View();
      while j < |requests|
        invariant 0 <= j <= |requests| && managers[i].Valid()
        invariant managers[i].fusionSize > 0 && managers[i].numBase > 0
        invariant R.ConvertOn(start, |managers|, requests[..j], i) == managers[i].View()
      {
        assert requests[..j + 1][..j] == requests[..j];
        var done := managers[i].FreeBlocksIntoFusionExcept(requests[j].id, |managers|, i);
        j := j + 1;
      }
      assert requests[..j] == requests;
    }

    /** `_reshard_blocks_batched`: the page maps of the exchange, and the conversion that follows it. */
    method ReshardBatched(requests: seq<R.Stale>) returns (maps: seq<seq<seq<nat>>>)
      requires Valid() && Sized() && HomesBelow(requests, |managers|)
      modifies managers
      ensures Valid() && Sized()
      ensures Views() == R.ExchangeAll(old(Views()), requests)
      ensures maps ==
        if |managers| <= 1 || requests == [] then [] else AllPageMaps(old(Views()), Homes(requests, |managers|))
    {
      var homed := ByHome(requests, |managers|);
      maps := [];
      if |managers| > 1 && requests != [] {
        maps := ExchangeMaps(homed);
      }
      ConvertEverywhere(requests, homed);
    }

    method ConvertEverywhere(requests: seq<R.Stale>, homed: seq<seq<R.Stale>>)
      requires Valid() && Sized() && homed == Homes(requests, |managers|)
      modifies managers
      ensures Valid() && Sized()
      ensures Views() == R.ExchangeAll(old(Views()), requests)
    {
      ghost var start, goal := Views(), R.ExchangeAll(Views(), requests);
      var i := 0;
      while i < |managers|
        invariant 0 <= i <= |managers| && Valid() && Sized()
        invariant forall j | 0 <= j < |managers| :: Views()[j] == if j < i then goal[j] else start[j]
      {
        HomedConvert(start[i], |managers|, requests, i);
        ConvertAt(i, homed[i]);
        i := i + 1;
      }
      assert Views() == goal;
    }

    /** `reshard_blocks`: batch by batch, until none is left or nobody more can be placed. */
    method ReshardBlocks(requests: seq<R.Stale>) returns (left: seq<R.Stale>)
      requires Valid() && Sized() && HomesBelow(requests, |managers|)
      modifies managers
      ensures Valid() && Sized()
      ensures (Views(), left) == R.ReshardLoop(old(Views()), requests, exchangeBatchSize)
    {
      ghost var goal := R.ReshardLoop(Views(), requests, exchangeBatchSize);
      left := requests;
      while left != []
        invariant Valid() && Sized()
        invariant HomesBelow(left, |managers|)
        invariant goal == R.ReshardLoop(Views(), left, exchangeBatchSize)
        decreases |left|
      {
        var n := |left|;
        if exchangeBatchSize > 0 && n > exchangeBatchSize {
          n := exchangeBatchSize;
        }
        ServedFromHead(Views(), left[..n], |managers|);
        var served, others := PrepareReshardBlocks(left[..n]);
        left := others + left[n..];
        if served != [] {
          var maps := ReshardBatched(served);
        } else {
          return;
        }
      }
    }
  }

  function Orders(mgrs: seq<State>, homed: seq<seq<R.Stale>>): (r: seq<seq<nat>>)
    requires |homed| == |mgrs|
    ensures |r| == |mgrs|
  {
    seq(|mgrs|, j requires 0 <= j < |mgrs| => X.Permutation(X.Flatten(X.PagesOf(mgrs[j], IdsOf(homed[j])))))
  }

  lemma IdsOfStep(requests: seq<R.Stale>, j: nat)
    requires j < |requests|
    ensures IdsOf(requests[..j + 1]) == IdsOf(requests[..j]) + [requests[j].id]
  {
  }

  lemma PagesStep(s: State, ids: seq<RequestId>, r: RequestId)
    ensures X.Flatten(X.PagesOf(s, ids + [r])) ==
      X.Flatten(X.PagesOf(s, ids)) + (if r in s.table then s.table[r].pages else [])
  {
    var p := X.PagesOf(s, ids + [r]);
    assert (ids + [r])[..|ids|] == ids;
    assert p[..|ids|] == X.PagesOf(s, ids);
  }

  /** Requests of other homes change nothing here. */
  lemma {:induction false} HomedConvert(s: State, k: nat, requests: seq<R.Stale>, i: nat)
    ensures R.ConvertOn(s, k, HomedAt(requests, i), i) == R.ConvertOn(s, k, requests, i)
  {
    if requests != [] {
      var front, last := requests[..|requests| - 1], requests[|requests| - 1];
      HomedConvert(s, k, front, i);
      if last.home == i {
        assert (HomedAt(front, i) + [last])[..|HomedAt(front, i)|] == HomedAt(front, i);
      } else {
        assert HomedAt(requests, i) == HomedAt(front, i);
      }
    }
  }

  ghost predicate HomesBelow(requests: seq<R.Stale>, k: nat) {
    forall j | 0 <= j < |requests| :: requests[j].home < k
  }

  lemma {:induction false} ServedFromHead(mgrs: seq<State>, head: seq<R.Stale>, k: nat)
    requires HomesBelow(head, k)
    ensures var p := R.PrepareAll(mgrs, head); HomesBelow(p.1, k) && HomesBelow(p.2, k)
  {
    if head != [] {
      ServedFromHead(mgrs, head[..|head| - 1], k);
    }
  }

  lemma PrepareStep(start: seq<State>, all: seq<R.Stale>, j: nat)
    requires j < |all|
    ensures var p := R.PrepareAll(start, all[..j]);
      var q := G.PreparePeers(p.0, all[j].id, all[j].home, all[j].need);
      R.PrepareAll(start, all[..j + 1]) == if q.1 then (q.0, p.1 + [all[j]], p.2) else (q.0, p.1, p.2 + [all[j]])
  {
    assert all[..j + 1][..j] == all[..j];
  }

  /** A fused request can be freed here without an exception halfway. */
  ghost predicate FreeableAt(s: State, r: RequestId) {
    s.fusionSize > 0 && s.numBase > 0 && (r in s.table ==> Free(s, r, true, false).Some?)
  }

  lemma FreePeerMode(s: State, r: RequestId)
    ensures var t := G.FreeOr(s, r, false, true);
      t.isFusion == s.isFusion && t.fusionSize == s.fusionSize && t.numBase == s.numBase
  {
    if s.isFusion && s.fusionSize > 0 && s.numBase > 0 && r in s.table {
      ReturnCellsMode(s.(table := s.table - {r}), s.table[r].pages);
    }
  }

  lemma {:induction false} ReturnCellsMode(s: State, pages: seq<nat>)
    ensures var t := ReturnCells(s, pages);
      t.isFusion == s.isFusion && t.fusionSize == s.fusionSize && t.numBase == s.numBase
  {
    if pages != [] {
      ReturnCellsMode(s, pages[..|pages| - 1]);
    }
  }
}

/** The batch of an engine as a list of request objects, each updated in place. */
module RequestBatch {
  import opened Counting
  import opened Pools
  import opened Requests
  import opened RequestObject
  import opened Prefill
  import I = Iteration

  class BatchedRequests {
    var requests: seq<Request>

    ghost predicate Valid()
      reads this
    {
      AllDifferent(requests)
    }

    ghost function Views(): (r: seq<Req>)
      reads this, requests
      ensures |r| == |requests| && forall i | 0 <= i < |r| :: r[i] == requests[i].View()
    {
      ViewsOf(requests)
    }

    constructor ()
      ensures Valid() && requests == []
    {
      requests := [];
    }

    /** `add_request`; `false` stands for the failed assertion. */
    method AddRequest(r: Request) returns (ok: bool)
      requires Valid()
      modifies this
      ensures Valid() && (ok <==> forall i | 0 <= i < |old(requests)| :: old(requests)[i].requestId != r.requestId)
      ensures requests == if ok then old(requests) + [r] else old(requests)
    {
      var i := 0;
      while i < |requests|
        invariant 0 <= i <= |requests| && forall j | 0 <= j < i :: requests[j].requestId != r.requestId
      {
        if requests[i].requestId == r.requestId {
          return false;
        }
        i := i + 1;
      }
      requests := requests + [r];
      ok := true;
    }

    /** `pop_finished_requests`: the finished requests come out in order, the others stay in order. */
    method PopFinishedRequests() returns (finished: seq<Request>)
      requires Valid()
      modifies this
      ensures Valid() && finished == old(Those(requests, true)) && requests == old(Those(requests, false))
    {
      ThoseDifferent(requests);
      var rest;
      finished, rest := SplitFinished();
      requests := rest;
    }

    method SplitFinished() returns (finished: seq<Request>, rest: seq<Request>)
      ensures finished == Those(requests, true) && rest == Those(requests, false)
    {
      finished, rest := [], [];
      var i := 0;
      while i < |requests|
        invariant 0 <= i <= |requests|
        invariant finished == Those(requests[..i], true) && rest == Those(requests[..i], false)
      {
        assert requests[..i + 1][..i] == requests[..i];
        if requests[i].isFinished {
          finished := finished + [requests[i]];
        } else {
          rest := rest + [requests[i]];
        }
        i := i + 1;
      }
      assert requests[..i] == requests;
    }

    /** `get_num_input_tokens` of the whole batch. */
    method GetNumInputTokens() returns (count: nat)
      ensures count == TokenCount(Views())
    {
      ghost var views := Views();
      count := 0;
      var i := 0;
      while i < |requests|
        invariant 0 <= i <= |requests| && count == TokenCount(views[..i])
      {
        assert views[..i + 1][..i] == views[..i];
        var q := requests[i];
        InputCountIsLength(q.View());
        count := count + |q.GetInputTokensIds()|;
        i := i + 1;
      }
      assert views[..i] == views;
    }

    /** The loop of `schedule_prefill` over the batch: the next chunks, and what is left of the budget. */
    method NextChunks(free: int) returns (left: int)
      requires Valid()
      modifies requests
      ensures requests == old(requests) && (Views(), left) == Prefill.NextChunks(old(Views()), free)
    {
      ghost var was := Views();
      left := free;
      var i := 0;
      while i < |requests|
        invariant 0 <= i <= |requests| == |was| && requests == old(requests)
        invariant left == Prefill.NextChunks(was[..i], free).1
        invariant forall a | 0 <= a < |requests| ::
          requests[a].View() == if a < i then Prefill.NextChunks(was[..i], free).0[a] else was[a]
      {
        NextChunksStep(was, i, free);
        if requests[i].HasFollowUp() {
          left := requests[i].AllocateNextChunk(left);
        }
        i := i + 1;
      }
      assert was[..i] == was;
      assert Views() == Prefill.NextChunks(was, free).0;
    }

    /** `finish_one_iteration`: tokens in the order of the batch; `false` for the exception, which no request
        within its limit raises. */
    method FinishOneIteration(tokens: seq<Token>) returns (ok: bool)
      requires Valid()
      modifies requests
      ensures requests == old(requests)
      ensures (forall i | 0 <= i < |requests| :: !Overrun(old(Views())[i])) ==>
        ok && Views() == I.Iterated(old(Views()), Given(tokens))
      ensures !ok ==> exists i | 0 <= i < |requests| :: Overrun(old(Views())[i])
    {
      ghost var was := Views();
      var i := 0;
      ok := true;
      while i < |requests| && i < |tokens|
        invariant 0 <= i <= |requests| == |was| && i <= |tokens| && requests == old(requests) && ok
        invariant forall a | 0 <= a < |requests| ::
          requests[a].View() == if a < i then FinishIteration(was[a], tokens[a]) else was[a]
      {
        if !requests[i].HasFollowUp() {
          ok := requests[i].AddGeneratedToken(tokens[i]);
          if !ok {
            return;
          }
        }
        i := i + 1;
      }
      assert Views() == I.Iterated(was, Given(tokens));
    }
  }

  /** The requests that are finished, or those that are not. */
  ghost function Those(reqs: seq<Request>, finished: bool): (r: seq<Request>)
    reads reqs
    ensures |r| <= |reqs| && forall q | q in r :: q in reqs && q.isFinished == finished
  {
    if reqs == [] then []
    else
      var last := reqs[|reqs| - 1];
      Those(reqs[..|reqs| - 1], finished) + if last.isFinished == finished then [last] else []
  }

  ghost function ViewsOf(reqs: seq<Request>): (r: seq<Req>)
    reads reqs
    ensures |r| == |reqs| && forall i | 0 <= i < |r| :: r[i] == reqs[i].View()
  {
    seq(|reqs|, i requires 0 <= i < |reqs| reads reqs => reqs[i].View())
  }

  ghost predicate AllDifferent(reqs: seq<Request>) {
    forall i, j | 0 <= i < j < |reqs| :: reqs[i].requestId != reqs[j].requestId
  }

  lemma {:induction false} ThoseDifferent(reqs: seq<Request>)
    requires AllDifferent(reqs)
    ensures AllDifferent(Those(reqs, false))
  {
    if reqs != [] {
      var n := |reqs| - 1;
      ThoseDifferent(reqs[..n]);
      var front := Those(reqs[..n], false);
      forall i | 0 <= i < |front| ensures front[i].requestId != reqs[n].requestId {
        assert front[i] in front;
        var a :| 0 <= a < n && reqs[..n][a] == front[i];
        assert reqs[a].requestId != reqs[n].requestId;
      }
      assert Those(reqs, false) == front + if reqs[n].isFinished then [] else [reqs[n]];
    }
  }

  /** Those who stay are the batch the iteration goes on with. */
  lemma {:induction false} ThosePop(mgrs: seq<State>, reqs: seq<Request>)
    ensures ViewsOf(Those(reqs, false)) == I.PopFinished(mgrs, ViewsOf(reqs)).1
  {
    if reqs != [] {
      var n := |reqs| - 1;
      ThosePop(mgrs, reqs[..n]);
      assert ViewsOf(reqs)[..n] == ViewsOf(reqs[..n]);
      var front := Those(reqs[..n], false);
      assert ViewsOf(front + [reqs[n]]) == ViewsOf(front) + [reqs[n].View()];
      assert front + [] == front;
    }
  }

  function Given(tokens: seq<Token>): (r: seq<Option<Token>>)
    ensures |r| == |tokens| && forall i | 0 <= i < |r| :: r[i] == Some(tokens[i])
  {
    seq(|tokens|, i requires 0 <= i < |tokens| => Some(tokens[i]))
  }
}

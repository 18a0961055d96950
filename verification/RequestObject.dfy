/** The request as the object it is, each method proved against the update of `Req` it performs. */
module RequestObject {
  import opened Paging
  import opened Requests
  import opened RequestLife
  import R = Requests

  class Request {
    const requestId: RequestId
    const arrivalTime: int
    const sampling: Sampling
    var promptTokenIds: seq<nat>
    var generatedTokens: seq<Token>
    var outputs: seq<Token>
    var maxTokens: int
    var isFinished: bool
    var prefillBegin: int
    var prefillEnd: int
    var chunkSize: int
    var fusionExec: bool
    var kvFusionRank: nat
    /** `is_migrating_out or is_resharding`. */
    var isMoving: bool

    ghost function View(): Req
      reads this
    {
      Req(requestId, arrivalTime, sampling, promptTokenIds, generatedTokens, outputs, maxTokens, isFinished,
          prefillBegin, prefillEnd, chunkSize, fusionExec, kvFusionRank, isMoving)
    }

    constructor (id: RequestId, arrival: int, sampling: Sampling, prompt: seq<nat>, maxTokens: int)
      ensures View() == Req(id, arrival, sampling, prompt, [], [], maxTokens, false, 0, |prompt|, 0, false, 0, false)
    {
      requestId, arrivalTime, this.sampling := id, arrival, sampling;
      promptTokenIds, generatedTokens, outputs, this.maxTokens := prompt, [], [], maxTokens;
      isFinished, prefillBegin, prefillEnd, chunkSize := false, 0, |prompt|, 0;
      fusionExec, kvFusionRank, isMoving := false, 0, false;
    }

    /** `get_num_tokens`. */
    function GetNumTokens(): (n: nat)
      reads this
      ensures n == NumTokens(View())
    {
      if |generatedTokens| == 0 then |promptTokenIds| else |promptTokenIds| + |generatedTokens|
    }

    /** `get_input_tokens_ids`. */
    function GetInputTokensIds(): (ids: seq<nat>)
      reads this
      ensures ids == InputTokens(View())
    {
      if |generatedTokens| == 0 then Slice(promptTokenIds, prefillBegin, prefillEnd)
      else [generatedTokens[|generatedTokens| - 1].id]
    }

    /** `have_follow_up_chunk`. */
    predicate HasFollowUp()
      reads this
      ensures HasFollowUp() <==> HaveFollowUp(View())
    {
      |generatedTokens| == 0 && prefillEnd < |promptTokenIds|
    }

    /** `set_chunk` for a positive size: the chunk starts where it did, and what it cannot use is left. */
    method SetChunk(size: nat) returns (left: int)
      modifies this`chunkSize, this`prefillEnd
      ensures (View(), left) == R.SetChunk(old(View()), size)
      ensures left + prefillEnd - prefillBegin == size && prefillEnd <= |promptTokenIds|
      ensures prefillBegin <= |promptTokenIds| ==> left >= 0 && (HaveFollowUp(View()) ==> left == 0)
    {
      chunkSize := size;
      prefillEnd := Min(|promptTokenIds|, prefillBegin + size);
      left := size - (prefillEnd - prefillBegin);
    }

    /** The next chunk starts where the last one ended; what it cannot use of its size is left. */
    method AllocateNextChunk(extra: int) returns (left: int)
      modifies this`chunkSize, this`prefillBegin, this`prefillEnd
      ensures (View(), left) == R.AllocateNextChunk(old(View()), extra)
      ensures prefillBegin == old(prefillEnd) && prefillEnd <= |promptTokenIds|
      ensures left + prefillEnd - prefillBegin == old(chunkSize) + extra
      ensures HaveFollowUp(View()) ==> left == 0
    {
      chunkSize := chunkSize + extra;
      prefillBegin := prefillEnd;
      prefillEnd := Min(prefillBegin + chunkSize, |promptTokenIds|);
      left := chunkSize - (prefillEnd - prefillBegin);
    }

    /** All there is becomes prompt again: no token is lost, and none is asked for twice. */
    method PrepareForRecompute()
      modifies this
      ensures View() == R.PrepareForRecompute(old(View()))
      ensures History(View()) == old(History(View())) && GetNumTokens() == old(GetNumTokens())
      ensures maxTokens - |generatedTokens| == old(maxTokens - |generatedTokens|)
      ensures InContext(View()) && Slice(promptTokenIds, prefillBegin, prefillEnd) == promptTokenIds
      ensures fusionExec && kvFusionRank == 0
    {
      promptTokenIds := promptTokenIds + Ids(generatedTokens);
      maxTokens := maxTokens - |generatedTokens|;
      generatedTokens := [];
      prefillBegin := 0;
      prefillEnd := |promptTokenIds|;
      fusionExec := true;
      kvFusionRank := 0;
    }

    /** `false` stands for the exception. */
    method AddGeneratedToken(t: Token) returns (ok: bool)
      modifies this`generatedTokens, this`outputs, this`isFinished
      ensures ok <==> !Overrun(old(View()))
      ensures View() == if ok then AddGenerated(old(View()), t) else old(View())
      ensures ok ==> History(View()) == old(History(View())) + [t.id]
    {
      if |generatedTokens| > maxTokens {
        return false;
      }
      generatedTokens := generatedTokens + [t];
      outputs := outputs + [t];
      if |generatedTokens| >= maxTokens {
        isFinished := true;
      }
      if !sampling.ignoreEos {
        if |generatedTokens| != 0 && generatedTokens[|generatedTokens| - 1].text in sampling.stop {
          isFinished := true;
        }
      }
      HistoryGrows(old(View()), t);
      ok := true;
    }
  }

  lemma HistoryGrows(q: Req, t: Token)
    ensures History(AddGenerated(q, t)) == History(q) + [t.id]
  {
    IdsConcat(q.generated, [t]);
    assert Ids([t]) == [t.id] by { assert [t][..0] == []; }
    assert q.prompt + (Ids(q.generated) + [t.id]) == History(q) + [t.id];
  }
}

/** Chunked prompt evaluation: the prompt goes to `llama_eval` in batches of at most 32 tokens. */
module Prompt {
  import opened Base

  /** `n_batch`. */
  const BatchSize: nat := 32

  /** One `llama_eval(ctx, batch, |batch|, pos, n_threads)` call. */
  datatype EvalCall = EvalCall(batch: seq<Token>, pos: int)

  /** Whether `llama_eval` returns 0 (success) for a batch evaluated at a position. */
  type Evaluator = (seq<Token>, int) -> bool

  /** The calls the prompt loop makes from offset `i` on, when none of them fails. */
  function Chunks(inp: seq<Token>, i: nat): seq<EvalCall>
    decreases |inp| - i
  {
    if i >= |inp| then []
    else [EvalCall(inp[i..i + Min(BatchSize, |inp| - i)], i)] + Chunks(inp, i + BatchSize)
  }

  /** One step of the chunking: the batch at `i`, then the chunks after it. */
  lemma ChunksStep(inp: seq<Token>, i: nat)
    requires i < |inp|
    ensures Chunks(inp, i) == [EvalCall(inp[i..i + Min(BatchSize, |inp| - i)], i)] + Chunks(inp, i + BatchSize)
  {
  }

  /** A prefix of the chunks that ends in a failing call shows that the prompt fails. */
  lemma FailingChunk(eval: Evaluator, inp: seq<Token>, calls: seq<EvalCall>)
    requires calls != [] && calls <= Chunks(inp, 0)
    requires !eval(calls[|calls| - 1].batch, calls[|calls| - 1].pos)
    ensures !PromptSucceeds(eval, inp)
  {
    var cs := Chunks(inp, 0);
    assert cs[|calls| - 1] == calls[|calls| - 1];
  }

  /** The tokens a list of calls hands to the engine, in order. */
  function Flatten(calls: seq<EvalCall>): seq<Token> {
    if calls == [] then [] else calls[0].batch + Flatten(calls[1..])
  }

  /** Each call starts where the previous one ended, the first one at `start`. */
  predicate Contiguous(calls: seq<EvalCall>, start: int) {
    calls == [] || (calls[0].pos == start && Contiguous(calls[1..], start + |calls[0].batch|))
  }

  /** The prompt evaluates without error when every chunk call succeeds. */
  predicate PromptSucceeds(eval: Evaluator, inp: seq<Token>) {
    var cs := Chunks(inp, 0);
    forall k :: 0 <= k < |cs| ==> eval(cs[k].batch, cs[k].pos)
  }

  /** The chunks hand the engine exactly the prompt, in order, without gaps or overlap. */
  lemma {:induction false} ChunksCover(inp: seq<Token>, i: nat)
    requires i <= |inp|
    decreases |inp| - i
    ensures Flatten(Chunks(inp, i)) == inp[i..]
    ensures Contiguous(Chunks(inp, i), i)
  {
    if i < |inp| {
      var n := Min(BatchSize, |inp| - i);
      var cs := Chunks(inp, i);
      assert cs[1..] == Chunks(inp, i + BatchSize);
      if i + BatchSize <= |inp| {
        ChunksCover(inp, i + BatchSize);
      } else {
        assert Chunks(inp, i + BatchSize) == [];
      }
      assert inp[i..] == inp[i..i + n] + inp[i + n..];
    }
  }

  /** Chunk `k` starts at `i + 32 * k` and holds `min(32, |inp| - pos)` tokens; there are ceil((|inp| - i) / 32) chunks. */
  lemma {:induction false} ChunksShape(inp: seq<Token>, i: nat)
    requires i <= |inp|
    decreases |inp| - i
    ensures |Chunks(inp, i)| == (|inp| - i + BatchSize - 1) / BatchSize
    ensures forall k :: 0 <= k < |Chunks(inp, i)| ==>
              Chunks(inp, i)[k].pos == i + BatchSize * k &&
              Chunks(inp, i)[k].batch == inp[i + BatchSize * k..i + BatchSize * k + Min(BatchSize, |inp| - (i + BatchSize * k))]
  {
    if i < |inp| {
      var cs := Chunks(inp, i);
      if i + BatchSize <= |inp| {
        ChunksShape(inp, i + BatchSize);
        var rest := Chunks(inp, i + BatchSize);
        assert cs == [cs[0]] + rest;
        forall k | 0 <= k < |cs|
          ensures cs[k].pos == i + BatchSize * k
          ensures cs[k].batch == inp[i + BatchSize * k..i + BatchSize * k + Min(BatchSize, |inp| - (i + BatchSize * k))]
        {
          if k > 0 {
            assert cs[k] == rest[k - 1];
          }
        }
      } else {
        assert Chunks(inp, i + BatchSize) == [];
      }
    }
  }

  /**
   * The prompt loop: chunk by chunk, `llama_eval` at position `n_past`, then
   * `n_past += n_eval`; the first failing call ends the loop with an error.
   */
  method EvalPrompt(eval: Evaluator, inp: seq<Token>) returns (ok: bool, nPast: int, calls: seq<EvalCall>)
    ensures ok == PromptSucceeds(eval, inp)
    ensures calls <= Chunks(inp, 0)
    ensures ok ==> calls == Chunks(inp, 0) && nPast == |inp|
    ensures !ok ==> calls != [] && !eval(calls[|calls| - 1].batch, calls[|calls| - 1].pos)
    ensures forall k :: 0 <= k < |calls| - 1 ==> eval(calls[k].batch, calls[k].pos)
  {
    nPast, calls := 0, [];
    var i: nat := 0;
    while i < |inp|
      invariant Chunks(inp, 0) == calls + Chunks(inp, i)
      invariant nPast == Min(i, |inp|)
      invariant forall k :: 0 <= k < |calls| ==> eval(calls[k].batch, calls[k].pos)
      decreases |inp| - i
    {
      var nEval := Min(BatchSize, |inp| - i);
      var call := EvalCall(inp[i..i + nEval], nPast);
      ChunksStep(inp, i);
      calls := calls + [call];
      assert Chunks(inp, 0) == calls + Chunks(inp, i + BatchSize);
      if !eval(call.batch, call.pos) {
        FailingChunk(eval, inp, calls);
        return false, nPast, calls;
      }
      nPast := nPast + nEval;
      i := i + BatchSize;
    }
    ok := true;
    assert calls == Chunks(inp, 0);
  }
}

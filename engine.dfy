/**
 * What the two generation loops share: the engine and host behaviour they consult
 * (as parameters, since llama.cpp and the JVM are outside the model), the loop
 * state, the ways a loop can end, and what it means for a token to be accepted.
 */
module Engine {
  import opened Base
  import opened Stops
  import opened Detok
  import opened Window
  import Prompt

  /** The inference engine as the loops see it. */
  datatype Engine = Engine(
    evalOk: Prompt.Evaluator,                 // llama_eval(ctx, batch, |batch|, pos, n_threads) == 0
    sample: (seq<Token>, seq<Token>) -> Token, // sample_next_token, given the tokens evaluated so far and last_tokens
    piece: Token -> Bytes,                     // token_to_piece
    eos: Token)                                // llama_token_eos(model)

  /** What the caller's side does, iteration by iteration. */
  datatype Host = Host(
    cancelAt: nat -> bool,  // g_cancel.load() at iteration i is true (nativeCancel ran on another thread)
    throwsAt: nat -> bool,  // onToken threw at iteration i
    stopAt: nat -> bool)    // shouldStop() returned true at iteration i

  /** The inputs of one generation call, once the prompt is tokenised. */
  datatype Call = Call(prompt: seq<Token>, maxTokens: int, stops: seq<Bytes>, lastN: int)

  /** The loop variables: accepted tokens, `out`/`assembled`, `n_past`, `last_tokens`. */
  datatype Loop = Loop(acc: seq<Token>, out: Bytes, nPast: int, window: seq<Token>)

  /** Why a loop ended without an error. */
  datatype Exit =
    | Eos                        // sampled the end-of-sequence token
    | StopHit(tok: Token, stop: nat) // the piece of `tok` completed stops[stop]
    | Cancelled                  // the cancel flag was seen after a successful eval
    | MaxTokens                  // maxTokens iterations ran
    | CallbackThrew(tok: Token)  // onToken threw (streaming only)
    | HostStopped(tok: Token)    // shouldStop() returned true (streaming only)

  datatype Run = Run(loop: Loop, exit: Exit)

  /** The state right after the prompt is evaluated: nothing generated, window = prompt. */
  function Start(c: Call): Loop {
    Loop([], [], |c.prompt|, c.prompt)
  }

  /** The token the sampler returns after `acc` has been accepted. */
  function Next(e: Engine, c: Call, acc: seq<Token>): Token {
    e.sample(c.prompt + acc, Windowed(c.prompt, acc, c.lastN))
  }

  /**
   * `tok` gets through one whole iteration after `prefix`: it is the sampled token,
   * not EOS, its piece completes no stop string, its eval at position
   * |prompt| + |prefix| succeeds and, when streaming, the host neither threw nor
   * asked to stop.
   */
  predicate Proceeds(e: Engine, h: Host, c: Call, streaming: bool, prefix: seq<Token>, tok: Token) {
    tok == Next(e, c, prefix) && tok != e.eos &&
    MatchStop(c.stops, Pieces(e.piece, prefix) + e.piece(tok)).None? &&
    e.evalOk([tok], |c.prompt| + |prefix|) &&
    (streaming ==> !h.throwsAt(|prefix|) && !h.stopAt(|prefix|))
  }

  /** Every token of `acc` got through its iteration, and none but the last saw the cancel flag. */
  ghost predicate Accepted(e: Engine, h: Host, c: Call, streaming: bool, acc: seq<Token>) {
    forall j :: 0 <= j < |acc| ==>
      Proceeds(e, h, c, streaming, acc[..j], acc[j]) && (j + 1 < |acc| ==> !h.cancelAt(j))
  }

  /** After accepting `acc`, the loop goes on to sample once more. */
  ghost predicate Reaches(e: Engine, h: Host, c: Call, streaming: bool, acc: seq<Token>) {
    Accepted(e, h, c, streaming, acc) && |acc| < c.maxTokens &&
    (|acc| > 0 ==> !h.cancelAt(|acc| - 1))
  }

  /** The loop variables agree with the accepted tokens. */
  predicate Consistent(e: Engine, c: Call, st: Loop) {
    st.nPast == |c.prompt| + |st.acc| &&
    st.out == Pieces(e.piece, st.acc) &&
    st.window == Windowed(c.prompt, st.acc, c.lastN)
  }

  /** The state after accepting `tok`. */
  function Accept(e: Engine, c: Call, st: Loop, tok: Token): (r: Loop)
    requires Consistent(e, c, st)
    ensures Consistent(e, c, r) && r.acc == st.acc + [tok]
  {
    var acc := st.acc + [tok];
    assert acc[..|acc| - 1] == st.acc;
    Loop(acc, st.out + e.piece(tok), st.nPast + 1, Push(st.window, tok, c.lastN))
  }

  lemma AcceptedStart(e: Engine, h: Host, c: Call, streaming: bool)
    ensures Accepted(e, h, c, streaming, [])
    ensures Consistent(e, c, Start(c))
  {
  }

  /** Accepting one more token keeps `Accepted`. */
  lemma AcceptedSnoc(e: Engine, h: Host, c: Call, streaming: bool, acc: seq<Token>, tok: Token)
    requires Accepted(e, h, c, streaming, acc)
    requires |acc| > 0 ==> !h.cancelAt(|acc| - 1)
    requires Proceeds(e, h, c, streaming, acc, tok)
    ensures Accepted(e, h, c, streaming, acc + [tok])
  {
    var acc' := acc + [tok];
    forall j | 0 <= j < |acc'|
      ensures Proceeds(e, h, c, streaming, acc'[..j], acc'[j]) && (j + 1 < |acc'| ==> !h.cancelAt(j))
    {
      if j < |acc| {
        assert acc'[..j] == acc[..j];
        assert acc'[j] == acc[j];
      } else {
        assert acc'[..j] == acc;
      }
    }
  }
}

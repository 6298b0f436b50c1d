/** The one-shot generation loop of `nativeGenerate`, as a function of the engine and host behaviour. */
module OneShot {
  import opened Base
  import opened Stops
  import opened Detok
  import opened Window
  import opened Prompt
  import opened Engine
  import opened Reserve

  /**
   * Iteration `i` onward, from loop state `st`: sample; stop on EOS; append the
   * piece; trim and stop on a stop string; eval the token (an error on failure);
   * push it onto the window; stop if the cancel flag is set.
   */
  function From(e: Engine, h: Host, c: Call, i: nat, st: Loop): Result<Run>
    decreases c.maxTokens - i
  {
    if i >= c.maxTokens then Ok(Run(st, MaxTokens))
    else
      var tok := e.sample(c.prompt + st.acc, st.window);
      if tok == e.eos then Ok(Run(st, Eos))
      else
        var grown := st.out + e.piece(tok);
        match MatchStop(c.stops, grown)
        case Some(k) => Ok(Run(st.(out := Trimmed(c.stops, grown)), StopHit(tok, k)))
        case None =>
          if !e.evalOk([tok], st.nPast) then Err(EvalFailed(tok))
          else
            var next := Loop(st.acc + [tok], grown, st.nPast + 1, Push(st.window, tok, c.lastN));
            if h.cancelAt(i) then Ok(Run(next, Cancelled)) else From(e, h, c, i + 1, next)
  }

  /**
   * `nativeGenerate` after `ensure_ctx`: tokenise, evaluate the prompt, reserve
   * the output buffer (an uncaught throw there aborts the process), run the loop.
   */
  function Generation(e: Engine, h: Host, tokenized: Option<seq<Token>>, maxTokens: Int32,
                      stops: seq<Bytes>, nCtx: int): Result<Run>
  {
    match tokenized
    case None => Err(TokenizeFailed)
    case Some(inp) =>
      if !PromptSucceeds(e.evalOk, inp) then Err(PromptEvalFailed)
      else if ReserveThrows(RequestAsWritten(maxTokens)) then Err(ReserveThrew)
      else
        var c := Call(inp, maxTokens as int, stops, LastN(nCtx));
        From(e, h, c, 0, Start(c))
  }

  /**
   * What a finished one-shot run means: every token in it was accepted, at most
   * maxTokens of them, `n_past` and the window follow them, and the exit states
   * why the loop ended and what text it returns.
   */
  ghost predicate Describes(e: Engine, h: Host, c: Call, run: Run) {
    var acc := run.loop.acc;
    Accepted(e, h, c, false, acc) &&
    |acc| <= Max(0, c.maxTokens) &&
    run.loop.nPast == |c.prompt| + |acc| &&
    run.loop.window == Windowed(c.prompt, acc, c.lastN) &&
    match run.exit
    case MaxTokens =>
      |acc| == Max(0, c.maxTokens) && (|acc| > 0 ==> !h.cancelAt(|acc| - 1)) &&
      run.loop.out == Pieces(e.piece, acc)
    case Cancelled =>
      |acc| > 0 && h.cancelAt(|acc| - 1) && run.loop.out == Pieces(e.piece, acc)
    case Eos =>
      Reaches(e, h, c, false, acc) && Next(e, c, acc) == e.eos && run.loop.out == Pieces(e.piece, acc)
    case StopHit(tok, k) =>
      Reaches(e, h, c, false, acc) && tok == Next(e, c, acc) && tok != e.eos &&
      MatchStop(c.stops, Pieces(e.piece, acc) + e.piece(tok)) == Some(k) &&
      run.loop.out + c.stops[k] == Pieces(e.piece, acc) + e.piece(tok)
    case _ => false
  }

  /** The loop got to sample `tok` after accepting `acc`, and evaluating `tok` failed. */
  ghost predicate FailsAfter(e: Engine, h: Host, c: Call, acc: seq<Token>, tok: Token) {
    Reaches(e, h, c, false, acc) && tok == Next(e, c, acc) && tok != e.eos &&
    MatchStop(c.stops, Pieces(e.piece, acc) + e.piece(tok)).None? &&
    !e.evalOk([tok], |c.prompt| + |acc|)
  }

  /** A result of `From` started with `acc0` accepted is described, or is an eval failure after some accepted prefix. */
  ghost predicate Sound(e: Engine, h: Host, c: Call, acc0: seq<Token>, r: Result<Run>) {
    match r
    case Ok(run) => Describes(e, h, c, run) && acc0 <= run.loop.acc
    case Err(err) => err.EvalFailed? && exists acc :: FailsAfter(e, h, c, acc, err.tok)
  }

  /** The loop state at the start of iteration `i`, as the proofs below need it. */
  ghost predicate AtIteration(e: Engine, h: Host, c: Call, i: nat, st: Loop) {
    i == |st.acc| && Consistent(e, c, st) && Accepted(e, h, c, false, st.acc) &&
    (i > 0 ==> !h.cancelAt(i - 1) && i <= c.maxTokens)
  }

  lemma SoundMaxTokens(e: Engine, h: Host, c: Call, i: nat, st: Loop)
    requires AtIteration(e, h, c, i, st) && i >= c.maxTokens
    ensures Sound(e, h, c, st.acc, From(e, h, c, i, st))
  {
    assert From(e, h, c, i, st) == Ok(Run(st, MaxTokens));
  }

  lemma SoundEos(e: Engine, h: Host, c: Call, i: nat, st: Loop)
    requires AtIteration(e, h, c, i, st) && i < c.maxTokens
    requires e.sample(c.prompt + st.acc, st.window) == e.eos
    ensures Sound(e, h, c, st.acc, From(e, h, c, i, st))
  {
    assert From(e, h, c, i, st) == Ok(Run(st, Eos));
    assert Next(e, c, st.acc) == e.eos;
  }

  /** The value of `From` at an iteration whose piece completes a stop string. */
  lemma FromStopHit(e: Engine, h: Host, c: Call, i: nat, st: Loop, tok: Token, k: nat)
    requires i < c.maxTokens && tok == e.sample(c.prompt + st.acc, st.window) && tok != e.eos
    requires MatchStop(c.stops, st.out + e.piece(tok)) == Some(k)
    ensures From(e, h, c, i, st) == Ok(Run(st.(out := Trimmed(c.stops, st.out + e.piece(tok))), StopHit(tok, k)))
  {
  }

  /** A stop hit after `acc` with the trimmed text `out` is a described run. */
  lemma DescribesStopHit(e: Engine, h: Host, c: Call, st: Loop, tok: Token, k: nat)
    requires Consistent(e, c, st) && Reaches(e, h, c, false, st.acc)
    requires tok == Next(e, c, st.acc) && tok != e.eos
    requires MatchStop(c.stops, st.out + e.piece(tok)) == Some(k)
    ensures Describes(e, h, c, Run(st.(out := Trimmed(c.stops, st.out + e.piece(tok))), StopHit(tok, k)))
  {
  }

  lemma SoundStopHit(e: Engine, h: Host, c: Call, i: nat, st: Loop)
    requires AtIteration(e, h, c, i, st) && i < c.maxTokens
    requires e.sample(c.prompt + st.acc, st.window) != e.eos
    requires MatchStop(c.stops, st.out + e.piece(e.sample(c.prompt + st.acc, st.window))).Some?
    ensures Sound(e, h, c, st.acc, From(e, h, c, i, st))
  {
    var tok := e.sample(c.prompt + st.acc, st.window);
    var grown := st.out + e.piece(tok);
    var k := MatchStop(c.stops, grown).value;
    FromStopHit(e, h, c, i, st, tok, k);
    DescribesStopHit(e, h, c, st, tok, k);
  }

  lemma SoundEvalFailed(e: Engine, h: Host, c: Call, i: nat, st: Loop)
    requires AtIteration(e, h, c, i, st) && i < c.maxTokens
    requires e.sample(c.prompt + st.acc, st.window) != e.eos
    requires MatchStop(c.stops, st.out + e.piece(e.sample(c.prompt + st.acc, st.window))).None?
    requires !e.evalOk([e.sample(c.prompt + st.acc, st.window)], st.nPast)
    ensures Sound(e, h, c, st.acc, From(e, h, c, i, st))
  {
    var tok := e.sample(c.prompt + st.acc, st.window);
    assert From(e, h, c, i, st) == Err(EvalFailed(tok));
    assert FailsAfter(e, h, c, st.acc, tok);
  }

  /** The iteration accepts its token: the state `From` continues with. */
  lemma Accepts(e: Engine, h: Host, c: Call, i: nat, st: Loop)
    requires AtIteration(e, h, c, i, st) && i < c.maxTokens
    requires e.sample(c.prompt + st.acc, st.window) != e.eos
    requires MatchStop(c.stops, st.out + e.piece(e.sample(c.prompt + st.acc, st.window))).None?
    requires e.evalOk([e.sample(c.prompt + st.acc, st.window)], st.nPast)
    ensures var tok := e.sample(c.prompt + st.acc, st.window);
            var next := Accept(e, c, st, tok);
            Loop(st.acc + [tok], st.out + e.piece(tok), st.nPast + 1, Push(st.window, tok, c.lastN)) == next &&
            Proceeds(e, h, c, false, st.acc, tok) &&
            Accepted(e, h, c, false, next.acc) && Consistent(e, c, next)
  {
    var tok := e.sample(c.prompt + st.acc, st.window);
    assert tok == Next(e, c, st.acc);
    AcceptedSnoc(e, h, c, false, st.acc, tok);
  }

  lemma SoundCancelled(e: Engine, h: Host, c: Call, i: nat, st: Loop)
    requires AtIteration(e, h, c, i, st) && i < c.maxTokens
    requires e.sample(c.prompt + st.acc, st.window) != e.eos
    requires MatchStop(c.stops, st.out + e.piece(e.sample(c.prompt + st.acc, st.window))).None?
    requires e.evalOk([e.sample(c.prompt + st.acc, st.window)], st.nPast)
    requires h.cancelAt(i)
    ensures Sound(e, h, c, st.acc, From(e, h, c, i, st))
  {
    var tok := e.sample(c.prompt + st.acc, st.window);
    Accepts(e, h, c, i, st);
    var next := Accept(e, c, st, tok);
    assert From(e, h, c, i, st) == Ok(Run(next, Cancelled));
  }

  lemma {:induction false} FromDescribed(e: Engine, h: Host, c: Call, i: nat, st: Loop)
    requires AtIteration(e, h, c, i, st)
    decreases c.maxTokens - i
    ensures Sound(e, h, c, st.acc, From(e, h, c, i, st))
  {
    if i >= c.maxTokens {
      SoundMaxTokens(e, h, c, i, st);
      return;
    }
    var tok := e.sample(c.prompt + st.acc, st.window);
    if tok == e.eos {
      SoundEos(e, h, c, i, st);
    } else if MatchStop(c.stops, st.out + e.piece(tok)).Some? {
      SoundStopHit(e, h, c, i, st);
    } else if !e.evalOk([tok], st.nPast) {
      SoundEvalFailed(e, h, c, i, st);
    } else if h.cancelAt(i) {
      SoundCancelled(e, h, c, i, st);
    } else {
      Accepts(e, h, c, i, st);
      var next := Accept(e, c, st, tok);
      assert From(e, h, c, i, st) == From(e, h, c, i + 1, next);
      assert AtIteration(e, h, c, i + 1, next);
      FromDescribed(e, h, c, i + 1, next);
    }
  }

  /**
   * The whole one-shot call: a tokenise failure, a prompt failure and a throwing
   * reserve are failures of their own; a failure to eval a generated token is an
   * error that returns no text; every other run is described by `Describes`.
   */
  lemma GenerationDescribed(e: Engine, h: Host, tokenized: Option<seq<Token>>, maxTokens: Int32,
                            stops: seq<Bytes>, nCtx: int)
    ensures Generation(e, h, tokenized, maxTokens, stops, nCtx) == Err(TokenizeFailed) <==> tokenized.None?
    ensures Generation(e, h, tokenized, maxTokens, stops, nCtx) == Err(PromptEvalFailed) <==>
              tokenized.Some? && !PromptSucceeds(e.evalOk, tokenized.value)
    ensures Generation(e, h, tokenized, maxTokens, stops, nCtx) == Err(ReserveThrew) <==>
              tokenized.Some? && PromptSucceeds(e.evalOk, tokenized.value) && ReserveThrows(RequestAsWritten(maxTokens))
    ensures Generation(e, h, tokenized, maxTokens, stops, nCtx).Ok? ==>
              tokenized.Some? && PromptSucceeds(e.evalOk, tokenized.value) && !ReserveThrows(RequestAsWritten(maxTokens)) &&
              Describes(e, h, Call(tokenized.value, maxTokens as int, stops, LastN(nCtx)),
                        Generation(e, h, tokenized, maxTokens, stops, nCtx).value)
    ensures Generation(e, h, tokenized, maxTokens, stops, nCtx).Err? ==>
              var err := Generation(e, h, tokenized, maxTokens, stops, nCtx).error;
              err == TokenizeFailed || err == PromptEvalFailed || err == ReserveThrew ||
              (err.EvalFailed? && tokenized.Some? &&
               var c := Call(tokenized.value, maxTokens as int, stops, LastN(nCtx));
               exists acc :: FailsAfter(e, h, c, acc, err.tok))
  {
    if tokenized.Some? && PromptSucceeds(e.evalOk, tokenized.value) && !ReserveThrows(RequestAsWritten(maxTokens)) {
      var c := Call(tokenized.value, maxTokens as int, stops, LastN(nCtx));
      AcceptedStart(e, h, c, false);
      FromDescribed(e, h, c, 0, Start(c));
      assert Sound(e, h, c, [], Generation(e, h, tokenized, maxTokens, stops, nCtx));
    }
  }

  /**
   * `maxTokens <= 0` as written: the reserve throws exactly when `4 * maxTokens`
   * is negative, which every value from -2^29 to -1 makes it (below -2^29 the
   * product overflows and `Wrap32` assumes it wraps); otherwise
   * no iteration runs and the text is empty.
   */
  lemma NonPositiveMaxTokensEmpty(e: Engine, h: Host, inp: seq<Token>, maxTokens: Int32,
                                  stops: seq<Bytes>, nCtx: int)
    requires maxTokens <= 0 && PromptSucceeds(e.evalOk, inp)
    ensures Generation(e, h, Some(inp), maxTokens, stops, nCtx) ==
              if Wrap32(4 * maxTokens as int) < 0 then Err(ReserveThrew) else Ok(Run(Loop([], [], |inp|, inp), MaxTokens))
    ensures -0x2000_0000 <= maxTokens < 0 ==> Generation(e, h, Some(inp), maxTokens, stops, nCtx) == Err(ReserveThrew)
    ensures maxTokens == 0 ==> Generation(e, h, Some(inp), maxTokens, stops, nCtx) == Ok(Run(Loop([], [], |inp|, inp), MaxTokens))
  {
    if -0x2000_0000 <= maxTokens < 0 {
      NegativeMaxTokensThrows(maxTokens);
    }
  }

  /**
   * With the corrected request the reserve never throws for `maxTokens <= 0`, so
   * the call reaches the loop, which runs no iteration and returns the empty text.
   */
  lemma CorrectedNonPositiveMaxTokensEmpty(e: Engine, h: Host, inp: seq<Token>, maxTokens: Int32,
                                           stops: seq<Bytes>, nCtx: int)
    requires maxTokens <= 0
    ensures RequestFixed(maxTokens) == 0 && !ReserveThrows(RequestFixed(maxTokens))
    ensures var c := Call(inp, maxTokens as int, stops, LastN(nCtx));
            From(e, h, c, 0, Start(c)) == Ok(Run(Loop([], [], |inp|, inp), MaxTokens))
  {
  }

  /** No run accepts more than maxTokens tokens, and `n_past` ends one past each of them. */
  lemma AtMostMaxTokens(e: Engine, h: Host, inp: seq<Token>, maxTokens: Int32, stops: seq<Bytes>, nCtx: int)
    requires Generation(e, h, Some(inp), maxTokens, stops, nCtx).Ok?
    ensures |Generation(e, h, Some(inp), maxTokens, stops, nCtx).value.loop.acc| <= Max(0, maxTokens as int)
    ensures Generation(e, h, Some(inp), maxTokens, stops, nCtx).value.loop.nPast ==
              |inp| + |Generation(e, h, Some(inp), maxTokens, stops, nCtx).value.loop.acc|
  {
    GenerationDescribed(e, h, Some(inp), maxTokens, stops, nCtx);
  }

  /**
   * Cancel versus error: a cancel seen after the first token's eval returns that
   * token's piece, while an eval failure on the first token returns no text at all.
   */
  lemma CancelKeepsPieceEvalFailureDropsIt(e: Engine, h: Host, inp: seq<Token>, maxTokens: Int32,
                                           stops: seq<Bytes>, nCtx: int)
    requires maxTokens > 0 && PromptSucceeds(e.evalOk, inp)
    requires e.sample(inp, inp) != e.eos
    requires MatchStop(stops, e.piece(e.sample(inp, inp))).None?
    ensures var tok := e.sample(inp, inp);
            var r := Generation(e, h, Some(inp), maxTokens, stops, nCtx);
            (ReserveThrows(RequestAsWritten(maxTokens)) ==> r == Err(ReserveThrew)) &&
            (!ReserveThrows(RequestAsWritten(maxTokens)) ==>
               (e.evalOk([tok], |inp|) && h.cancelAt(0) ==> r.Ok? && r.value.exit == Cancelled && r.value.loop.out == e.piece(tok)) &&
               (!e.evalOk([tok], |inp|) ==> r == Err(EvalFailed(tok))))
  {
    assert inp + [] == inp;
    assert [] + e.piece(e.sample(inp, inp)) == e.piece(e.sample(inp, inp));
  }
}

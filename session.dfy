/**
 * The native session state (`g_model`, `g_ctx`, `g_n_threads`, `g_n_ctx`,
 * `g_cancel`) and the entry points that read and update it.
 */
module Lifecycle {
  import opened Base
  import opened Stops
  import opened Detok
  import opened Prompt
  import opened Window
  import opened Engine
  import opened Reserve
  import OneShot
  import Streaming

  /** An engine pointer (`llama_model*`, `llama_context*`), by identity only. */
  type Handle = nat

  /** An engine object the session may own, and later free. */
  datatype Resource = ModelRes(h: Handle) | ContextRes(h: Handle)

  /** `std::max(1, n)`: the thread count is at least one, and any valid request is kept. */
  function ClampThreads(n: int): (r: int)
    ensures r >= 1
    ensures n >= 1 ==> r == n
    ensures n < 1 ==> r == 1
  {
    Max(1, n)
  }

  class Session {
    var model: Option<Handle>   // g_model (None is nullptr)
    var ctx: Option<Handle>     // g_ctx
    var nThreads: int           // g_n_threads
    var nCtx: int               // g_n_ctx
    var cancel: bool            // g_cancel
    /** Every llama_free / llama_free_model call so far, in order. */
    ghost var released: seq<Resource>
    /** Every handle the engine has handed out so far. */
    ghost var obtained: seq<Resource>

    /** The handles currently held, in the order the code frees them: context, then model. */
    function Handles(): seq<Resource>
      reads this
    {
      (if ctx.Some? then [ContextRes(ctx.value)] else []) + (if model.Some? then [ModelRes(model.value)] else [])
    }

    /**
     * A context is only held together with its model, the thread count is at
     * least one, and nothing leaks: every handle obtained is released or still
     * held, and there are exactly as many of those as handles obtained (so,
     * for distinct handles, none is freed twice).
     */
    ghost predicate Valid()
      reads this
    {
      (ctx.Some? ==> model.Some?) && nThreads >= 1 &&
      |obtained| == |released| + |Handles()| &&
      (forall x :: x in obtained ==> x in released || x in Handles())
    }

    /** The static initialisers: null handles, 4 threads, a 4096-token context, no cancel. */
    constructor ()
      ensures Valid()
      ensures model.None? && ctx.None? && nThreads == 4 && nCtx == 4096 && !cancel
      ensures released == [] && obtained == []
    {
      model, ctx, nThreads, nCtx, cancel := None, None, 4, 4096, false;
      released, obtained := [], [];
    }

    /**
     * `nativeLoadModel`: free what is held, then load the model and create its
     * context; `loaded` and `created` are what llama.cpp returns for them. A
     * context failure frees the new model, so both handles end null.
     */
    method Load(nCtxArg: int, nThreadsArg: int, loaded: Option<Handle>, created: Option<Handle>)
        returns (r: Result<()>)
      requires Valid()
      modifies this
      ensures Valid()
      ensures loaded.None? ==> r == Err(ModelLoadFailed) && released == old(released) + old(Handles())
      ensures loaded.Some? && created.None? ==>
                r == Err(ContextCreateFailed) &&
                released == old(released) + old(Handles()) + [ModelRes(loaded.value)]
      ensures r.Err? ==>
                model.None? && ctx.None? && nThreads == old(nThreads) && nCtx == old(nCtx) && cancel == old(cancel)
      ensures loaded.Some? && created.Some? ==>
                r == Ok(()) && model == loaded && ctx == created &&
                released == old(released) + old(Handles()) &&
                nThreads == ClampThreads(nThreadsArg) && nCtx == nCtxArg && !cancel
      ensures loaded.None? ==> obtained == old(obtained)
      ensures loaded.Some? && created.None? ==> obtained == old(obtained) + [ModelRes(loaded.value)]
      ensures loaded.Some? && created.Some? ==>
                obtained == old(obtained) + [ModelRes(loaded.value), ContextRes(created.value)]
    {
      ReleaseHeld();
      r := Open(nCtxArg, nThreadsArg, loaded, created);
    }

    /** The second half of `nativeLoadModel`, once nothing is held. */
    method Open(nCtxArg: int, nThreadsArg: int, loaded: Option<Handle>, created: Option<Handle>)
        returns (r: Result<()>)
      requires Valid() && model.None? && ctx.None?
      modifies this
      ensures Valid()
      ensures loaded.None? ==> r == Err(ModelLoadFailed) && released == old(released)
      ensures loaded.Some? && created.None? ==>
                r == Err(ContextCreateFailed) && released == old(released) + [ModelRes(loaded.value)]
      ensures r.Err? ==>
                model.None? && ctx.None? && nThreads == old(nThreads) && nCtx == old(nCtx) && cancel == old(cancel)
      ensures loaded.Some? && created.Some? ==>
                r == Ok(()) && model == loaded && ctx == created && released == old(released) &&
                nThreads == ClampThreads(nThreadsArg) && nCtx == nCtxArg && !cancel
      ensures loaded.None? ==> obtained == old(obtained)
      ensures loaded.Some? && created.None? ==> obtained == old(obtained) + [ModelRes(loaded.value)]
      ensures loaded.Some? && created.Some? ==>
                obtained == old(obtained) + [ModelRes(loaded.value), ContextRes(created.value)]
    {
      assert Handles() == [];
      if loaded.None? {
        return Err(ModelLoadFailed);
      }
      model := loaded;
      obtained := obtained + [ModelRes(loaded.value)];
      assert Handles() == [ModelRes(loaded.value)];
      if created.None? {
        ghost var before := released;
        ReleaseHeld();
        assert released == before + [ModelRes(loaded.value)];
        return Err(ContextCreateFailed);
      }
      ctx := created;
      obtained := obtained + [ContextRes(created.value)];
      assert Handles() == [ContextRes(created.value), ModelRes(loaded.value)];
      nThreads := ClampThreads(nThreadsArg);
      nCtx := nCtxArg;
      cancel := false;
      return Ok(());
    }

    /** `nativeFreeModel`: free the context, then the model, whichever is held; clear cancel. */
    method Free()
      requires Valid()
      modifies this
      ensures Valid()
      ensures model.None? && ctx.None? && !cancel
      ensures released == old(released) + old(Handles())
      ensures nThreads == old(nThreads) && nCtx == old(nCtx) && obtained == old(obtained)
    {
      ReleaseHeld();
      cancel := false;
    }

    /** The two guarded frees every teardown path runs: the context first, then the model. */
    method ReleaseHeld()
      requires Valid()
      modifies this`ctx, this`model, this`released
      ensures Valid()
      ensures model.None? && ctx.None?
      ensures released == old(released) + old(Handles())
    {
      released := released + Handles();
      ctx := None;
      model := None;
      assert Handles() == [];
    }

    /** `nativeReset`: an error without a context; otherwise the engine's cache is cleared and cancel too. */
    method Reset() returns (r: Result<()>)
      requires Valid()
      modifies this`cancel
      ensures Valid()
      ensures ctx.None? ==> r == Err(NoContext) && cancel == old(cancel)
      ensures ctx.Some? ==> r == Ok(()) && !cancel
    {
      if ctx.None? {
        return Err(NoContext);
      }
      cancel := false;
      assert Valid();
      return Ok(());
    }

    /** `nativeSetThreads`. */
    method SetThreads(n: int)
      requires Valid()
      modifies this`nThreads
      ensures Valid() && nThreads == ClampThreads(n)
    {
      nThreads := ClampThreads(n);
    }

    /** `nativeCancel`. */
    method Cancel()
      requires Valid()
      modifies this`cancel
      ensures Valid() && cancel
    {
      cancel := true;
    }

    /** `nativeDetokenize`: an error without a model, else the pieces of the tokens in order. */
    method Detokenize(piece: Token -> Bytes, toks: seq<Token>) returns (r: Result<Bytes>)
      ensures model.None? ==> r == Err(NoModel)
      ensures model.Some? ==> r == Ok(Pieces(piece, toks))
    {
      if model.None? {
        return Err(NoModel);
      }
      var text := Detok.Detok(piece, toks);
      return Ok(text);
    }

    /**
     * `nativeGenerate`: `tokenized` is what llama_tokenize produced (None for a
     * negative count). The loop reads the cancel flag once per iteration;
     * `h.cancelAt(i)` says whether another thread's nativeCancel is seen then.
     */
    method Generate(e: Engine, h: Host, tokenized: Option<seq<Token>>, maxTokens: Int32, stops: seq<Bytes>)
        returns (r: Result<Run>)
      requires Valid()
      modifies this`cancel
      ensures Valid()
      ensures ctx.None? ==> r == Err(NoContext) && cancel == old(cancel)
      ensures ctx.Some? ==> r == OneShot.Generation(e, h, tokenized, maxTokens, stops, nCtx)
      ensures ctx.Some? && (r == Err(TokenizeFailed) || r == Err(PromptEvalFailed) || r == Err(ReserveThrew)) ==>
                cancel == old(cancel)
      ensures ctx.Some? && r.Ok? ==> cancel == (r.value.exit == Cancelled)
      ensures ctx.Some? && r.Err? && r.error.EvalFailed? ==> !cancel
    {
      if ctx.None? {
        return Err(NoContext);
      }
      if tokenized.None? {
        return Err(TokenizeFailed);
      }
      var inp := tokenized.value;
      var ok, nPast, _ := EvalPrompt(e.evalOk, inp);
      if !ok {
        return Err(PromptEvalFailed);
      }
      var request := RequestAsWritten(maxTokens);
      if ReserveThrows(request) {
        return Err(ReserveThrew);
      }
      var c := Call(inp, maxTokens as int, stops, LastN(nCtx));
      r := OneShotLoop(e, h, c, Loop([], [], nPast, inp));
    }

    /** The token loop of `nativeGenerate`, from the evaluated prompt on. */
    method OneShotLoop(e: Engine, h: Host, c: Call, start: Loop) returns (r: Result<Run>)
      requires start == Start(c)
      modifies this`cancel
      ensures r == OneShot.From(e, h, c, 0, Start(c))
      ensures r.Ok? ==> cancel == (r.value.exit == Cancelled)
      ensures r.Err? ==> r.error.EvalFailed? && !cancel
    {
      var st := start;
      cancel := false;
      ghost var whole := OneShot.From(e, h, c, 0, st);
      var i: nat := 0;
      while i < c.maxTokens
        invariant OneShot.From(e, h, c, i, st) == whole
        invariant !cancel
        decreases c.maxTokens - i
      {
        var done, next := OneShotIteration(e, h, c, i, st);
        if done.Some? {
          return done.value;
        }
        st := next;
        if h.cancelAt(i) {
          cancel := true;
        }
        if cancel {
          return Ok(Run(st, Cancelled));
        }
        i := i + 1;
      }
      return Ok(Run(st, MaxTokens));
    }

    /**
     * `nativeGenerateStreaming`: `resolved` says whether the TokenCallback methods
     * were found when the library loaded, `present` whether the callback is
     * non-null; `h.throwsAt(i)` and `h.stopAt(i)` are what onToken and shouldStop
     * do at iteration i.
     */
    method GenerateStreaming(e: Engine, h: Host, resolved: bool, present: bool, tokenized: Option<seq<Token>>,
                             maxTokens: Int32, stops: seq<Bytes>)
        returns (s: Streaming.Stream)
      requires Valid()
      modifies this`cancel
      ensures Valid()
      ensures ctx.None? ==> s == Streaming.Stream(Err(NoContext), []) && cancel == old(cancel)
      ensures ctx.Some? ==> s == Streaming.Generation(e, h, resolved, present, tokenized, maxTokens, stops, nCtx)
      ensures ctx.Some? && s.status.Ok? ==> cancel == (s.status.value.exit == Cancelled)
      ensures ctx.Some? && s.status.Err? && s.status.error.EvalFailed? ==> !cancel
      ensures ctx.Some? && s.status.Err? && !s.status.error.EvalFailed? ==> cancel == old(cancel)
    {
      if ctx.None? {
        return Streaming.Stream(Err(NoContext), []);
      }
      if !resolved {
        return Streaming.Stream(Err(CallbackUnresolved), []);
      }
      if !present {
        return Streaming.Stream(Err(CallbackNull), []);
      }
      var events: seq<Streaming.HostEvent> := [Streaming.Acquire];
      if tokenized.None? {
        return Streaming.Stream(Err(TokenizeFailed), events + [Streaming.Release]);
      }
      var inp := tokenized.value;
      var ok, nPast, _ := EvalPrompt(e.evalOk, inp);
      if !ok {
        return Streaming.Stream(Err(PromptEvalFailed), events + [Streaming.Release]);
      }
      var request := RequestAsWritten(maxTokens);
      if ReserveThrows(request) {
        return Streaming.Stream(Err(ReserveThrew), events);
      }
      var c := Call(inp, maxTokens as int, stops, LastN(nCtx));
      var rest := StreamingLoop(e, h, c, Loop([], [], nPast, inp));
      return Streaming.Stream(rest.status, rest.events + [Streaming.Release]);
    }

    /**
     * The token loop of `nativeGenerateStreaming`, from the evaluated prompt on:
     * the events it adds after the acquire, and how it ends.
     */
    method StreamingLoop(e: Engine, h: Host, c: Call, start: Loop) returns (rest: Streaming.Stream)
      requires start == Start(c)
      modifies this`cancel
      ensures rest == Streaming.From(e, h, c, 0, Start(c), [Streaming.Acquire])
      ensures rest.status.Ok? ==> cancel == (rest.status.value.exit == Cancelled)
      ensures rest.status.Err? ==> rest.status.error.EvalFailed? && !cancel
    {
      var st := start;
      var events: seq<Streaming.HostEvent> := [Streaming.Acquire];
      cancel := false;
      ghost var whole := Streaming.From(e, h, c, 0, st, events);
      var i: nat := 0;
      while i < c.maxTokens
        invariant Streaming.From(e, h, c, i, st, events) == whole
        invariant !cancel
        decreases c.maxTokens - i
      {
        var done, next, more := StreamingIteration(e, h, c, i, st, events);
        if done.Some? {
          return done.value;
        }
        st, events := next, more;
        if h.cancelAt(i) {
          cancel := true;
        }
        if cancel {
          return Streaming.Stream(Ok(Run(st, Cancelled)), events);
        }
        i := i + 1;
      }
      return Streaming.Stream(Ok(Run(st, MaxTokens)), events);
    }
  }

  /**
   * One pass of the `nativeGenerate` loop body up to the cancel check: sample,
   * stop on EOS, append the piece, trim and stop on a stop string, eval the
   * token, push it onto the window. `done` is the result when the pass ends
   * the loop; otherwise `next` is the state the cancel check sees.
   */
  method OneShotIteration(e: Engine, h: Host, c: Call, i: nat, st: Loop)
      returns (done: Option<Result<Run>>, next: Loop)
    requires i < c.maxTokens
    ensures done.Some? ==> done.value == OneShot.From(e, h, c, i, st)
    ensures done.Some? && done.value.Ok? ==> done.value.value.exit != Cancelled
    ensures done.Some? && done.value.Err? ==> done.value.error.EvalFailed?
    ensures done.None? ==>
              var tok := e.sample(c.prompt + st.acc, st.window);
              tok != e.eos && MatchStop(c.stops, st.out + e.piece(tok)).None? && e.evalOk([tok], st.nPast) &&
              next == Loop(st.acc + [tok], st.out + e.piece(tok), st.nPast + 1, Push(st.window, tok, c.lastN))
    ensures done.None? && h.cancelAt(i) ==> OneShot.From(e, h, c, i, st) == Ok(Run(next, Cancelled))
    ensures done.None? && !h.cancelAt(i) ==> OneShot.From(e, h, c, i, st) == OneShot.From(e, h, c, i + 1, next)
  {
    next := st;
    var tok := e.sample(c.prompt + st.acc, st.window);
    if tok == e.eos {
      return Some(Ok(Run(st, Eos))), next;
    }
    var out := st.out + e.piece(tok);
    var hit;
    out, hit := TrimStop(out, c.stops);
    if hit.Some? {
      assert out == Trimmed(c.stops, st.out + e.piece(tok));
      return Some(Ok(Run(st.(out := out), StopHit(tok, hit.value)))), next;
    }
    if !e.evalOk([tok], st.nPast) {
      return Some(Err(EvalFailed(tok))), next;
    }
    next := Loop(st.acc + [tok], out, st.nPast + 1, Push(st.window, tok, c.lastN));
    return None, next;
  }

  /**
   * One pass of the `nativeGenerateStreaming` loop body up to the cancel check:
   * as for the one-shot loop, with onToken after the trim (an exception ends the
   * loop), then shouldStop, and only then the stop hit. `more` are the events
   * the pass adds.
   */
  method StreamingIteration(e: Engine, h: Host, c: Call, i: nat, st: Loop, events: seq<Streaming.HostEvent>)
      returns (done: Option<Streaming.Stream>, next: Loop, more: seq<Streaming.HostEvent>)
    requires i < c.maxTokens
    ensures done.Some? ==> done.value == Streaming.From(e, h, c, i, st, events)
    ensures done.Some? && done.value.status.Ok? ==> done.value.status.value.exit != Cancelled
    ensures done.Some? && done.value.status.Err? ==> done.value.status.error.EvalFailed?
    ensures done.None? ==>
              var tok := e.sample(c.prompt + st.acc, st.window);
              tok != e.eos && !h.throwsAt(i) && !h.stopAt(i) &&
              MatchStop(c.stops, st.out + e.piece(tok)).None? && e.evalOk([tok], st.nPast) &&
              next == Loop(st.acc + [tok], st.out + e.piece(tok), st.nPast + 1, Push(st.window, tok, c.lastN)) &&
              more == events + [Streaming.OnToken(e.piece(tok), tok), Streaming.PollStop]
    ensures done.None? && h.cancelAt(i) ==>
              Streaming.From(e, h, c, i, st, events) == Streaming.Stream(Ok(Run(next, Cancelled)), more)
    ensures done.None? && !h.cancelAt(i) ==>
              Streaming.From(e, h, c, i, st, events) == Streaming.From(e, h, c, i + 1, next, more)
  {
    next, more := st, events;
    var tok := e.sample(c.prompt + st.acc, st.window);
    if tok == e.eos {
      return Some(Streaming.Stream(Ok(Run(st, Eos)), events)), next, more;
    }
    var piece := e.piece(tok);
    var assembled := st.out + piece;
    var hit;
    assembled, hit := TrimStop(assembled, c.stops);
    assert assembled == Trimmed(c.stops, st.out + piece);
    more := more + [Streaming.OnToken(piece, tok)];
    if h.throwsAt(i) {
      return Some(Streaming.Stream(Ok(Run(st.(out := assembled), CallbackThrew(tok))), more)), next, more;
    }
    more := more + [Streaming.PollStop];
    if h.stopAt(i) {
      return Some(Streaming.Stream(Ok(Run(st.(out := assembled), HostStopped(tok))), more)), next, more;
    }
    if hit.Some? {
      return Some(Streaming.Stream(Ok(Run(st.(out := assembled), StopHit(tok, hit.value))), more)), next, more;
    }
    if !e.evalOk([tok], st.nPast) {
      return Some(Streaming.Stream(Err(EvalFailed(tok)), more)), next, more;
    }
    Streaming.FromStep(e, h, c, i, st, events, tok);
    assert more == events + [Streaming.OnToken(piece, tok), Streaming.PollStop];
    next := Loop(st.acc + [tok], assembled, st.nPast + 1, Push(st.window, tok, c.lastN));
    return None, next, more;
  }

  /** Freeing twice releases what one free releases: the second call finds nothing to free. */
  method FreeTwice(s: Session)
    requires s.Valid()
    modifies s
    ensures s.Valid() && s.model.None? && s.ctx.None?
    ensures s.released == old(s.released) + old(s.Handles())
  {
    s.Free();
    s.Free();
  }

  /** A failed load leaves nothing held, so a later free releases nothing more. */
  method FailedLoadThenFree(s: Session, nCtxArg: int, nThreadsArg: int, loaded: Option<Handle>, created: Option<Handle>)
    requires s.Valid()
    requires loaded.None? || created.None?
    modifies s
    ensures s.Valid() && s.model.None? && s.ctx.None?
    ensures s.released == old(s.released) + old(s.Handles()) + (if loaded.Some? then [ModelRes(loaded.value)] else [])
  {
    var r := s.Load(nCtxArg, nThreadsArg, loaded, created);
    s.Free();
  }
}

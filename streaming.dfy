/**
 * The streaming loop of `nativeGenerateStreaming`, as a function of the engine
 * and host behaviour. What the host observes is the sequence of events on its
 * callback object; the assembled text is only used for stop matching.
 */
module Streaming {
  import opened Base
  import opened Stops
  import opened Detok
  import opened Window
  import opened Prompt
  import opened Engine
  import opened Reserve

  /** What happens to the host's callback object, in order. */
  datatype HostEvent =
    | Acquire                          // NewGlobalRef(jcallback)
    | OnToken(piece: Bytes, tok: Token) // onToken(piece, tok)
    | PollStop                         // shouldStop()
    | Release                          // DeleteGlobalRef(cb)

  datatype Stream = Stream(status: Result<Run>, events: seq<HostEvent>)

  /**
   * Iteration `i` onward: sample; stop on EOS; append the piece to `assembled`
   * and trim a stop string off it; hand the raw piece to onToken; stop if it
   * threw, if shouldStop() holds, or on a stop hit; eval the token (an error on
   * failure); push it onto the window; stop if the cancel flag is set.
   */
  function From(e: Engine, h: Host, c: Call, i: nat, st: Loop, ev: seq<HostEvent>): Stream
    decreases c.maxTokens - i
  {
    if i >= c.maxTokens then Stream(Ok(Run(st, MaxTokens)), ev)
    else
      var tok := e.sample(c.prompt + st.acc, st.window);
      if tok == e.eos then Stream(Ok(Run(st, Eos)), ev)
      else
        var grown := st.out + e.piece(tok);
        var assembled := Trimmed(c.stops, grown);
        var ev1 := ev + [OnToken(e.piece(tok), tok)];
        if h.throwsAt(i) then Stream(Ok(Run(st.(out := assembled), CallbackThrew(tok))), ev1)
        else
          var ev2 := ev1 + [PollStop];
          if h.stopAt(i) then Stream(Ok(Run(st.(out := assembled), HostStopped(tok))), ev2)
          else if MatchStop(c.stops, grown).Some? then
            Stream(Ok(Run(st.(out := assembled), StopHit(tok, MatchStop(c.stops, grown).value))), ev2)
          else if !e.evalOk([tok], st.nPast) then Stream(Err(EvalFailed(tok)), ev2)
          else
            var next := Loop(st.acc + [tok], grown, st.nPast + 1, Push(st.window, tok, c.lastN));
            if h.cancelAt(i) then Stream(Ok(Run(next, Cancelled)), ev2) else From(e, h, c, i + 1, next, ev2)
  }

  /** One iteration of `From` that samples a token other than EOS, exit by exit. */
  lemma FromStep(e: Engine, h: Host, c: Call, i: nat, st: Loop, ev: seq<HostEvent>, tok: Token)
    requires i < c.maxTokens && tok == e.sample(c.prompt + st.acc, st.window) && tok != e.eos
    ensures var grown := st.out + e.piece(tok);
            var ev1 := ev + [OnToken(e.piece(tok), tok)];
            var ev2 := ev1 + [PollStop];
            var here := From(e, h, c, i, st, ev);
            (h.throwsAt(i) ==> here == Stream(Ok(Run(st.(out := Trimmed(c.stops, grown)), CallbackThrew(tok))), ev1)) &&
            (!h.throwsAt(i) && h.stopAt(i) ==>
               here == Stream(Ok(Run(st.(out := Trimmed(c.stops, grown)), HostStopped(tok))), ev2)) &&
            (!h.throwsAt(i) && !h.stopAt(i) && MatchStop(c.stops, grown).Some? ==>
               here == Stream(Ok(Run(st.(out := Trimmed(c.stops, grown)), StopHit(tok, MatchStop(c.stops, grown).value))), ev2)) &&
            (!h.throwsAt(i) && !h.stopAt(i) && MatchStop(c.stops, grown).None? ==>
               var next := Loop(st.acc + [tok], grown, st.nPast + 1, Push(st.window, tok, c.lastN));
               (!e.evalOk([tok], st.nPast) ==> here == Stream(Err(EvalFailed(tok)), ev2)) &&
               (e.evalOk([tok], st.nPast) && h.cancelAt(i) ==> here == Stream(Ok(Run(next, Cancelled)), ev2)) &&
               (e.evalOk([tok], st.nPast) && !h.cancelAt(i) ==> here == From(e, h, c, i + 1, next, ev2)))
  {
  }

  /**
   * `nativeGenerateStreaming` after `ensure_ctx`: the callback checks, then the
   * global reference, tokenising, the prompt, the reserve, the loop, and the
   * release. A throwing reserve is not caught, so the process aborts via
   * `std::terminate` and the release never happens on that path.
   */
  function Generation(e: Engine, h: Host, resolved: bool, present: bool, tokenized: Option<seq<Token>>,
                      maxTokens: Int32, stops: seq<Bytes>, nCtx: int): Stream
  {
    if !resolved then Stream(Err(CallbackUnresolved), [])
    else if !present then Stream(Err(CallbackNull), [])
    else
      match tokenized
      case None => Stream(Err(TokenizeFailed), [Acquire, Release])
      case Some(inp) =>
        if !PromptSucceeds(e.evalOk, inp) then Stream(Err(PromptEvalFailed), [Acquire, Release])
        else if ReserveThrows(RequestAsWritten(maxTokens)) then Stream(Err(ReserveThrew), [Acquire])
        else
          var c := Call(inp, maxTokens as int, stops, LastN(nCtx));
          var s := From(e, h, c, 0, Start(c), [Acquire]);
          Stream(s.status, s.events + [Release])
  }

  /** The events of the accepted tokens: each one's raw piece, then a shouldStop poll. */
  function Callbacks(e: Engine, acc: seq<Token>): seq<HostEvent>
    decreases |acc|
  {
    if acc == [] then []
    else Callbacks(e, acc[..|acc| - 1]) + [OnToken(e.piece(acc[|acc| - 1]), acc[|acc| - 1]), PollStop]
  }

  /** The events of the iteration that ended the loop without accepting its token. */
  function ExitEvents(e: Engine, exit: Exit): seq<HostEvent> {
    match exit
    case CallbackThrew(tok) => [OnToken(e.piece(tok), tok)]
    case HostStopped(tok) => [OnToken(e.piece(tok), tok), PollStop]
    case StopHit(tok, _) => [OnToken(e.piece(tok), tok), PollStop]
    case _ => []
  }

  /**
   * What a finished streaming run means: as for the one-shot loop, with the host's
   * two extra exits, and with the events (before the release) being the acquire,
   * one onToken and poll per accepted token and those of the exiting iteration.
   */
  ghost predicate Describes(e: Engine, h: Host, c: Call, run: Run, events: seq<HostEvent>) {
    var acc := run.loop.acc;
    var grown := Pieces(e.piece, acc) + (if run.exit.CallbackThrew? || run.exit.HostStopped? || run.exit.StopHit?
                                          then e.piece(run.exit.tok) else []);
    Accepted(e, h, c, true, acc) &&
    |acc| <= Max(0, c.maxTokens) &&
    run.loop.nPast == |c.prompt| + |acc| &&
    run.loop.window == Windowed(c.prompt, acc, c.lastN) &&
    events == [Acquire] + Callbacks(e, acc) + ExitEvents(e, run.exit) &&
    match run.exit
    case MaxTokens =>
      |acc| == Max(0, c.maxTokens) && (|acc| > 0 ==> !h.cancelAt(|acc| - 1)) && run.loop.out == grown
    case Cancelled =>
      |acc| > 0 && h.cancelAt(|acc| - 1) && run.loop.out == grown
    case Eos =>
      Reaches(e, h, c, true, acc) && Next(e, c, acc) == e.eos && run.loop.out == grown
    case CallbackThrew(tok) =>
      Reaches(e, h, c, true, acc) && tok == Next(e, c, acc) && tok != e.eos &&
      h.throwsAt(|acc|) && run.loop.out == Trimmed(c.stops, grown)
    case HostStopped(tok) =>
      Reaches(e, h, c, true, acc) && tok == Next(e, c, acc) && tok != e.eos &&
      !h.throwsAt(|acc|) && h.stopAt(|acc|) && run.loop.out == Trimmed(c.stops, grown)
    case StopHit(tok, k) =>
      Reaches(e, h, c, true, acc) && tok == Next(e, c, acc) && tok != e.eos &&
      !h.throwsAt(|acc|) && !h.stopAt(|acc|) &&
      MatchStop(c.stops, grown) == Some(k) && run.loop.out + c.stops[k] == grown
  }

  /** The loop sampled `tok` after `acc`, the host took its piece, and evaluating `tok` failed. */
  ghost predicate FailsAfter(e: Engine, h: Host, c: Call, acc: seq<Token>, tok: Token, events: seq<HostEvent>) {
    Reaches(e, h, c, true, acc) && tok == Next(e, c, acc) && tok != e.eos &&
    !h.throwsAt(|acc|) && !h.stopAt(|acc|) &&
    MatchStop(c.stops, Pieces(e.piece, acc) + e.piece(tok)).None? &&
    !e.evalOk([tok], |c.prompt| + |acc|) &&
    events == [Acquire] + Callbacks(e, acc) + [OnToken(e.piece(tok), tok), PollStop]
  }

  ghost predicate Sound(e: Engine, h: Host, c: Call, acc0: seq<Token>, s: Stream) {
    match s.status
    case Ok(run) => Describes(e, h, c, run, s.events) && acc0 <= run.loop.acc
    case Err(err) => err.EvalFailed? && exists acc :: FailsAfter(e, h, c, acc, err.tok, s.events)
  }

  ghost predicate AtIteration(e: Engine, h: Host, c: Call, i: nat, st: Loop, ev: seq<HostEvent>) {
    i == |st.acc| && Consistent(e, c, st) && Accepted(e, h, c, true, st.acc) &&
    (i > 0 ==> !h.cancelAt(i - 1) && i <= c.maxTokens) &&
    ev == [Acquire] + Callbacks(e, st.acc)
  }

  lemma SoundBeforeSampling(e: Engine, h: Host, c: Call, i: nat, st: Loop, ev: seq<HostEvent>)
    requires AtIteration(e, h, c, i, st, ev)
    requires i >= c.maxTokens || e.sample(c.prompt + st.acc, st.window) == e.eos
    ensures Sound(e, h, c, st.acc, From(e, h, c, i, st, ev))
  {
    assert ev == [Acquire] + Callbacks(e, st.acc) + [];
    if i >= c.maxTokens {
      assert From(e, h, c, i, st, ev) == Stream(Ok(Run(st, MaxTokens)), ev);
    } else {
      assert From(e, h, c, i, st, ev) == Stream(Ok(Run(st, Eos)), ev);
      assert Next(e, c, st.acc) == e.eos;
    }
  }

  /** The accepted tokens' events, one token longer. */
  lemma CallbacksSnoc(e: Engine, acc: seq<Token>, tok: Token)
    ensures Callbacks(e, acc + [tok]) == Callbacks(e, acc) + [OnToken(e.piece(tok), tok), PollStop]
  {
    assert (acc + [tok])[..|acc|] == acc;
  }

  /** A run that ends in the host's hands (onToken threw, shouldStop, or a stop hit) after `st`. */
  lemma DescribesHostExit(e: Engine, h: Host, c: Call, i: nat, st: Loop, ev: seq<HostEvent>, exit: Exit)
    requires AtIteration(e, h, c, i, st, ev) && i < c.maxTokens
    requires exit.CallbackThrew? || exit.HostStopped? || exit.StopHit?
    requires exit.tok == Next(e, c, st.acc) && exit.tok != e.eos
    requires exit.CallbackThrew? ==> h.throwsAt(i)
    requires exit.HostStopped? ==> !h.throwsAt(i) && h.stopAt(i)
    requires exit.StopHit? ==>
               !h.throwsAt(i) && !h.stopAt(i) && MatchStop(c.stops, st.out + e.piece(exit.tok)) == Some(exit.stop)
    ensures Describes(e, h, c, Run(st.(out := Trimmed(c.stops, st.out + e.piece(exit.tok))), exit),
                      ev + ExitEvents(e, exit))
  {
    assert Reaches(e, h, c, true, st.acc);
  }

  lemma SoundThrew(e: Engine, h: Host, c: Call, i: nat, st: Loop, ev: seq<HostEvent>)
    requires AtIteration(e, h, c, i, st, ev) && i < c.maxTokens
    requires e.sample(c.prompt + st.acc, st.window) != e.eos
    requires h.throwsAt(i)
    ensures Sound(e, h, c, st.acc, From(e, h, c, i, st, ev))
  {
    var tok := e.sample(c.prompt + st.acc, st.window);
    assert From(e, h, c, i, st, ev) ==
           Stream(Ok(Run(st.(out := Trimmed(c.stops, st.out + e.piece(tok))), CallbackThrew(tok))),
                  ev + ExitEvents(e, CallbackThrew(tok)));
    DescribesHostExit(e, h, c, i, st, ev, CallbackThrew(tok));
  }

  lemma SoundHostStopped(e: Engine, h: Host, c: Call, i: nat, st: Loop, ev: seq<HostEvent>)
    requires AtIteration(e, h, c, i, st, ev) && i < c.maxTokens
    requires e.sample(c.prompt + st.acc, st.window) != e.eos
    requires !h.throwsAt(i) && h.stopAt(i)
    ensures Sound(e, h, c, st.acc, From(e, h, c, i, st, ev))
  {
    var tok := e.sample(c.prompt + st.acc, st.window);
    assert ev + [OnToken(e.piece(tok), tok)] + [PollStop] == ev + ExitEvents(e, HostStopped(tok));
    assert From(e, h, c, i, st, ev) ==
           Stream(Ok(Run(st.(out := Trimmed(c.stops, st.out + e.piece(tok))), HostStopped(tok))),
                  ev + ExitEvents(e, HostStopped(tok)));
    DescribesHostExit(e, h, c, i, st, ev, HostStopped(tok));
  }

  lemma SoundStopHit(e: Engine, h: Host, c: Call, i: nat, st: Loop, ev: seq<HostEvent>)
    requires AtIteration(e, h, c, i, st, ev) && i < c.maxTokens
    requires e.sample(c.prompt + st.acc, st.window) != e.eos
    requires !h.throwsAt(i) && !h.stopAt(i)
    requires MatchStop(c.stops, st.out + e.piece(e.sample(c.prompt + st.acc, st.window))).Some?
    ensures Sound(e, h, c, st.acc, From(e, h, c, i, st, ev))
  {
    var tok := e.sample(c.prompt + st.acc, st.window);
    var k := MatchStop(c.stops, st.out + e.piece(tok)).value;
    assert ev + [OnToken(e.piece(tok), tok)] + [PollStop] == ev + ExitEvents(e, StopHit(tok, k));
    assert From(e, h, c, i, st, ev) ==
           Stream(Ok(Run(st.(out := Trimmed(c.stops, st.out + e.piece(tok))), StopHit(tok, k))),
                  ev + ExitEvents(e, StopHit(tok, k)));
    DescribesHostExit(e, h, c, i, st, ev, StopHit(tok, k));
  }

  /** The iteration after `st` failed to evaluate its token. */
  lemma FailsAtIteration(e: Engine, h: Host, c: Call, i: nat, st: Loop, ev: seq<HostEvent>, tok: Token)
    requires AtIteration(e, h, c, i, st, ev) && i < c.maxTokens
    requires tok == e.sample(c.prompt + st.acc, st.window) && tok != e.eos
    requires !h.throwsAt(i) && !h.stopAt(i)
    requires MatchStop(c.stops, st.out + e.piece(tok)).None?
    requires !e.evalOk([tok], st.nPast)
    ensures FailsAfter(e, h, c, st.acc, tok, ev + [OnToken(e.piece(tok), tok), PollStop])
  {
    assert tok == Next(e, c, st.acc);
    assert Reaches(e, h, c, true, st.acc);
  }

  lemma SoundEvalFailed(e: Engine, h: Host, c: Call, i: nat, st: Loop, ev: seq<HostEvent>)
    requires AtIteration(e, h, c, i, st, ev) && i < c.maxTokens
    requires e.sample(c.prompt + st.acc, st.window) != e.eos
    requires !h.throwsAt(i) && !h.stopAt(i)
    requires MatchStop(c.stops, st.out + e.piece(e.sample(c.prompt + st.acc, st.window))).None?
    requires !e.evalOk([e.sample(c.prompt + st.acc, st.window)], st.nPast)
    ensures Sound(e, h, c, st.acc, From(e, h, c, i, st, ev))
  {
    var tok := e.sample(c.prompt + st.acc, st.window);
    var ev2 := ev + [OnToken(e.piece(tok), tok), PollStop];
    assert ev + [OnToken(e.piece(tok), tok)] + [PollStop] == ev2;
    assert From(e, h, c, i, st, ev) == Stream(Err(EvalFailed(tok)), ev2);
    FailsAtIteration(e, h, c, i, st, ev, tok);
  }

  /** The iteration accepts its token: the state and events `From` continues with. */
  lemma Accepts(e: Engine, h: Host, c: Call, i: nat, st: Loop, ev: seq<HostEvent>)
    requires AtIteration(e, h, c, i, st, ev) && i < c.maxTokens
    requires e.sample(c.prompt + st.acc, st.window) != e.eos
    requires !h.throwsAt(i) && !h.stopAt(i)
    requires MatchStop(c.stops, st.out + e.piece(e.sample(c.prompt + st.acc, st.window))).None?
    requires e.evalOk([e.sample(c.prompt + st.acc, st.window)], st.nPast)
    ensures var tok := e.sample(c.prompt + st.acc, st.window);
            var next := Accept(e, c, st, tok);
            Loop(st.acc + [tok], st.out + e.piece(tok), st.nPast + 1, Push(st.window, tok, c.lastN)) == next &&
            Accepted(e, h, c, true, next.acc) && Consistent(e, c, next) &&
            ev + [OnToken(e.piece(tok), tok)] + [PollStop] == [Acquire] + Callbacks(e, next.acc)
  {
    var tok := e.sample(c.prompt + st.acc, st.window);
    assert tok == Next(e, c, st.acc);
    assert Proceeds(e, h, c, true, st.acc, tok);
    AcceptedSnoc(e, h, c, true, st.acc, tok);
    CallbacksSnoc(e, st.acc, tok);
  }

  lemma SoundCancelled(e: Engine, h: Host, c: Call, i: nat, st: Loop, ev: seq<HostEvent>)
    requires AtIteration(e, h, c, i, st, ev) && i < c.maxTokens
    requires e.sample(c.prompt + st.acc, st.window) != e.eos
    requires !h.throwsAt(i) && !h.stopAt(i)
    requires MatchStop(c.stops, st.out + e.piece(e.sample(c.prompt + st.acc, st.window))).None?
    requires e.evalOk([e.sample(c.prompt + st.acc, st.window)], st.nPast)
    requires h.cancelAt(i)
    ensures Sound(e, h, c, st.acc, From(e, h, c, i, st, ev))
  {
    var tok := e.sample(c.prompt + st.acc, st.window);
    Accepts(e, h, c, i, st, ev);
    var next := Accept(e, c, st, tok);
    var ev2 := ev + [OnToken(e.piece(tok), tok)] + [PollStop];
    assert From(e, h, c, i, st, ev) == Stream(Ok(Run(next, Cancelled)), ev2);
    assert ev2 == [Acquire] + Callbacks(e, next.acc) + [];
  }

  lemma {:induction false} FromDescribed(e: Engine, h: Host, c: Call, i: nat, st: Loop, ev: seq<HostEvent>)
    requires AtIteration(e, h, c, i, st, ev)
    decreases c.maxTokens - i
    ensures Sound(e, h, c, st.acc, From(e, h, c, i, st, ev))
  {
    if i >= c.maxTokens {
      SoundBeforeSampling(e, h, c, i, st, ev);
      return;
    }
    var tok := e.sample(c.prompt + st.acc, st.window);
    if tok == e.eos {
      SoundBeforeSampling(e, h, c, i, st, ev);
    } else if h.throwsAt(i) {
      SoundThrew(e, h, c, i, st, ev);
    } else if h.stopAt(i) {
      SoundHostStopped(e, h, c, i, st, ev);
    } else if MatchStop(c.stops, st.out + e.piece(tok)).Some? {
      SoundStopHit(e, h, c, i, st, ev);
    } else if !e.evalOk([tok], st.nPast) {
      SoundEvalFailed(e, h, c, i, st, ev);
    } else if h.cancelAt(i) {
      SoundCancelled(e, h, c, i, st, ev);
    } else {
      Accepts(e, h, c, i, st, ev);
      var next := Accept(e, c, st, tok);
      var ev2 := ev + [OnToken(e.piece(tok), tok)] + [PollStop];
      assert From(e, h, c, i, st, ev) == From(e, h, c, i + 1, next, ev2);
      assert AtIteration(e, h, c, i + 1, next, ev2);
      FromDescribed(e, h, c, i + 1, next, ev2);
    }
  }

  /** The loop only ever appends events: what happened before it stays in front. */
  lemma {:induction false} FromExtends(e: Engine, h: Host, c: Call, i: nat, st: Loop, ev: seq<HostEvent>)
    decreases c.maxTokens - i
    ensures ev <= From(e, h, c, i, st, ev).events
  {
    if i < c.maxTokens {
      var tok := e.sample(c.prompt + st.acc, st.window);
      if tok != e.eos && !h.throwsAt(i) && !h.stopAt(i) && MatchStop(c.stops, st.out + e.piece(tok)).None? &&
         e.evalOk([tok], st.nPast) && !h.cancelAt(i) {
        var next := Loop(st.acc + [tok], st.out + e.piece(tok), st.nPast + 1, Push(st.window, tok, c.lastN));
        var ev2 := ev + [OnToken(e.piece(tok), tok)] + [PollStop];
        FromExtends(e, h, c, i + 1, next, ev2);
      }
    }
  }

  /** The loop from the start is sound, and its events open with the acquire. */
  lemma LoopSound(e: Engine, h: Host, c: Call)
    ensures var r := From(e, h, c, 0, Start(c), [Acquire]);
            Sound(e, h, c, [], r) && |r.events| >= 1 && r.events[0] == Acquire
  {
    AcceptedStart(e, h, c, true);
    assert AtIteration(e, h, c, 0, Start(c), [Acquire]);
    FromDescribed(e, h, c, 0, Start(c), [Acquire]);
    FromExtends(e, h, c, 0, Start(c), [Acquire]);
  }

  /**
   * The whole streaming call once the prompt is evaluated: a throwing reserve
   * aborts it with the reference still held; otherwise the events open with the
   * acquire and close with the release whatever the outcome, and what lies
   * between is described by the loop's characterisation.
   */
  lemma GenerationDescribed(e: Engine, h: Host, inp: seq<Token>, maxTokens: Int32, stops: seq<Bytes>, nCtx: int)
    requires PromptSucceeds(e.evalOk, inp)
    ensures var s := Generation(e, h, true, true, Some(inp), maxTokens, stops, nCtx);
            ReserveThrows(RequestAsWritten(maxTokens)) ==> s == Stream(Err(ReserveThrew), [Acquire])
    ensures var s := Generation(e, h, true, true, Some(inp), maxTokens, stops, nCtx);
            var c := Call(inp, maxTokens as int, stops, LastN(nCtx));
            !ReserveThrows(RequestAsWritten(maxTokens)) ==>
              |s.events| >= 2 && s.events[0] == Acquire && s.events[|s.events| - 1] == Release &&
              Sound(e, h, c, [], Stream(s.status, s.events[..|s.events| - 1]))
  {
    if !ReserveThrows(RequestAsWritten(maxTokens)) {
      var c := Call(inp, maxTokens as int, stops, LastN(nCtx));
      LoopSound(e, h, c);
      var r := From(e, h, c, 0, Start(c), [Acquire]);
      assert (r.events + [Release])[..|r.events|] == r.events;
    }
  }

  /** The concatenated pieces the host receives through onToken. */
  function Emitted(events: seq<HostEvent>): Bytes
    decreases |events|
  {
    if events == [] then []
    else Emitted(events[..|events| - 1]) + (if events[|events| - 1].OnToken? then events[|events| - 1].piece else [])
  }

  lemma {:induction false} EmittedAppend(a: seq<HostEvent>, b: seq<HostEvent>)
    decreases |b|
    ensures Emitted(a + b) == Emitted(a) + Emitted(b)
  {
    if b == [] {
      assert a + b == a;
    } else {
      var b' := b[..|b| - 1];
      assert (a + b)[..|a + b| - 1] == a + b';
      EmittedAppend(a, b');
    }
  }

  lemma EmittedOne(ev: HostEvent)
    ensures Emitted([ev]) == if ev.OnToken? then ev.piece else []
  {
    assert [ev][..0] == [];
  }

  /** The accepted tokens' events carry exactly their pieces, and nothing but onToken and polls. */
  lemma {:induction false} CallbacksShape(e: Engine, acc: seq<Token>)
    decreases |acc|
    ensures Emitted(Callbacks(e, acc)) == Pieces(e.piece, acc)
    ensures forall k :: 0 <= k < |Callbacks(e, acc)| ==> Callbacks(e, acc)[k].OnToken? || Callbacks(e, acc)[k].PollStop?
  {
    if acc != [] {
      var front := acc[..|acc| - 1];
      var t := acc[|acc| - 1];
      CallbacksShape(e, front);
      var pair := [OnToken(e.piece(t), t), PollStop];
      EmittedAppend(Callbacks(e, front), pair);
      assert pair == [OnToken(e.piece(t), t)] + [PollStop];
      EmittedAppend([OnToken(e.piece(t), t)], [PollStop]);
      EmittedOne(OnToken(e.piece(t), t));
      EmittedOne(PollStop);
    }
  }

  /**
   * Once the callback checks pass and the prompt evaluates, the events are the
   * acquire, the accepted tokens' events, those of the last iteration, and the release.
   */
  lemma Decompose(e: Engine, h: Host, inp: seq<Token>, maxTokens: Int32, stops: seq<Bytes>, nCtx: int)
      returns (acc: seq<Token>, tail: seq<HostEvent>)
    requires PromptSucceeds(e.evalOk, inp) && !ReserveThrows(RequestAsWritten(maxTokens))
    ensures var s := Generation(e, h, true, true, Some(inp), maxTokens, stops, nCtx);
            s.events == [Acquire] + Callbacks(e, acc) + tail + [Release] &&
            (s.status.Ok? ==> acc == s.status.value.loop.acc && tail == ExitEvents(e, s.status.value.exit)) &&
            (s.status.Ok? && s.status.value.exit.StopHit? ==>
               MatchStop(stops, Pieces(e.piece, acc) + e.piece(s.status.value.exit.tok)) == Some(s.status.value.exit.stop)) &&
            (s.status.Err? ==>
               s.status.error.EvalFailed? &&
               tail == [OnToken(e.piece(s.status.error.tok), s.status.error.tok), PollStop])
  {
    var c := Call(inp, maxTokens as int, stops, LastN(nCtx));
    LoopSound(e, h, c);
    var r := From(e, h, c, 0, Start(c), [Acquire]);
    match r.status {
      case Ok(run) =>
        acc, tail := run.loop.acc, ExitEvents(e, run.exit);
      case Err(err) =>
        acc :| FailsAfter(e, h, c, acc, err.tok, r.events);
        tail := [OnToken(e.piece(err.tok), err.tok), PollStop];
    }
  }

  /** Callback events bracketed by one acquire and one release hold no other acquire or release. */
  lemma BracketInterior(body: seq<HostEvent>)
    requires forall k :: 0 <= k < |body| ==> body[k].OnToken? || body[k].PollStop?
    ensures var ev := [Acquire] + body + [Release];
            forall k :: 0 < k < |ev| - 1 ==> ev[k].OnToken? || ev[k].PollStop?
  {
    var ev := [Acquire] + body + [Release];
    assert forall k :: 0 < k < |ev| - 1 ==> ev[k] == body[k - 1];
  }

  /** When the loop runs, the reference is released at the end, with only callbacks in between. */
  lemma LoopBracketed(e: Engine, h: Host, inp: seq<Token>, maxTokens: Int32, stops: seq<Bytes>, nCtx: int)
    requires PromptSucceeds(e.evalOk, inp) && !ReserveThrows(RequestAsWritten(maxTokens))
    ensures var ev := Generation(e, h, true, true, Some(inp), maxTokens, stops, nCtx).events;
            |ev| >= 2 && ev[0] == Acquire && ev[|ev| - 1] == Release &&
            forall k :: 0 < k < |ev| - 1 ==> ev[k].OnToken? || ev[k].PollStop?
  {
    var acc, tail := Decompose(e, h, inp, maxTokens, stops, nCtx);
    assert forall k :: 0 <= k < |tail| ==> tail[k].OnToken? || tail[k].PollStop?;
    CallbacksShape(e, acc);
    var cbs := Callbacks(e, acc);
    var body := cbs + tail;
    assert forall k :: 0 <= k < |body| ==> body[k] == (if k < |cbs| then cbs[k] else tail[k - |cbs|]);
    BracketInterior(body);
    assert [Acquire] + cbs + tail + [Release] == [Acquire] + body + [Release];
  }

  /**
   * Once the reference is taken it is released exactly once, at the end, with
   * only callbacks in between, on every path but one: when the reserve throws,
   * the process aborts with the acquire as the only event, and the
   * reference is never released.
   */
  lemma ReferenceReleasedOnce(e: Engine, h: Host, resolved: bool, present: bool, tokenized: Option<seq<Token>>,
                              maxTokens: Int32, stops: seq<Bytes>, nCtx: int)
    requires resolved && present
    ensures var ev := Generation(e, h, resolved, present, tokenized, maxTokens, stops, nCtx).events;
            var leaks := tokenized.Some? && PromptSucceeds(e.evalOk, tokenized.value) && ReserveThrows(RequestAsWritten(maxTokens));
            (leaks ==> ev == [Acquire]) &&
            (!leaks ==>
               |ev| >= 2 && ev[0] == Acquire && ev[|ev| - 1] == Release &&
               forall k :: 0 < k < |ev| - 1 ==> ev[k].OnToken? || ev[k].PollStop?)
  {
    var ev := Generation(e, h, resolved, present, tokenized, maxTokens, stops, nCtx).events;
    if tokenized.None? || !PromptSucceeds(e.evalOk, tokenized.value) {
      assert ev == [Acquire, Release];
    } else if ReserveThrows(RequestAsWritten(maxTokens)) {
      assert ev == [Acquire];
    } else {
      LoopBracketed(e, h, tokenized.value, maxTokens, stops, nCtx);
    }
  }

  /** The text inside an acquire/release bracket is that of the accepted tokens, then that of the last iteration. */
  lemma EmittedBracket(e: Engine, acc: seq<Token>, tail: seq<HostEvent>)
    ensures Emitted([Acquire] + Callbacks(e, acc) + tail + [Release]) == Pieces(e.piece, acc) + Emitted(tail)
  {
    var cbs := Callbacks(e, acc);
    var front := [Acquire] + cbs;
    var body := front + tail;
    CallbacksShape(e, acc);
    EmittedOne(Acquire);
    EmittedAppend([Acquire], cbs);
    assert Emitted(front) == Pieces(e.piece, acc);
    EmittedAppend(front, tail);
    assert Emitted(body) == Pieces(e.piece, acc) + Emitted(tail);
    EmittedOne(Release);
    EmittedAppend(body, [Release]);
  }

  /** The last iteration shows the host its token's piece exactly when it did not end on EOS, cancel or maxTokens. */
  lemma EmittedExit(e: Engine, exit: Exit)
    ensures exit.CallbackThrew? || exit.HostStopped? || exit.StopHit? ==> Emitted(ExitEvents(e, exit)) == e.piece(exit.tok)
    ensures exit.Eos? || exit.Cancelled? || exit.MaxTokens? ==> Emitted(ExitEvents(e, exit)) == []
  {
    if exit.CallbackThrew? || exit.HostStopped? || exit.StopHit? {
      var t := exit.tok;
      EmittedOne(OnToken(e.piece(t), t));
      if !exit.CallbackThrew? {
        assert ExitEvents(e, exit) == [OnToken(e.piece(t), t)] + [PollStop];
        EmittedAppend([OnToken(e.piece(t), t)], [PollStop]);
        EmittedOne(PollStop);
      }
    }
  }

  /**
   * The host receives the raw piece of every token it is shown, including the one
   * that completes a stop string: on a stop hit the text the host has received
   * ends with that stop string.
   */
  lemma StopTextReachesHost(e: Engine, h: Host, inp: seq<Token>, maxTokens: Int32, stops: seq<Bytes>, nCtx: int)
    requires PromptSucceeds(e.evalOk, inp)
    requires Generation(e, h, true, true, Some(inp), maxTokens, stops, nCtx).status.Ok?
    ensures var s := Generation(e, h, true, true, Some(inp), maxTokens, stops, nCtx);
            var run := s.status.value;
            (run.exit.CallbackThrew? || run.exit.HostStopped? || run.exit.StopHit? ==>
               Emitted(s.events) == Pieces(e.piece, run.loop.acc) + e.piece(run.exit.tok)) &&
            (run.exit.Eos? || run.exit.Cancelled? || run.exit.MaxTokens? ==>
               Emitted(s.events) == Pieces(e.piece, run.loop.acc)) &&
            (run.exit.StopHit? ==> run.exit.stop < |stops| && EndsWith(Emitted(s.events), stops[run.exit.stop]))
  {
    var s := Generation(e, h, true, true, Some(inp), maxTokens, stops, nCtx);
    var acc, tail := Decompose(e, h, inp, maxTokens, stops, nCtx);
    EmittedBracket(e, acc, tail);
    EmittedExit(e, s.status.value.exit);
  }
}

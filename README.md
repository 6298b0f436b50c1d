# llama_jni generation control, in Dafny

This project models the native side of the Android llama.cpp binding
(`app/src/main/cpp/llama_jni.cpp`). That side holds one model and one context
for the whole process (`g_model`, `g_ctx`) along with a thread count, the context
size and an atomic cancel flag. It offers entry points to load and free the
model, clear the cache, cancel, set the thread count, detokenise, and generate
text either as a single string (`nativeGenerate`) or token by token through a
Kotlin callback object (`nativeGenerateStreaming`).

The model covers the control logic only. llama.cpp and the JVM appear as
parameters:

- `Engine.Engine` bundles four engine operations:
  - whether `llama_eval` succeeds for a batch at a position;
  - the token `sample_next_token` returns for the tokens seen so far and the recent-token window;
  - `token_to_piece`;
  - the EOS token.
- `Engine.Host` gives, per loop iteration:
  - the value the loop reads from `g_cancel`;
  - whether `onToken` threw;
  - what `shouldStop()` returned.
- The handles that `llama_load_model_from_file` and `llama_new_context_with_model`
  return are passed to `Session.Load`; `None` means null.
- The result of `llama_tokenize` is passed to the generate methods; `None` means a negative count.

The modules, in dependency order:

- `Base`: bytes, tokens, the error kinds the entry points throw, and `Result`.
- `Stops`: `ends_with`, and the stop-string trimming loop that runs after each piece.
- `Detok`: `detok`, the in-order concatenation of token pieces.
- `Prompt`: evaluating the prompt in chunks of 32 tokens at contiguous positions.
- `Window`: the `last_tokens` deque, which starts as the prompt and pushes then pops at most one token.
- `Engine`: what the two generation loops share. This covers:
  - the loop state: accepted tokens, text, `n_past` and the window;
  - the ways a loop can end;
  - `Accepted`, which says that every accepted token went through a whole iteration.
- `OneShot` and `Streaming`: each loop written as a recursive function (`From`).
  The lemmas here relate any result of the loop to the engine and host
  behaviour that produced it (`Describes`, `FailsAfter`). For the streaming
  loop they also cover the callback events the host sees: the global
  reference taken and released, each `onToken(piece, tok)`, and each
  `shouldStop()` poll.
- `Lifecycle`: the global state as the class `Session`, with one method per modelled entry
  point. Each method works imperatively. The generation loops are proved to
  equal the functions in `OneShot` and `Streaming`.
  - Two ghost ledgers, the handles obtained (`obtained`) and every free call made (`released`),
    record that every handle obtained is freed or still held.
  - The ledger also records that there are never more frees than handles obtained.
- `Reserve`: the `reserve(maxTokens * 4)` request that both generation entry points
  make after evaluating the prompt, computed in 32-bit `int` and then converted to a
  64-bit `size_t`. The generation functions and methods model it as written: when
  the request throws, nothing catches the exception, so the process aborts via
  `std::terminate` before the loop. The model ends the call with `ReserveThrew`, and
  the streaming one never releases its callback reference. See "## Findings".

Three behaviours of the code differ from what its names and its Kotlin side
suggest. The Kotlin `GenerateCallback` has `onDelta`/`onDone`
(`app/src/main/java/com/zhangke/llama/Llama.kt:31-34`), and the window has a
`last_n = min(64, n_ctx)`. The model follows the code:

- The streaming loop gives `onToken` the raw piece of each token, not a delta of
  the trimmed text. It does so even for the piece that completes a stop string,
  because the trim happens before the callback but only on `assembled`.
- The streaming loop never calls an `onDone`. It ends by releasing the callback reference.
- The window is not capped at `last_n`. A prompt longer than that keeps
  its length for the whole run. A pop happens only when a push makes the window
  longer than `last_n` (`Window.WindowNotCapped`).

## Model

| member | source | states |
|---|---|---|
| Stops.EndsWith | app/src/main/cpp/llama_jni.cpp:37-39 | true exactly when the suffix is no longer than the string and equals its last bytes, so an empty suffix always matches |
| Stops.MatchStop | app/src/main/cpp/llama_jni.cpp:300-305 | the index found is the first, in list order, of the non-empty stop strings the text ends with; None exactly when no non-empty stop string is a suffix |
| Stops.TrimStop | app/src/main/cpp/llama_jni.cpp:298-306 | the hit is the first matching stop string; without a hit the text is unchanged; with a hit exactly that stop string is cut off the end once, so the result plus that stop string is the old text |
| Stops.Trimmed | app/src/main/cpp/llama_jni.cpp:392-399 | the text the trimming leaves: unchanged without a hit, otherwise the old text minus the matched stop string |
| Stops.EmptyStopNeverHits | app/src/main/cpp/llama_jni.cpp:301 | an empty stop string is matched by ends_with but never triggers a stop |
| Detok.Detok | app/src/main/cpp/llama_jni.cpp:51-55 | the loop's result is the pieces of the tokens concatenated in order |
| Detok.PiecesAppend | app/src/main/cpp/llama_jni.cpp:53 | detokenising a concatenation gives the concatenated texts |
| Detok.PiecesPrefix | app/src/main/cpp/llama_jni.cpp:53 | appending tokens only appends text: the old text is a prefix of the new |
| Detok.PiecesSingle | app/src/main/cpp/llama_jni.cpp:53 | the text of one token is its piece |
| Prompt.Chunks | app/src/main/cpp/llama_jni.cpp:271-276 | defines the calls of the prompt loop when none fails; its meaning is stated by Prompt.ChunksCover and Prompt.ChunksShape |
| Prompt.EvalPrompt | app/src/main/cpp/llama_jni.cpp:269-277 | succeeds exactly when every chunk evaluates; only chunk calls are made, in order; on success they are all of them and n_past is the prompt length; on failure the last call made is the one that failed and every earlier one succeeded |
| Prompt.ChunksCover | app/src/main/cpp/llama_jni.cpp:271-276 | the chunks hand the engine exactly the prompt, in order, each at the position where the previous one ended |
| Prompt.ChunksShape | app/src/main/cpp/llama_jni.cpp:271-272 | there are ceil(n/32) chunks; chunk k starts at 32k and holds min(32, n - 32k) tokens |
| Prompt.FailingChunk | app/src/main/cpp/llama_jni.cpp:273-274 | one failing chunk call makes the whole prompt evaluation fail |
| Window.LastN | app/src/main/cpp/llama_jni.cpp:281 | last_n is at most 64 and at most n_ctx, and equals one of them |
| Window.Push | app/src/main/cpp/llama_jni.cpp:314-315 | the new window is a suffix of old + [tok] that is one longer exactly when that fits last_n, and is otherwise the same length |
| Window.Windowed | app/src/main/cpp/llama_jni.cpp:314-315 | defines the window after each accepted token went through the push and pop; its meaning is stated by Window.WindowClosedForm |
| Window.WindowClosedForm | app/src/main/cpp/llama_jni.cpp:279-315 | after any run the window is the suffix of prompt ++ accepted tokens whose length is the prompt's when the prompt reached last_n, else min(prompt + accepted, last_n) |
| Window.WindowBound | app/src/main/cpp/llama_jni.cpp:314-315 | the window is never longer than max(prompt length, last_n) |
| Window.WindowWithinCap | app/src/main/cpp/llama_jni.cpp:314-315 | a prompt within last_n keeps the window within last_n |
| Window.WindowNotCapped | app/src/main/cpp/llama_jni.cpp:279-281 | a prompt longer than last_n is never cut down: the window keeps the prompt's length |
| Window.WindowStopsGrowing | app/src/main/cpp/llama_jni.cpp:315 | once at or above last_n, a push does not change the window's size |
| Window.WindowEndsWithNewest | app/src/main/cpp/llama_jni.cpp:314 | the newest accepted token is at the back of the window |
| Engine.Accept | app/src/main/cpp/llama_jni.cpp:312-315 | accepting a token keeps n_past, the text and the window in step with the accepted tokens |
| Engine.AcceptedSnoc | app/src/main/cpp/llama_jni.cpp:287-318 | a token that gets through a whole iteration, after a prefix whose last iteration did not see cancel, extends the accepted tokens |
| OneShot.From | app/src/main/cpp/llama_jni.cpp:287-318 | defines the one-shot loop's result from iteration i on, in the code's order of checks: maxTokens, EOS, stop trim and hit, eval, window push, cancel; its meaning is stated by OneShot.FromDescribed |
| OneShot.Generation | app/src/main/cpp/llama_jni.cpp:259-320 | defines nativeGenerate after ensure_ctx, including the reserve at line 284 that throws before the loop; its meaning is stated by OneShot.GenerationDescribed |
| OneShot.SoundMaxTokens | app/src/main/cpp/llama_jni.cpp:287 | the loop ends after maxTokens iterations, with every token accepted and the text their pieces |
| OneShot.SoundEos | app/src/main/cpp/llama_jni.cpp:293 | sampling EOS ends the loop without appending anything |
| OneShot.SoundStopHit | app/src/main/cpp/llama_jni.cpp:298-306 | a stop hit ends the loop without evaluating the token, and the returned text plus the stop is the pieces so far plus this piece |
| OneShot.SoundEvalFailed | app/src/main/cpp/llama_jni.cpp:309-311 | a failed eval of a generated token is an error that returns no text |
| OneShot.SoundCancelled | app/src/main/cpp/llama_jni.cpp:317 | cancel seen after a successful eval ends the loop and keeps that token's piece |
| OneShot.FromDescribed | app/src/main/cpp/llama_jni.cpp:287-318 | from any reachable loop state, the loop's result is described by its exit, or is an eval failure after some accepted prefix |
| OneShot.GenerationDescribed | app/src/main/cpp/llama_jni.cpp:259-320 | a tokenise failure, a prompt failure and a throwing reserve each end the call exactly in their own cases; an eval failure returns no text; every successful run accepts at most maxTokens tokens, keeps n_past and the window in step, and returns their pieces (minus a trimmed stop) |
| OneShot.NonPositiveMaxTokensEmpty | app/src/main/cpp/llama_jni.cpp:283-287 | for maxTokens <= 0 the reserve throws exactly when 4 * maxTokens (wrapped, as Wrap32 assumes) is a negative int, and so for every maxTokens from -2^29 to -1; otherwise, as for maxTokens == 0, no iteration runs and the text is empty |
| OneShot.CorrectedNonPositiveMaxTokensEmpty | app/src/main/cpp/llama_jni.cpp:284-287 | with the corrected request, maxTokens <= 0 reserves nothing, never throws, and the loop returns the empty text |
| OneShot.AtMostMaxTokens | app/src/main/cpp/llama_jni.cpp:287-312 | no run accepts more than maxTokens tokens, and n_past grows by exactly one per accepted token |
| OneShot.CancelKeepsPieceEvalFailureDropsIt | app/src/main/cpp/llama_jni.cpp:309-320 | a cancel after the first successful eval returns that token's piece, while an eval failure of the first token returns an error and no text |
| Streaming.From | app/src/main/cpp/llama_jni.cpp:381-424 | defines the streaming loop's result and host events from iteration i on, in the code's order: maxTokens, EOS, append and trim, onToken, exception check, shouldStop, stop hit, eval, window push, cancel; its meaning is stated by Streaming.FromDescribed |
| Streaming.Generation | app/src/main/cpp/llama_jni.cpp:332-426 | defines nativeGenerateStreaming after ensure_ctx: the callback checks, the reference taken, tokenise and prompt failures that release it, the reserve at line 378 that throws without releasing it, then the loop and the release; its meaning is stated by Streaming.GenerationDescribed and Streaming.ReferenceReleasedOnce |
| Streaming.SoundThrew | app/src/main/cpp/llama_jni.cpp:401-409 | onToken gets the raw piece before any exit check; if it throws, the loop ends without polling shouldStop or evaluating the token |
| Streaming.SoundHostStopped | app/src/main/cpp/llama_jni.cpp:410 | shouldStop() ends the loop after the callback and before the eval |
| Streaming.SoundStopHit | app/src/main/cpp/llama_jni.cpp:392-411 | a stop hit ends the loop only after onToken and shouldStop, without evaluating the token |
| Streaming.SoundEvalFailed | app/src/main/cpp/llama_jni.cpp:414-417 | a failed eval is an error after the host has seen the token and been polled |
| Streaming.SoundCancelled | app/src/main/cpp/llama_jni.cpp:423 | cancel seen after a successful eval ends the loop with the token accepted |
| Streaming.FromDescribed | app/src/main/cpp/llama_jni.cpp:381-424 | from any reachable state, the streaming result is described by its exit, and the events are the acquire, then an onToken and a poll per accepted token, then those of the last iteration |
| Streaming.GenerationDescribed | app/src/main/cpp/llama_jni.cpp:338-426 | once the prompt evaluates, a throwing reserve ends the call with only the acquire; otherwise the events open with the acquire, close with the release, and what lies between is described by the loop's exit or an eval failure |
| Streaming.ReferenceReleasedOnce | app/src/main/cpp/llama_jni.cpp:338-426 | after the reference is taken it is released exactly once, at the end, with only callbacks in between, on the tokenise and prompt failure paths and every loop exit; when the reserve throws it is the only event and is never released |
| Streaming.CallbacksShape | app/src/main/cpp/llama_jni.cpp:401-410 | the accepted tokens' events carry exactly their pieces, in order, and are only onToken calls and polls |
| Streaming.StopTextReachesHost | app/src/main/cpp/llama_jni.cpp:389-411 | the host receives the raw piece of every token it is shown, so on a stop hit the received text ends with the stop string |
| Lifecycle.ClampThreads | app/src/main/cpp/llama_jni.cpp:117 | the thread count is at least one, and any request of one or more is kept |
| Lifecycle.Session.constructor | app/src/main/cpp/llama_jni.cpp:13-17 | null handles, 4 threads, a 4096-token context, no cancel |
| Lifecycle.Session.Load | app/src/main/cpp/llama_jni.cpp:85-120 | what was held is freed first; a model-load failure leaves both handles null; a context failure frees the new model too, so both handles end null; success holds both, clamps the thread count, sets n_ctx and clears cancel; on failure nothing else changes |
| Lifecycle.Session.Open | app/src/main/cpp/llama_jni.cpp:102-119 | the same as Load once nothing is held |
| Lifecycle.Session.ReleaseHeld | app/src/main/cpp/llama_jni.cpp:92-93 | frees the context, then the model, whichever is held, and leaves both null |
| Lifecycle.Session.Free | app/src/main/cpp/llama_jni.cpp:122-127 | frees what is held, context first, leaves both handles null and clears cancel |
| Lifecycle.FreeTwice | app/src/main/cpp/llama_jni.cpp:122-127 | freeing twice frees what one free frees: the second call finds nothing |
| Lifecycle.FailedLoadThenFree | app/src/main/cpp/llama_jni.cpp:111-127 | after a failed load nothing is held, so a later free frees nothing more |
| Lifecycle.Session.Reset | app/src/main/cpp/llama_jni.cpp:130-135 | an error without a context, leaving cancel as it was; otherwise clears cancel |
| Lifecycle.Session.SetThreads | app/src/main/cpp/llama_jni.cpp:434-437 | sets the clamped thread count |
| Lifecycle.Session.Cancel | app/src/main/cpp/llama_jni.cpp:430-433 | sets the cancel flag |
| Lifecycle.Session.Detokenize | app/src/main/cpp/llama_jni.cpp:161-170 | an error without a model, otherwise the in-order pieces of the tokens |
| Lifecycle.Session.Generate | app/src/main/cpp/llama_jni.cpp:236-321 | an error without a context; otherwise the one-shot generation of the prompt, including the throwing reserve; cancel is cleared after the reserve, before the loop, so it ends set exactly when the run was cancelled, and it is untouched by tokenise, prompt and reserve failures |
| Lifecycle.Session.OneShotLoop | app/src/main/cpp/llama_jni.cpp:285-318 | the loop computes the one-shot loop function, clearing cancel first |
| Lifecycle.OneShotIteration | app/src/main/cpp/llama_jni.cpp:288-315 | one pass of the loop body either ends the loop with the loop function's result, or has sampled a non-EOS token that hit no stop and evaluated, and hands on that token accepted: n_past + 1, the piece appended, the window pushed |
| Lifecycle.Session.GenerateStreaming | app/src/main/cpp/llama_jni.cpp:324-427 | an error without a context; otherwise the streaming generation, with the callback checks, the reference taken and released on every later path but the throwing reserve, and cancel set at the end exactly when the run was cancelled |
| Lifecycle.Session.StreamingLoop | app/src/main/cpp/llama_jni.cpp:379-424 | the loop computes the streaming loop function and its events, clearing cancel first |
| Lifecycle.StreamingIteration | app/src/main/cpp/llama_jni.cpp:382-421 | one pass of the streaming loop body either ends the loop with the loop function's result, or hands on the token accepted as in the one-shot loop, with the events grown by its onToken and one poll |
| Reserve.Wrap32 | app/src/main/cpp/llama_jni.cpp:284 | the product is reduced to a 32-bit int congruent to it, and an in-range value is unchanged |
| Reserve.ToSize | app/src/main/cpp/llama_jni.cpp:284 | the int to size_t conversion keeps non-negative values and turns negative ones into at least 2^64 - 2^31 |
| Reserve.RequestAsWritten | app/src/main/cpp/llama_jni.cpp:284 | the request throws exactly when the wrapped product is negative, and is 4 * maxTokens for 0 <= maxTokens < 2^29 |
| Reserve.NegativeMaxTokensThrows | app/src/main/cpp/llama_jni.cpp:284 | a negative maxTokens down to -2^29 requests 2^64 + 4 * maxTokens bytes, and the reserve throws |
| Reserve.OverflowingMaxTokensThrows | app/src/main/cpp/llama_jni.cpp:378 | a maxTokens from 2^29 to 2^30 - 1 overflows, and assuming the overflow wraps, the product is a negative int and the reserve throws |
| Reserve.LargeMaxTokensThrows | app/src/main/cpp/llama_jni.cpp:378 | so does a maxTokens from 3 * 2^29 to 2^31 - 1, under the same wrap assumption |
| Reserve.MinusOneThrows | app/src/main/cpp/llama_jni.cpp:284 | maxTokens == -1 requests 2^64 - 4 bytes, and the reserve throws |
| Reserve.RequestFixed | app/src/main/cpp/llama_jni.cpp:284 | the corrected request never throws, is zero exactly when maxTokens <= 0, and is at most four bytes per token |
| Reserve.FixedAgreesWhereDefined | app/src/main/cpp/llama_jni.cpp:378 | the corrected request equals the written one wherever that one was right |

## Left out

- Sampling: `sample_next_token` does floating-point logit filtering inside llama.cpp. Here it is the `sample` oracle, and temperature, top-p, top-k and the penalties are not modelled.
- `token_to_piece` (`app/src/main/cpp/llama_jni.cpp:41-49`) is the `piece` oracle. It sizes its buffer with `llama_detokenize`, fills it with `llama_token_to_piece` and resizes it, returning "" when the size asked for is not positive or the write fails. That code and its "" fallbacks are not modelled separately.
- Tokenising: `nativeTokenize` and the tokenise step of generation depend entirely on `llama_tokenize`. They enter as an optional token sequence. The `strlen + 8` buffer capacity is not modelled.
- `nativeVocabSize` and `nativeEmbeddings`: they only forward engine results. The embeddings function repeats the modelled prompt chunking.
- JNI marshalling is not modelled:
  - string conversion, including truncation at an embedded NUL by `NewStringUTF(c_str())`;
  - reading the stop-string array, where a null array gives no stops;
  - local references;
  - `jthrow`, which becomes an `Err` result.
- `JNI_OnLoad` and `JNI_OnUnload`: method caching becomes the `resolved` parameter of streaming. Unload's frees are the same as `Session.ReleaseHeld`.
- `g_cancel` is atomic and written from other threads. The model is single-threaded: the value each iteration reads is the `cancelAt` input.
- The thread count and the context handle passed to `llama_eval`, the seed, the GPU-layer count and the mmap/mlock flags are not modelled. `llama_kv_cache_clear` clears engine state that the model does not represent.
- `n_past` is an unbounded integer. Its 32-bit overflow, once the prompt and the generated tokens together reach about 2^31, is not modelled. The loop counter cannot overflow, because it stays below `maxTokens`.
- ReserveThrew: a throwing `reserve` is not caught in either entry point, so the process aborts via `std::terminate`. The model returns this error value instead, and the cancel flag and events that `Session.Generate` and `Session.GenerateStreaming` state after it describe no reachable state.
- Wrap32: `maxTokens * 4` with |maxTokens| >= 2^29 is signed overflow, which is undefined behaviour in C++. `Wrap32` assumes two's-complement wrap-around; an optimiser may instead compute the product in 64 bits, which would not throw for, say, maxTokens = 2^29. Only [-2^29, -1] is defined behaviour.
- ToSize: the model covers 64-bit targets only, where `size_t` has 64 bits. On a 32-bit ABI the request would be 2^32 + 4 * maxTokens, only -1 to -4 would certainly exceed `max_size()`, and a request of about 2 GiB need not fail.
- ReserveThrows: a request below 2^63 bytes that fails with `std::bad_alloc` because memory runs out is not modelled.
- An exception thrown by `shouldStop()` is not modelled. The code does not check for one.
- The Kotlin wrapper is not part of this model: `Llama.kt`, the UI files, and their mismatches with the native side (the callback interface and the `seed` parameter).

## Findings

| source | as written | input that shows it | evidently intended | confidence | as-written member | corrected member |
|---|---|---|---|---|---|---|
| app/src/main/cpp/llama_jni.cpp:284 | `out.reserve(maxTokens * 4)` multiplies in 32-bit `int` and passes the result to a 64-bit `size_t`, in both generation entry points (also line 378) | maxTokens = -1 requests 2^64 - 4 bytes. A request that large throws: `std::length_error` when it is over the library's `max_size()`, `std::bad_alloc` otherwise. Nothing catches it, so the process aborts via `std::terminate`, and in the streaming entry point the callback reference is never released. Every maxTokens in [-2^29, -1] does the same. Assuming the signed overflow wraps, so do [2^29, 2^30), [3 * 2^29, 2^31) and every value below -2^29 whose product wraps negative. The loop itself would have run no iteration for maxTokens <= 0 and returned "" | a non-positive maxTokens reserves nothing and returns the empty text | not executed | Reserve.MinusOneThrows | Reserve.RequestFixed |

The generation functions and the session's generate methods model the code as
written (`OneShot.NonPositiveMaxTokensEmpty`, `Streaming.ReferenceReleasedOnce`).
The corrected request is `Reserve.RequestFixed`. `OneShot.CorrectedNonPositiveMaxTokensEmpty`
proves that with it, a non-positive maxTokens reaches the loop and returns the empty text.

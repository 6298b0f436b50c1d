/** Values shared by every part of the model of the JNI generation core. */
module Base {
  /** One byte of a `std::string`; the core works on UTF-8 bytes, not characters. */
  newtype Byte = b: int | 0 <= b < 256

  type Bytes = seq<Byte>

  /** A Java `int` (`jint`), as the generation entry points receive `maxTokens`. */
  newtype Int32 = x: int | -0x8000_0000 <= x < 0x8000_0000

  /** A `llama_token`: an id in the model's vocabulary. */
  type Token = int

  datatype Option<T> = None | Some(value: T)

  /**
   * The conditions under which the native side calls `jthrow`, and the one C++
   * exception that leaves an entry point.
   */
  datatype Error =
    | NoModel                // ensure_model: the model handle is null
    | NoContext              // ensure_ctx: the context handle is null
    | ModelLoadFailed        // llama_load_model_from_file returned null
    | ContextCreateFailed    // llama_new_context_with_model returned null
    | TokenizeFailed         // llama_tokenize returned a negative count
    | PromptEvalFailed       // llama_eval failed on a prompt chunk
    | EvalFailed(tok: Token) // llama_eval failed on a generated token
    | CallbackUnresolved     // the TokenCallback methods were not found at load time
    | CallbackNull           // the callback object passed in is null
    | ReserveThrew           // `reserve` threw before the loop: uncaught, so the process aborts via std::terminate

  datatype Result<T> = Ok(value: T) | Err(error: Error)

  function Min(a: int, b: int): int { if a < b then a else b }

  function Max(a: int, b: int): int { if a < b then b else a }
}

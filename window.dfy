/** The recent-token window (`last_tokens`) handed to the sampler for repetition penalties. */
module Window {
  import opened Base

  /** The fixed part of `last_n = std::min(64, g_n_ctx)`. */
  const WindowCap: int := 64

  function LastN(nCtx: int): (r: int)
    ensures r <= WindowCap && r <= nCtx && (r == WindowCap || r == nCtx)
  {
    Min(WindowCap, nCtx)
  }

  /**
   * `push_back(tok)`, then `pop_front()` when the size exceeds `lastN`: the new
   * window is a suffix of `w + [tok]` that loses at most the oldest token, and
   * that one only when `w + [tok]` is over `lastN`.
   */
  function Push(w: seq<Token>, tok: Token, lastN: int): (r: seq<Token>)
    ensures |w| <= |r| <= |w| + 1
    ensures r == (w + [tok])[|w| + 1 - |r|..]
    ensures |r| == |w| + 1 <==> |w| + 1 <= lastN
    ensures |r| <= Max(|w|, lastN)
  {
    var grown := w + [tok];
    if |grown| > lastN then grown[1..] else grown
  }

  /** The window after `acc` has been pushed, one token at a time, onto the prompt. */
  function Windowed(prompt: seq<Token>, acc: seq<Token>, lastN: int): seq<Token>
    decreases |acc|
  {
    if acc == [] then prompt
    else Push(Windowed(prompt, acc[..|acc| - 1], lastN), acc[|acc| - 1], lastN)
  }

  /** The size of the window after `k` pushes onto a prompt of `p` tokens. */
  function WindowSize(p: nat, k: nat, lastN: int): nat {
    if p >= lastN then p else Min(p + k, lastN)
  }

  /** Pushing onto a suffix of `all` gives a suffix of `all + [t]`. */
  lemma PushSuffix(all: seq<Token>, w: seq<Token>, t: Token, lastN: int)
    requires |w| <= |all| && w == all[|all| - |w|..]
    ensures Push(w, t, lastN) == (all + [t])[|all| + 1 - |Push(w, t, lastN)|..]
  {
    assert w + [t] == (all + [t])[|all| - |w|..];
  }

  /** One push grows the window by one exactly while it is below `lastN`. */
  lemma WindowSizeStep(p: nat, k: nat, lastN: int)
    ensures WindowSize(p, k + 1, lastN) ==
            if WindowSize(p, k, lastN) + 1 <= lastN then WindowSize(p, k, lastN) + 1 else WindowSize(p, k, lastN)
  {
  }

  /** The window holds the last `WindowSize` tokens of the prompt followed by the accepted tokens. */
  lemma {:induction false} WindowClosedForm(prompt: seq<Token>, acc: seq<Token>, lastN: int)
    decreases |acc|
    ensures |Windowed(prompt, acc, lastN)| == WindowSize(|prompt|, |acc|, lastN)
    ensures Windowed(prompt, acc, lastN) == (prompt + acc)[|prompt + acc| - WindowSize(|prompt|, |acc|, lastN)..]
  {
    if acc == [] {
      assert prompt + acc == prompt;
    } else {
      var front := acc[..|acc| - 1];
      var t := acc[|acc| - 1];
      WindowClosedForm(prompt, front, lastN);
      WindowSizeStep(|prompt|, |front|, lastN);
      var w := Windowed(prompt, front, lastN);
      assert Windowed(prompt, acc, lastN) == Push(w, t, lastN);
      assert prompt + acc == (prompt + front) + [t];
      PushSuffix(prompt + front, w, t, lastN);
    }
  }

  /** The window is never longer than the prompt or `lastN`, whichever is longer. */
  lemma WindowBound(prompt: seq<Token>, acc: seq<Token>, lastN: int)
    ensures |Windowed(prompt, acc, lastN)| <= Max(|prompt|, lastN)
  {
    WindowClosedForm(prompt, acc, lastN);
  }

  /** A prompt that fits in `lastN` keeps the window within `lastN` for good. */
  lemma WindowWithinCap(prompt: seq<Token>, acc: seq<Token>, lastN: int)
    requires |prompt| <= lastN
    ensures |Windowed(prompt, acc, lastN)| <= lastN
  {
    WindowClosedForm(prompt, acc, lastN);
  }

  /** A prompt longer than `lastN` is never cut down: the window keeps the prompt's length. */
  lemma WindowNotCapped(prompt: seq<Token>, acc: seq<Token>, lastN: int)
    requires |prompt| > lastN
    ensures |Windowed(prompt, acc, lastN)| == |prompt| > lastN
  {
    WindowClosedForm(prompt, acc, lastN);
  }

  /** Once at or above `lastN`, the window never grows: each push is matched by a pop. */
  lemma WindowStopsGrowing(prompt: seq<Token>, acc: seq<Token>, t: Token, lastN: int)
    requires |Windowed(prompt, acc, lastN)| >= lastN
    ensures |Windowed(prompt, acc + [t], lastN)| == |Windowed(prompt, acc, lastN)|
  {
    assert (acc + [t])[..|acc|] == acc;
  }

  /** The newest accepted token is at the back of the window whenever the window is not empty. */
  lemma WindowEndsWithNewest(prompt: seq<Token>, acc: seq<Token>, t: Token, lastN: int)
    requires Windowed(prompt, acc + [t], lastN) != []
    ensures Windowed(prompt, acc + [t], lastN)[|Windowed(prompt, acc + [t], lastN)| - 1] == t
  {
    assert (acc + [t])[..|acc|] == acc;
  }
}

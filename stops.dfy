/** Stop-string matching: `ends_with` and the trimming loop run after each piece. */
module Stops {
  import opened Base

  /**
   * `ends_with(s, suf)`: `s` is at least as long as `suf` and the two agree when
   * compared backwards from their last bytes (`std::equal` over reverse iterators).
   */
  function EndsWith(s: Bytes, suf: Bytes): (r: bool)
    decreases |suf|
    ensures r <==> |suf| <= |s| && s[|s| - |suf|..] == suf
  {
    |s| >= |suf| &&
    (suf == [] ||
     (suf[|suf| - 1] == s[|s| - 1] && EndsWith(s[..|s| - 1], suf[..|suf| - 1])))
  }

  /** A stop string triggers only when it is non-empty and `out` ends with it. */
  predicate Hits(stop: Bytes, out: Bytes) {
    stop != [] && EndsWith(out, stop)
  }

  /** The first stop string at index `i` or later that `out` hits. */
  function MatchFrom(stops: seq<Bytes>, out: Bytes, i: nat): (r: Option<nat>)
    requires i <= |stops|
    decreases |stops| - i
    ensures r.Some? ==> i <= r.value < |stops| && Hits(stops[r.value], out)
    ensures r.Some? ==> forall j :: i <= j < r.value ==> !Hits(stops[j], out)
    ensures r.None? ==> forall j :: i <= j < |stops| ==> !Hits(stops[j], out)
  {
    if i == |stops| then None
    else if Hits(stops[i], out) then Some(i)
    else MatchFrom(stops, out, i + 1)
  }

  /** The index of the first stop string, in list order, that `out` hits. */
  function MatchStop(stops: seq<Bytes>, out: Bytes): (r: Option<nat>)
    ensures r.Some? ==> r.value < |stops| && Hits(stops[r.value], out)
    ensures r.Some? ==> forall j :: 0 <= j < r.value ==> !Hits(stops[j], out)
    ensures r.None? <==> forall j :: 0 <= j < |stops| ==> !Hits(stops[j], out)
  {
    MatchFrom(stops, out, 0)
  }

  /**
   * The trimming loop: scan the stop strings in order, skip empty ones, and on the
   * first one `out` ends with, cut exactly that suffix off and stop scanning.
   */
  method TrimStop(out: Bytes, stops: seq<Bytes>) returns (trimmed: Bytes, hit: Option<nat>)
    ensures hit == MatchStop(stops, out)
    ensures hit.None? ==> trimmed == out
    ensures hit.Some? ==> |stops[hit.value]| <= |out|
    ensures hit.Some? ==> trimmed == out[..|out| - |stops[hit.value]|]
    ensures hit.Some? ==> trimmed + stops[hit.value] == out
  {
    trimmed, hit := out, None;
    for k := 0 to |stops|
      invariant hit.None? && trimmed == out
      invariant forall j :: 0 <= j < k ==> !Hits(stops[j], out)
    {
      if stops[k] != [] && EndsWith(out, stops[k]) {
        trimmed := out[..|out| - |stops[k]|];
        hit := Some(k);
        assert trimmed + stops[k] == out;
        return;
      }
    }
  }

  /** `out` with its first matching stop string removed, or `out` itself. */
  function Trimmed(stops: seq<Bytes>, out: Bytes): (r: Bytes)
    ensures MatchStop(stops, out).None? ==> r == out
    ensures MatchStop(stops, out).Some? ==> r + stops[MatchStop(stops, out).value] == out
  {
    match MatchStop(stops, out)
    case None => out
    case Some(k) => assert out[..|out| - |stops[k]|] + stops[k] == out; out[..|out| - |stops[k]|]
  }

  lemma EmptyStopNeverHits(out: Bytes)
    ensures EndsWith(out, [])
    ensures !Hits([], out)
  {
  }
}

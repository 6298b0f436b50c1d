/**
 * The capacity request `out.reserve(maxTokens * 4)` that both generation entry
 * points make before their loops: the product is an `int`, and `reserve` takes
 * a `size_t` on a 64-bit target.
 */
module Reserve {
  import opened Base

  /**
   * The low 32 bits of `x` read as two's complement. Signed overflow is undefined
   * in C++; this is the wrap-around a plain two's-complement build gives.
   */
  function Wrap32(x: int): (r: Int32)
    ensures (x - r as int) % 0x1_0000_0000 == 0
    ensures -0x8000_0000 <= x < 0x8000_0000 ==> r as int == x
  {
    var m := x % 0x1_0000_0000;
    if m >= 0x8000_0000 then (m - 0x1_0000_0000) as Int32 else m as Int32
  }

  /** The implicit `int` to 64-bit `size_t` conversion: a negative value gains 2^64. */
  function ToSize(v: Int32): (r: nat)
    ensures r < 0x1_0000_0000_0000_0000
    ensures v >= 0 ==> r == v as int
    ensures v < 0 ==> r >= 0xFFFF_FFFF_8000_0000
  {
    if v < 0 then v as int + 0x1_0000_0000_0000_0000 else v as int
  }

  /**
   * No 64-bit target can hold a string of 2^63 bytes or more, so a `reserve`
   * of that size throws: `std::length_error` when it is over the library's
   * `max_size()`, otherwise `std::bad_alloc` from the failed allocation.
   * Nothing catches it, so the process aborts via `std::terminate`. A smaller
   * request that fails because memory runs out is not modelled.
   */
  const SizeLimit: nat := 0x8000_0000_0000_0000

  predicate ReserveThrows(n: nat) {
    n >= SizeLimit
  }

  /** The request as written: `maxTokens * 4` in `int`, then converted to `size_t`. */
  function RequestAsWritten(maxTokens: Int32): (r: nat)
    ensures ReserveThrows(r) <==> Wrap32(4 * maxTokens as int) < 0
    ensures 0 <= maxTokens < 0x2000_0000 ==> r == 4 * maxTokens as int
  {
    ToSize(Wrap32(4 * maxTokens as int))
  }

  /** Any negative `maxTokens` down to -2^29 turns into a request of almost 2^64 bytes. */
  lemma NegativeMaxTokensThrows(maxTokens: Int32)
    requires -0x2000_0000 <= maxTokens < 0
    ensures ReserveThrows(RequestAsWritten(maxTokens))
    ensures RequestAsWritten(maxTokens) == 0x1_0000_0000_0000_0000 + 4 * maxTokens as int
  {
  }

  /** A `maxTokens` from 2^29 to 2^30 - 1 overflows the product; if it wraps, it is a negative `int`, with the same result. */
  lemma OverflowingMaxTokensThrows(maxTokens: Int32)
    requires 0x2000_0000 <= maxTokens < 0x4000_0000
    ensures ReserveThrows(RequestAsWritten(maxTokens))
  {
    assert Wrap32(4 * maxTokens as int) as int == 4 * maxTokens as int - 0x1_0000_0000;
  }

  /** So does a `maxTokens` from 3 * 2^29 up to the largest `int`, again assuming the overflow wraps. */
  lemma LargeMaxTokensThrows(maxTokens: Int32)
    requires 0x6000_0000 <= maxTokens
    ensures ReserveThrows(RequestAsWritten(maxTokens))
  {
    assert Wrap32(4 * maxTokens as int) as int == 4 * maxTokens as int - 0x2_0000_0000;
  }

  /** The smallest case: `maxTokens == -1` asks for 2^64 - 4 bytes. */
  lemma MinusOneThrows()
    ensures RequestAsWritten(-1) == 0xFFFF_FFFF_FFFF_FFFC
    ensures ReserveThrows(RequestAsWritten(-1))
  {
  }

  /**
   * The intended request: nothing for a non-positive `maxTokens` (the loop then
   * runs no iteration), else four bytes per token, computed in `size_t`.
   */
  function RequestFixed(maxTokens: Int32): (r: nat)
    ensures !ReserveThrows(r)
    ensures r <= 4 * (0x8000_0000 - 1)
    ensures r <= 4 * Max(0, maxTokens as int)
    ensures maxTokens <= 0 <==> r == 0
  {
    if maxTokens <= 0 then 0 else 4 * maxTokens as int
  }

  /** The fix changes nothing where the request as written was already right. */
  lemma FixedAgreesWhereDefined(maxTokens: Int32)
    requires 0 <= maxTokens < 0x2000_0000
    ensures RequestFixed(maxTokens) == RequestAsWritten(maxTokens)
  {
  }
}

/**
 * The retry delay. Each failed `receiveMessage` waits the current delay and
 * then doubles it; a success resets it. `maxBackoff` is kept by the stream but
 * read nowhere, so the delay has no upper bound.
 */
module Backoff {

  /** 2 to the power n. */
  function Pow2(n: nat): (r: nat)
    ensures r >= 1
  {
    if n == 0 then 1 else 2 * Pow2(n - 1)
  }

  /** The delay in force after `failures` consecutive failures. */
  function BackoffDelay(initialBackoff: int, failures: nat): (d: int) {
    initialBackoff * Pow2(failures)
  }

  /** One more failure doubles the delay. */
  lemma BackoffDoubles(initialBackoff: int, failures: nat)
    ensures BackoffDelay(initialBackoff, failures + 1) == 2 * BackoffDelay(initialBackoff, failures)
  {
    var p := Pow2(failures);
    assert Pow2(failures + 1) == 2 * p;
    assert initialBackoff * (2 * p) == 2 * (initialBackoff * p);
  }

  /** 2^n outgrows n. */
  lemma {:induction false} Pow2Exceeds(n: nat)
    ensures Pow2(n) > n
  {
    if n > 0 {
      Pow2Exceeds(n - 1);
    }
  }

  /**
   * No cap: for a positive initial delay, some run of consecutive failures
   * waits longer than any given bound, `maxBackoff` included.
   */
  lemma BackoffOutgrowsAnyCap(initialBackoff: int, cap: nat)
    requires initialBackoff >= 1
    ensures BackoffDelay(initialBackoff, cap) > cap
  {
    var p := Pow2(cap);
    Pow2Exceeds(cap);
    assert initialBackoff * p == p + (initialBackoff - 1) * p;
    assert (initialBackoff - 1) * p >= 0;
  }
}

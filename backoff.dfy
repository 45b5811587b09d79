/**
 * The reconnect delay both transports use: the presence socket's `onclose`
 * handler and the signaling transport's connect-failure and disconnect paths
 * evaluate the same expression on their own attempt counters.
 */
module Backoff {

  const FirstDelayMs: nat := 100
  const BaseDelayMs: nat := 2000
  const MaxDelayMs: nat := 30000

  function Pow2(n: nat): (r: nat)
    ensures r >= 1
  {
    if n == 0 then 1 else 2 * Pow2(n - 1)
  }

  function Min(a: int, b: int): int {
    if a <= b then a else b
  }

  /**
   * `attempt === 0 ? 100 : Math.min(2000 * Math.pow(2, attempt - 1), 30000)`.
   * A large exponent overflows to `Infinity` in JavaScript; the minimum with
   * 30000 is then 30000, which is also what the unbounded integers give.
   */
  function ReconnectDelay(attempt: nat): (ms: nat)
    ensures FirstDelayMs <= ms <= MaxDelayMs
    ensures ms == FirstDelayMs <==> attempt == 0
  {
    if attempt == 0 then FirstDelayMs else Min(BaseDelayMs * Pow2(attempt - 1), MaxDelayMs)
  }

  lemma {:induction false} Pow2Monotone(a: nat, b: nat)
    requires a <= b
    ensures Pow2(a) <= Pow2(b)
    decreases b
  {
    if a < b {
      Pow2Monotone(a, b - 1);
    }
  }

  /** Waiting never shrinks as the attempt counter grows. */
  lemma DelayMonotone(a: nat, b: nat)
    requires a <= b
    ensures ReconnectDelay(a) <= ReconnectDelay(b)
  {
    if 0 < a {
      Pow2Monotone(a - 1, b - 1);
    }
  }

  /** Below the cap every retry waits twice as long as the one before. */
  lemma DelayDoubles(n: nat)
    requires 1 <= n <= 3
    ensures ReconnectDelay(n + 1) == 2 * ReconnectDelay(n)
  {
  }

  /** From the fifth retry on the delay stays at the 30-second cap. */
  lemma {:induction false} DelayCapped(n: nat)
    requires n >= 5
    ensures ReconnectDelay(n) == MaxDelayMs
  {
    Pow2Monotone(4, n - 1);
    assert Pow2(4) == 16;
  }
}

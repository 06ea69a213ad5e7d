/** Exponential backoff: the capped delay of the Redis and Kafka clients and its sums. */
module Backoff {
  function Pow2(n: nat): (r: nat)
    ensures r >= 1
  {
    if n == 0 then 1 else 2 * Pow2(n - 1)
  }

  /** `Math.min(1000 * 2 ** retries, 30000)` */
  function Delay(retries: nat): nat {
    if 1000 * Pow2(retries) <= 30000 then 1000 * Pow2(retries) else 30000
  }

  /** The time waited over the first `n` retries. */
  function TotalDelay(n: nat): nat {
    if n == 0 then 0 else TotalDelay(n - 1) + Delay(n - 1)
  }

  lemma {:induction false} Pow2Grows(m: nat, n: nat)
    requires m <= n
    ensures Pow2(m) <= Pow2(n)
  {
    if m < n { Pow2Grows(m, n - 1); }
  }

  lemma Pow2Small()
    ensures Pow2(1) == 2 && Pow2(2) == 4 && Pow2(3) == 8 && Pow2(4) == 16 && Pow2(5) == 32
  {
    assert Pow2(1) == 2 * Pow2(0) && Pow2(2) == 2 * Pow2(1) && Pow2(3) == 2 * Pow2(2);
  }

  /** The delay never shrinks, lies in [1000, 30000], and is 30000 exactly from the sixth retry on. */
  lemma DelayShape(m: nat, n: nat)
    requires m <= n
    ensures 1000 <= Delay(m) <= Delay(n) <= 30000
    ensures Delay(n) == 30000 <==> n >= 5
  {
    Pow2Grows(m, n);
    Pow2Small();
    if n >= 5 { Pow2Grows(5, n); } else { Pow2Grows(n, 4); }
  }

  /** The first five delays double; every later one adds 30000 ms. */
  lemma {:induction false} TotalDelayClosed(n: nat)
    ensures TotalDelay(n) == if n <= 5 then 1000 * (Pow2(n) - 1) else 31000 + 30000 * (n - 5)
  {
    if n > 0 {
      TotalDelayClosed(n - 1);
      DelayShape(n - 1, n - 1);
      Pow2Small();
      if n <= 5 { Pow2Grows(n - 1, 4); }
    }
  }
}

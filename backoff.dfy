/**
 * The four retry delay sequences of js/fetch.old.js (lines 86-95) and the
 * memoised Fibonacci function behind one of them (lines 131-140).
 */
module Backoff {
  import opened Wrappers

  const DEFAULT_DELAY: nat := 100
  const DEFAULT_MAX_RETRIES: nat := 12
  const FIBONACCI_CAP: nat := 1000

  /** The selectable sequences: `retry.default`, `retry.immediately`,
      `retry.fibonacci` and `retry.progressive`. */
  datatype Kind = Default | Immediately | Fibonacci | Progressive

  /** The Fibonacci numbers as the source defines them: 0 at and below 0, 1 at 1 and 2. */
  function Fib(n: int): (f: nat)
    ensures n >= 1 ==> f >= 1
    decreases if n < 0 then 0 else n
  {
    if n <= 0 then 0
    else if n <= 2 then 1
    else Fib(n - 1) + Fib(n - 2)
  }

  function Pow2(k: nat): (p: nat)
    ensures p >= 1
  {
    if k == 0 then 1 else 2 * Pow2(k - 1)
  }

  /** `__fibonacci__`: min(fib(n) * n, 1000); zero only before the first retry. */
  function FibonacciDelay(n: nat): (d: nat)
    ensures d <= FIBONACCI_CAP
    ensures d == 0 <==> n == 0
  {
    if Fib(n) * n <= FIBONACCI_CAP then Fib(n) * n else FIBONACCI_CAP
  }

  /** `__progressive__`: min(2^(n >> 2), 5) * 100, a whole number of 100 ms steps. */
  function ProgressiveDelay(n: nat): (d: nat)
    ensures 100 <= d <= 500 && d % 100 == 0
  {
    var p := Pow2(n / 4);
    (if p <= 5 then p else 5) * 100
  }

  /** The delay, in milliseconds, before retry number `n` of the given sequence:
      never more than 1000 ms, and within [100, 500] for the progressive one. */
  function Delay(kind: Kind, n: nat): (d: nat)
    ensures kind == Default ==> d == DEFAULT_DELAY
    ensures kind == Immediately ==> d == 0
    ensures d <= FIBONACCI_CAP
    ensures kind == Progressive ==> 100 <= d <= 500
    ensures kind == Fibonacci ==> (d == 0 <==> n == 0)
  {
    match kind
    case Default => DEFAULT_DELAY
    case Immediately => 0
    case Fibonacci => FibonacciDelay(n)
    case Progressive => ProgressiveDelay(n)
  }

  /** The sequence a fetch uses: the selected one, or the constant 100 ms one
      when none was ever selected (fetch.old.js:218-220). */
  function SequenceDelay(selected: Option<Kind>, n: nat): (d: nat)
    ensures d <= FIBONACCI_CAP
    ensures selected.None? ==> d == DEFAULT_DELAY
  {
    match selected
    case Some(kind) => Delay(kind, n)
    case None => DEFAULT_DELAY
  }

  lemma {:induction false} Pow2AtLeast8(k: nat)
    requires k >= 3
    ensures Pow2(k) >= 8
  {
    if k > 3 {
      Pow2AtLeast8(k - 1);
    }
  }

  /** The progressive sequence is the step function 100, 200, 400, 500. */
  lemma ProgressiveSteps(n: nat)
    ensures ProgressiveDelay(n) ==
      if n < 4 then 100 else if n < 8 then 200 else if n < 12 then 400 else 500
  {
    if n >= 12 {
      Pow2AtLeast8(n / 4);
    } else {
      assert Pow2(0) == 1 && Pow2(1) == 2 && Pow2(2) == 4;
    }
  }

  /** The progressive sequence never decreases and stays within [100, 500]. */
  lemma ProgressiveMonotone(m: nat, n: nat)
    requires m <= n
    ensures 100 <= ProgressiveDelay(m) <= ProgressiveDelay(n) <= 500
  {
    ProgressiveSteps(m);
    ProgressiveSteps(n);
  }

  lemma {:induction false} FibMonotone(m: nat, n: nat)
    requires 1 <= m <= n
    ensures 1 <= Fib(m) <= Fib(n)
  {
    if n > m {
      FibMonotone(m, n - 1);
      if n > 2 {
        assert Fib(n) == Fib(n - 1) + Fib(n - 2);
      }
    }
  }

  lemma MultiplyMonotone(a: nat, b: nat, c: nat, d: nat)
    requires a <= b && c <= d
    ensures a * c <= b * d
  {
    assert a * c <= b * c;
    assert b * c <= b * d;
  }

  lemma Fib12()
    ensures Fib(12) == 144
  {
    assert Fib(3) == 2;
    assert Fib(4) == 3;
    assert Fib(5) == 5;
    assert Fib(6) == 8;
    assert Fib(7) == 13;
    assert Fib(8) == 21;
    assert Fib(9) == 34;
    assert Fib(10) == 55;
    assert Fib(11) == 89;
  }

  /** The Fibonacci-scaled delay never decreases and reaches its cap of 1000 ms at retry 12. */
  lemma FibonacciDelayMonotone(m: nat, n: nat)
    requires m <= n
    ensures FibonacciDelay(m) <= FibonacciDelay(n) <= FIBONACCI_CAP
    ensures n >= 12 ==> FibonacciDelay(n) == FIBONACCI_CAP
  {
    if m >= 1 {
      FibMonotone(m, n);
      MultiplyMonotone(Fib(m), Fib(n), m, n);
    }
    if n >= 12 {
      FibMonotone(12, n);
      Fib12();
      MultiplyMonotone(144, Fib(n), 12, n);
    }
  }

  /**
   * The memo behind `fibonacci` (fetch.old.js:131-140): one cache per client,
   * filled as values are computed. A cached entry is used only when it is truthy.
   */
  class FibonacciMemo {
    var cache: map<int, nat>

    ghost predicate Valid()
      reads this
    {
      forall k :: k in cache ==> cache[k] == Fib(k)
    }

    constructor ()
      ensures Valid() && cache == map[]
    {
      cache := map[];
    }

    /** `fib(n)`: the same value as the plain recursion; the cache only grows. */
    method Get(n: int) returns (r: nat)
      requires Valid()
      modifies this
      ensures Valid()
      ensures r == Fib(n)
      ensures old(cache).Keys <= cache.Keys && n in cache
      decreases if n < 0 then 0 else n
    {
      if n > 0 && n in cache && cache[n] != 0 {
        return cache[n];
      }
      if n <= 0 {
        cache := cache[n := 0];
        return 0;
      }
      if n <= 2 {
        cache := cache[n := 1];
        return 1;
      }
      var a := Get(n - 1);
      var b := Get(n - 2);
      r := a + b;
      cache := cache[n := r];
    }
  }
}

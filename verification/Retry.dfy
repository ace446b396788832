/** `retry`: a bounded loop over a fallible call, with capped exponential backoff and jitter. */
module Retry {
  import opened Results

  /** How one call of the wrapped operation ends; only `Transient` errors are retryable. */
  datatype Outcome<+T> = Success(value: T) | Transient | Permanent

  function Pow2(n: nat): (p: nat)
    ensures p >= 1
  {
    if n == 0 then 1 else 2 * Pow2(n - 1)
  }

  /** `baseDelayMs * 2 ** n`, by doubling. */
  function Exponential(base: nat, n: nat): nat {
    if n == 0 then base else 2 * Exponential(base, n - 1)
  }

  function Capped(delay: nat, maxDelay: nat): nat {
    if delay <= maxDelay then delay else maxDelay
  }

  /** Full jitter: a fraction of the capped delay. */
  function Jittered(draw: real, capped: nat): (delay: nat)
    requires 0.0 <= draw < 1.0
    ensures delay <= capped
  {
    assert 0.0 <= draw * capped as real <= 1.0 * capped as real;
    (draw * capped as real).Floor
  }

  function TotalDelay(base: nat, maxDelay: nat, n: nat): nat {
    if n == 0 then 0 else TotalDelay(base, maxDelay, n - 1) + Capped(Exponential(base, n - 1), maxDelay)
  }

  /** The loop made exactly `calls` calls: it goes on past transient errors only, up to the limit. */
  predicate StopsAfter<T>(script: seq<Outcome<T>>, maxAttempts: int, calls: nat) {
    && calls <= |script|
    && calls <= (if maxAttempts > 0 then maxAttempts else 0)
    && (forall i :: 0 <= i < calls - 1 ==> script[i].Transient?)
    && (if maxAttempts <= 0 then calls == 0
        else calls > 0 && (calls == maxAttempts || !script[calls - 1].Transient?))
  }

  /** How many calls the loop makes. */
  function CallsMade<T>(script: seq<Outcome<T>>, maxAttempts: int): (calls: nat)
    requires |script| >= maxAttempts
    ensures StopsAfter(script, maxAttempts, calls)
    decreases |script|
  {
    if maxAttempts <= 0 then 0
    else if maxAttempts == 1 || !script[0].Transient? then 1
    else
      var more := CallsMade(script[1..], maxAttempts - 1);
      assert forall i :: 0 < i < more ==> script[i] == script[1..][i - 1];
      assert script[more] == script[1..][more - 1];
      1 + more
  }

  /** The first answer that is not transient ends the loop; without one it makes every attempt. */
  lemma StopsAtFirstFinal<T>(script: seq<Outcome<T>>, maxAttempts: int, k: nat)
    requires |script| >= maxAttempts && k <= maxAttempts && forall i :: 0 <= i < k ==> script[i].Transient?
    requires k < maxAttempts ==> !script[k].Transient?
    ensures CallsMade(script, maxAttempts) == if k < maxAttempts then k + 1 else k
  {
  }

  /** The delays of the first `n` backoffs, each the drawn fraction of its capped delay. */
  function JitteredTotal(draws: seq<real>, base: nat, maxDelay: nat, n: nat): nat
    requires n <= |draws| && forall i :: 0 <= i < |draws| ==> 0.0 <= draws[i] < 1.0
  {
    if n == 0 then 0
    else
      var before := JitteredTotal(draws, base, maxDelay, n - 1);
      before + Jittered(draws[n - 1], Capped(Exponential(base, n - 1), maxDelay))
  }

  /** `script[i]` is what the i-th call would return; `draws` are the values of `random()`. */
  method Retry<T>(script: seq<Outcome<T>>, maxAttempts: int, base: nat, maxDelay: nat, jitter: bool, draws: seq<real>)
    returns (result: Option<Outcome<T>>, calls: nat, slept: nat)
    requires |script| >= maxAttempts && |draws| >= maxAttempts
    requires forall i :: 0 <= i < |draws| ==> 0.0 <= draws[i] < 1.0
    ensures calls == CallsMade(script, maxAttempts)
    ensures result == if calls == 0 then None else Some(script[calls - 1])
    ensures forall i :: 0 <= i < calls && script[i].Success? ==> i == calls - 1
    ensures calls > 0 ==>
              slept == if jitter then JitteredTotal(draws, base, maxDelay, calls - 1)
                  else TotalDelay(base, maxDelay, calls - 1)
    ensures calls > 0 ==> slept <= TotalDelay(base, maxDelay, calls - 1)
    ensures calls == 0 ==> slept == 0
  {
    var attempt := 1;
    result, slept := None, 0;
    var exponential := base;
    while attempt <= maxAttempts
      invariant if maxAttempts > 0 then 1 <= attempt <= maxAttempts else attempt == 1
      invariant forall i :: 0 <= i < attempt - 1 ==> script[i].Transient?
      invariant exponential == Exponential(base, attempt - 1)
      invariant slept == if jitter then JitteredTotal(draws, base, maxDelay, attempt - 1)
                    else TotalDelay(base, maxDelay, attempt - 1)
      invariant slept <= TotalDelay(base, maxDelay, attempt - 1)
      decreases maxAttempts - attempt
    {
      result := Some(script[attempt - 1]);
      if attempt >= maxAttempts || !script[attempt - 1].Transient? {
        StopsOnce(script, maxAttempts, attempt, CallsMade(script, maxAttempts));
      }
      if script[attempt - 1].Success? {
        return result, attempt, slept;
      }
      if attempt >= maxAttempts || script[attempt - 1].Permanent? {
        return result, attempt, slept;
      }
      var capped := Capped(exponential, maxDelay);
      var delay := if jitter then Jittered(draws[attempt - 1], capped) else capped;
      slept := slept + delay;
      exponential := 2 * exponential;
      attempt := attempt + 1;
    }
    return None, 0, 0;
  }

  /** The number of calls is determined by the answers alone. */
  lemma StopsOnce<T>(script: seq<Outcome<T>>, maxAttempts: int, m: nat, n: nat)
    requires StopsAfter(script, maxAttempts, m) && StopsAfter(script, maxAttempts, n)
    ensures m == n
  {
  }

  lemma Distribute(base: nat, p: nat)
    ensures 2 * (base * p) == base * (2 * p) && base * (p - 1) + base * p == base * (2 * p - 1)
  {
  }

  lemma {:induction false} Doubling(base: nat, n: nat)
    ensures Exponential(base, n) == base * Pow2(n)
  {
    if n > 0 {
      Doubling(base, n - 1);
      Distribute(base, Pow2(n - 1));
    }
  }

  /** The delays of `n` backoffs are at most the uncapped ones. */
  lemma {:induction false} GeometricBound(base: nat, maxDelay: nat, n: nat)
    ensures TotalDelay(base, maxDelay, n) <= base * (Pow2(n) - 1)
  {
    if n > 0 {
      GeometricBound(base, maxDelay, n - 1);
      Doubling(base, n - 1);
      Distribute(base, Pow2(n - 1));
    }
  }

  lemma OneMore(n: nat, d: nat)
    requires n > 0
    ensures (n - 1) * d + d == n * d
  {
  }

  /** And at most the cap each. */
  lemma {:induction false} LinearBound(base: nat, maxDelay: nat, n: nat)
    ensures TotalDelay(base, maxDelay, n) <= n * maxDelay
  {
    if n > 0 {
      LinearBound(base, maxDelay, n - 1);
      OneMore(n, maxDelay);
    }
  }

  /** A run of `n` attempts sleeps at most min(base * (2^(n-1) - 1), (n-1) * maxDelay). */
  lemma BackoffBound(base: nat, maxDelay: nat, n: nat)
    requires n > 0
    ensures TotalDelay(base, maxDelay, n - 1) <= base * (Pow2(n - 1) - 1)
    ensures TotalDelay(base, maxDelay, n - 1) <= (n - 1) * maxDelay
  {
    GeometricBound(base, maxDelay, n - 1);
    LinearBound(base, maxDelay, n - 1);
  }

  lemma {:induction false} Pow2Grows(m: nat, n: nat)
    requires m <= n
    ensures Pow2(m) <= Pow2(n)
    decreases n - m
  {
    if m < n {
      Pow2Grows(m, n - 1);
    }
  }

  lemma ScaledGrows(base: nat, p: nat, q: nat)
    requires p <= q
    ensures base * p <= base * q
  {
  }

  /**
   The exact delay of `n` backoffs without jitter: `k` of them double from `base` up to the cap, and each of
   the others is the cap.
   */
  lemma {:induction false} BackoffExact(base: nat, maxDelay: nat, n: nat, k: nat)
    requires k <= n
    requires k > 0 ==> base * Pow2(k - 1) <= maxDelay
    requires k < n ==> base * Pow2(k) >= maxDelay
    ensures TotalDelay(base, maxDelay, n) == base * (Pow2(k) - 1) + (n - k) * maxDelay
    decreases n
  {
    if n > 0 {
      Doubling(base, n - 1);
      if k == n {
        if n > 1 {
          Pow2Grows(n - 2, n - 1);
          ScaledGrows(base, Pow2(n - 2), Pow2(n - 1));
        }
        BackoffExact(base, maxDelay, n - 1, n - 1);
        Distribute(base, Pow2(n - 1));
      } else {
        BackoffExact(base, maxDelay, n - 1, k);
        Pow2Grows(k, n - 1);
        ScaledGrows(base, Pow2(k), Pow2(n - 1));
        OneMore(n - k, maxDelay);
      }
    }
  }

  /** Full jitter reaches every delay below the cap, each from the draws of one interval, and never the cap. */
  lemma JitterIsUniform(capped: nat, delay: nat, draw: real)
    requires 0.0 <= draw < 1.0
    ensures Jittered(draw, capped) == delay <==>
            if capped == 0 then delay == 0
            else delay as real / capped as real <= draw < (delay + 1) as real / capped as real
    ensures capped > 0 ==> Jittered(draw, capped) < capped
  {
    if capped > 0 {
      var c := capped as real;
      DivideBy(delay as real, draw, c);
      DivideBy((delay + 1) as real, draw, c);
      assert draw * c < 1.0 * c;
    }
  }

  lemma DivideBy(a: real, b: real, c: real)
    requires c > 0.0
    ensures a / c <= b <==> a <= b * c
  {
    assert a == a / c * c;
    if a / c <= b {
      assert (b - a / c) * c >= 0.0;
    } else {
      assert (a / c - b) * c > 0.0;
    }
  }
}

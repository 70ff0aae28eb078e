/**
 Bounded retries with exponential backoff and jitter (lib/condukt/retry.ex).

 What the call returns, whether anything was emitted, how an error is classified, what the
 wait returns and which jitter is drawn on the k-th attempt are arbitrary functions of k.
 */
module Retry {

  datatype Result = Value(value: int) | Error(reason: int)

  datatype Policy = Policy(maxAttempts: int, baseDelay: nat, maxDelay: nat)

  /** The world the loop runs in, by attempt number. */
  datatype World = World(
    call: nat -> Result,
    emitted: nat -> bool,
    retryable: (nat, int) -> bool,   // the classifier's answer for the error of an attempt
    interrupted: nat -> bool,        // the wait stops the loop
    interruption: nat -> int,
    draw: nat -> nat)                // the random draw, reduced to the jitter's range

  /** The result, the number of calls made, and the delays waited for, in order. */
  datatype Outcome = Outcome(result: Result, calls: nat, waits: seq<nat>)

  function Pow2(n: nat): (p: nat)
    ensures p >= 1
  {
    if n == 0 then 1 else 2 * Pow2(n - 1)
  }

  function Min(a: nat, b: nat): nat { if a <= b then a else b }

  function Delay(p: Policy, attempt: nat): nat
    requires attempt >= 1
  {
    Min(p.baseDelay * Pow2(attempt - 1), p.maxDelay)
  }

  /** The capped exponential delay plus a uniform jitter of at most half of it. */
  function Backoff(p: Policy, w: World, attempt: nat): nat
    requires attempt >= 1
  {
    Delay(p, attempt) + w.draw(attempt) % (Delay(p, attempt) / 2 + 1)
  }

  /** The attempt failed in a way that leads to another one, wait permitting. */
  predicate RetriesAfter(p: Policy, w: World, attempt: nat) {
    && w.call(attempt).Error? && attempt < p.maxAttempts
    && !w.emitted(attempt) && w.retryable(attempt, w.call(attempt).reason)
  }

  function Attempt(p: Policy, w: World, attempt: nat): Outcome
    requires attempt >= 1
    decreases p.maxAttempts - attempt
  {
    var result := w.call(attempt);
    if !RetriesAfter(p, w, attempt) then Outcome(result, 1, [])
    else
      var delay := Backoff(p, w, attempt);
      if w.interrupted(attempt) then Outcome(Error(w.interruption(attempt)), 1, [delay])
      else
        var rest := Attempt(p, w, attempt + 1);
        Outcome(rest.result, 1 + rest.calls, [delay] + rest.waits)
  }

  function WithRetry(p: Policy, w: World): Outcome { Attempt(p, w, 1) }

  // ------------------------------------------------------------------ theorems

  /** From attempt k on: how many calls, up to which attempt, why each but the last was
      followed by another, and what the result is. */
  predicate Explained(p: Policy, w: World, k: nat, o: Outcome)
    requires k >= 1
  {
    && 1 <= o.calls
    && var last := k + o.calls - 1;
       && (last == k || last <= p.maxAttempts)
       && (forall i :: k <= i < last ==> RetriesAfter(p, w, i) && !w.interrupted(i))
       && (if RetriesAfter(p, w, last)
           then w.interrupted(last) && o.result == Error(w.interruption(last)) && |o.waits| == o.calls
           else o.result == w.call(last) && |o.waits| == o.calls - 1)
       && (forall i :: 0 <= i < |o.waits| ==> o.waits[i] == Backoff(p, w, k + i))
  }

  lemma {:induction false} AttemptExplained(p: Policy, w: World, k: nat)
    requires k >= 1
    ensures Explained(p, w, k, Attempt(p, w, k))
    decreases p.maxAttempts - k
  {
    if !RetriesAfter(p, w, k) || w.interrupted(k) {
    } else {
      AttemptExplained(p, w, k + 1);
      var rest := Attempt(p, w, k + 1);
      forall i | 0 <= i < |rest.waits| + 1
        ensures ([Backoff(p, w, k)] + rest.waits)[i] == Backoff(p, w, k + i)
      {
        if i > 0 { assert rest.waits[i - 1] == Backoff(p, w, k + 1 + (i - 1)); }
      }
    }
  }

  /** The function is called at least once and at most max(1, max_attempts) times; every call
      but the last failed retryably with nothing emitted; the result is the last call's, or
      the interruption of the wait that followed it. */
  lemma CallsAreBoundedAndJustified(p: Policy, w: World)
    ensures var o := WithRetry(p, w);
            && 1 <= o.calls <= (if p.maxAttempts > 1 then p.maxAttempts else 1)
            && (forall i :: 1 <= i < o.calls ==>
                  w.call(i).Error? && !w.emitted(i) && w.retryable(i, w.call(i).reason) && !w.interrupted(i))
            && (o.result == w.call(o.calls)
                || (w.interrupted(o.calls) && o.result == Error(w.interruption(o.calls))))
            && (p.maxAttempts <= 1 ==> o.waits == [])
            && (o.calls < p.maxAttempts ==>
                  || w.call(o.calls).Value? || w.emitted(o.calls)
                  || !w.retryable(o.calls, w.call(o.calls).reason) || w.interrupted(o.calls))
            && (w.call(o.calls).Value? ==> o.result == w.call(o.calls))
  {
    AttemptExplained(p, w, 1);
    var o := WithRetry(p, w);
    forall i | 1 <= i < o.calls
      ensures w.call(i).Error? && !w.emitted(i) && w.retryable(i, w.call(i).reason) && !w.interrupted(i)
    {
      assert RetriesAfter(p, w, i);
    }
  }

  lemma JitterInRange(least: nat, draw: nat)
    ensures var jitter := draw % (least / 2 + 1);
            2 * jitter <= least && (draw <= least / 2 ==> jitter == draw)
  {
  }

  /** After attempt k the loop waits at least min(base * 2^(k-1), max_delay) and at most half
      of that more; every whole number in between can be drawn. */
  lemma WaitsAreInRange(p: Policy, w: World, k: nat)
    requires 1 <= k <= |WithRetry(p, w).waits|
    ensures var wait, b := WithRetry(p, w).waits[k - 1], p.baseDelay * Pow2(k - 1);
            var least := if b <= p.maxDelay then b else p.maxDelay;
            && least <= wait && 2 * wait <= 3 * least
            && (w.draw(k) <= least / 2 ==> wait == least + w.draw(k))
  {
    AttemptExplained(p, w, 1);
    assert WithRetry(p, w).waits[k - 1] == Backoff(p, w, 1 + (k - 1));
    JitterInRange(Delay(p, k), w.draw(k));
  }

  /** There is a wait after each call but the last, and after the last one only if that wait
      was interrupted. */
  lemma OneWaitBetweenCalls(p: Policy, w: World)
    ensures var o := WithRetry(p, w);
            |o.waits| == o.calls - 1 || (|o.waits| == o.calls && w.interrupted(o.calls))
  {
    AttemptExplained(p, w, 1);
  }

  function Sum(s: seq<nat>): nat { if s == [] then 0 else s[0] + Sum(s[1..]) }

  lemma {:induction false} SumOfCons(x: nat, s: seq<nat>)
    ensures Sum([x] + s) == x + Sum(s)
  {
    assert ([x] + s)[1..] == s;
  }

  /** One wait is at most one and a half times its delay, which both caps bound. */
  lemma BackoffBounded(p: Policy, w: World, k: nat)
    requires k >= 1
    ensures 2 * Backoff(p, w, k) <= 3 * (p.baseDelay * Pow2(k - 1))
    ensures 2 * Backoff(p, w, k) <= 3 * p.maxDelay
  {
  }

  lemma GeometricStep(b: nat, n: nat, k: nat)
    requires 1 <= k < n
    ensures Pow2(k) <= Pow2(n - 1) && b * (Pow2(n - 1) - Pow2(k)) >= 0
    ensures b * (Pow2(n - 1) - Pow2(k - 1)) == b * (Pow2(n - 1) - Pow2(k)) + b * Pow2(k - 1)
  {
    Pow2Monotone(k, n - 1);
    var x, y := Pow2(n - 1), Pow2(k - 1);
    assert b * (x - 2 * y) + b * y == b * (x - y);
  }

  lemma LinearStep(m: nat, n: nat, k: nat)
    requires 1 <= k < n
    ensures (n - (k + 1)) * m >= 0 && (n - k) * m == (n - (k + 1)) * m + m
  {
  }

  /** The uncapped delays from attempt k up to the last but one of n. */
  function Delays(b: nat, k: nat, n: nat): nat
    requires 1 <= k <= n
    decreases n - k
  {
    if k == n then 0 else b * Pow2(k - 1) + Delays(b, k + 1, n)
  }

  lemma {:induction false} DelaysClosed(b: nat, k: nat, n: nat)
    requires 1 <= k <= n
    ensures Delays(b, k, n) == b * (Pow2(n - 1) - Pow2(k - 1))
    decreases n - k
  {
    if k == n {
    } else {
      DelaysClosed(b, k + 1, n);
      GeometricStep(b, n, k);
    }
  }

  lemma RetryWaits(p: Policy, w: World, k: nat)
    requires k >= 1 && RetriesAfter(p, w, k)
    ensures Sum(Attempt(p, w, k).waits)
            == Backoff(p, w, k) + if w.interrupted(k) then 0 else Sum(Attempt(p, w, k + 1).waits)
  {
    SumOfCons(Backoff(p, w, k), if w.interrupted(k) then [] else Attempt(p, w, k + 1).waits);
  }

  /** Twice the total wait from attempt k on is at most three times the geometric bound. */
  lemma {:induction false} WaitsGeometric(p: Policy, w: World, k: nat)
    requires 1 <= k <= p.maxAttempts
    ensures 2 * Sum(Attempt(p, w, k).waits) <= 3 * Delays(p.baseDelay, k, p.maxAttempts)
    decreases p.maxAttempts - k
  {
    if !RetriesAfter(p, w, k) {
    } else {
      BackoffBounded(p, w, k);
      RetryWaits(p, w, k);
      if !w.interrupted(k) { WaitsGeometric(p, w, k + 1); }
    }
  }

  /** The cap, once for each attempt from k up to the last but one of n. */
  function Caps(m: nat, k: nat, n: nat): nat
    requires 1 <= k <= n
    decreases n - k
  {
    if k == n then 0 else m + Caps(m, k + 1, n)
  }

  lemma {:induction false} CapsClosed(m: nat, k: nat, n: nat)
    requires 1 <= k <= n
    ensures Caps(m, k, n) == (n - k) * m
    decreases n - k
  {
    if k == n {
    } else {
      CapsClosed(m, k + 1, n);
      LinearStep(m, n, k);
    }
  }

  /** ... and three times the linear one. */
  lemma {:induction false} WaitsLinear(p: Policy, w: World, k: nat)
    requires 1 <= k <= p.maxAttempts
    ensures 2 * Sum(Attempt(p, w, k).waits) <= 3 * Caps(p.maxDelay, k, p.maxAttempts)
    decreases p.maxAttempts - k
  {
    if !RetriesAfter(p, w, k) {
    } else {
      BackoffBounded(p, w, k);
      RetryWaits(p, w, k);
      if !w.interrupted(k) { WaitsLinear(p, w, k + 1); }
    }
  }

  lemma {:induction false} Pow2Monotone(a: nat, b: nat)
    requires a <= b
    ensures Pow2(a) <= Pow2(b)
  {
    if a == b {
    } else {
      Pow2Monotone(a, b - 1);
    }
  }

  /** With n attempts allowed, the loop waits in total at most one and a half times the
      smaller of base * (2^(n-1) - 1) and (n - 1) * max_delay. */
  lemma TotalWaitBounded(p: Policy, w: World)
    requires p.maxAttempts >= 1
    ensures var total := Sum(WithRetry(p, w).waits);
            && 2 * total <= 3 * (p.baseDelay * (Pow2(p.maxAttempts - 1) - 1))
            && 2 * total <= 3 * ((p.maxAttempts - 1) * p.maxDelay)
  {
    WaitsGeometric(p, w, 1);
    DelaysClosed(p.baseDelay, 1, p.maxAttempts);
    WaitsLinear(p, w, 1);
    CapsClosed(p.maxDelay, 1, p.maxAttempts);
  }
}

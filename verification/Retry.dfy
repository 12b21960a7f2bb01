/** Capped exponential backoff. Delays are nanoseconds; the multiplier is an exact real. */
module Retry {
  import opened Options

  const SECOND: int := 1_000_000_000

  datatype RetryOptions = RetryOptions(maxAttempts: int, initialDelay: int, maxDelay: int, multiplier: real)

  /** Non-positive settings mean the defaults. */
  function WithDefaults(o: RetryOptions): RetryOptions {
    RetryOptions(
      if o.maxAttempts <= 0 then 3 else o.maxAttempts,
      if o.initialDelay <= 0 then SECOND else o.initialDelay,
      if o.maxDelay <= 0 then 30 * SECOND else o.maxDelay,
      if o.multiplier <= 0.0 then 2.0 else o.multiplier)
  }

  /** The options in use: positive ones as given, else 3 attempts, a delay of 1 s, a cap of 30 s, doubling. */
  predicate IsUsed(given: RetryOptions, used: RetryOptions) {
    && used.maxAttempts == (if given.maxAttempts > 0 then given.maxAttempts else 3)
    && used.initialDelay == (if given.initialDelay > 0 then given.initialDelay else 1_000_000_000)
    && used.maxDelay == (if given.maxDelay > 0 then given.maxDelay else 30_000_000_000)
    && used.multiplier == (if given.multiplier > 0.0 then given.multiplier else 2.0)
  }

  /** One call of the operation: its error if it failed, whether that may be retried, whether the sleep is cut. */
  datatype Try = Try(error: Option<string>, retryable: bool, sleepCut: bool)

  datatype Result = Success | Failed(error: string) | Interrupted(error: string)

  /** `time.Duration(float64(delay) * multiplier)`, capped; conversion truncates. */
  function NextDelay(delay: int, o: RetryOptions): int {
    var next := (delay as real * o.multiplier).Floor;
    if next > o.maxDelay then o.maxDelay else next
  }

  /** The k-th delay, counting from 1. */
  function Delay(o: RetryOptions, k: nat): int
    requires k >= 1
  {
    if k == 1 then o.initialDelay else NextDelay(Delay(o, k - 1), o)
  }

  /** Call `k` of `tries` is the last one made: nothing after it runs. */
  predicate Ends(o: RetryOptions, tries: seq<Try>, k: nat)
    requires 1 <= k <= |tries|
  {
    var t := tries[k - 1];
    t.error.None? || !t.retryable || k == o.maxAttempts || t.sleepCut
  }

  /** How the loop ends at call `k`. */
  function ResultAt(o: RetryOptions, tries: seq<Try>, k: nat): Result
    requires 1 <= k <= |tries|
  {
    var t := tries[k - 1];
    if t.error.None? then Success
    else if !t.retryable || k == o.maxAttempts then Failed(t.error.value)
    else Interrupted(t.error.value)
  }

  /**
   Run the operation until it succeeds, fails for good, is interrupted, or has been tried often enough.
   `tries[k]` is what call k + 1 would meet. Returns how it ended, the number of calls, and the delays slept.
   */
  method Do(opts: RetryOptions, tries: seq<Try>)
    returns (result: Result, calls: nat, delays: seq<int>, o: RetryOptions)
    requires |tries| >= WithDefaults(opts).maxAttempts
    ensures IsUsed(opts, o)
    ensures && 1 <= calls <= o.maxAttempts
            && Ends(o, tries, calls) && (forall k :: 1 <= k < calls ==> !Ends(o, tries, k))
            && result == ResultAt(o, tries, calls)
            && (result == Success <==> tries[calls - 1].error.None?)
            && |delays| == (if result.Interrupted? then calls else calls - 1)
            && forall k :: 0 <= k < |delays| ==> delays[k] == Delay(o, k + 1)
    ensures forall k :: 0 <= k < calls - 1 ==> tries[k].error.Some? && tries[k].retryable && !tries[k].sleepCut
    ensures var last := tries[calls - 1];
            match result
            case Success => true
            case Failed(e) => last.error == Some(e) && (!last.retryable || calls == o.maxAttempts)
            case Interrupted(e) => last.error == Some(e) && last.retryable && calls < o.maxAttempts && last.sleepCut
  {
    o := WithDefaults(opts);
    var delay := o.initialDelay;
    var lastErr := "";
    calls, delays := 0, [];
    while calls < o.maxAttempts
      invariant o == WithDefaults(opts) && 0 <= calls < o.maxAttempts && |delays| == calls
      invariant delay == Delay(o, calls + 1)
      invariant forall k :: 1 <= k <= calls ==> !Ends(o, tries, k)
      invariant forall k :: 0 <= k < calls ==> tries[k].error.Some? && tries[k].retryable && !tries[k].sleepCut
      invariant forall k :: 0 <= k < |delays| ==> delays[k] == Delay(o, k + 1)
    {
      var t := tries[calls];
      calls := calls + 1;
      if t.error.None? {
        return Success, calls, delays, o;
      }
      lastErr := t.error.value;
      if !t.retryable {
        return Failed(lastErr), calls, delays, o;
      }
      if calls == o.maxAttempts {
        break;
      }
      delays := delays + [delay];
      if t.sleepCut {
        return Interrupted(lastErr), calls, delays, o;
      }
      delay := NextDelay(delay, o);
    }
    return Failed(lastErr), calls, delays, o;
  }

  function Power(m: nat, k: nat): nat {
    if k == 0 then 1 else m * Power(m, k - 1)
  }

  function Min(a: int, b: int): int {
    if a <= b then a else b
  }

  lemma NextDelayWhole(delay: int, o: RetryOptions, m: nat)
    requires o.multiplier == m as real
    ensures NextDelay(delay, o) == Min(delay * m, o.maxDelay)
  {
    assert delay as real * m as real == (delay * m) as real;
  }

  lemma CapAbsorbs(x: nat, m: nat, max: nat)
    requires m >= 1
    ensures Min(Min(x, max) * m, max) == Min(x * m, max)
  {
    if x > max {
      assert max * m >= max && x * m >= max;
    }
  }

  lemma PowerStep(i: nat, m: nat, k: nat)
    ensures i * Power(m, k + 1) == i * Power(m, k) * m
  {
    assert i * (m * Power(m, k)) == i * Power(m, k) * m;
  }

  /** With a whole multiplier the delays after the first are the capped powers; the first is never capped. */
  lemma {:induction false} DelayClosedForm(o: RetryOptions, m: nat, k: nat)
    requires o.multiplier == m as real && m >= 1 && o.initialDelay > 0 && o.maxDelay > 0 && k >= 1
    ensures Delay(o, k) == if k == 1 then o.initialDelay else Min(o.initialDelay * Power(m, k - 1), o.maxDelay)
  {
    if k > 1 {
      DelayClosedForm(o, m, k - 1);
      NextDelayWhole(Delay(o, k - 1), o, m);
      PowerStep(o.initialDelay, m, k - 2);
      if k > 2 {
        CapAbsorbs(o.initialDelay * Power(m, k - 2), m, o.maxDelay);
      }
    }
  }

  /** So all delays are capped powers exactly if the initial delay does not exceed the cap. */
  lemma CappedFromTheStart(o: RetryOptions, m: nat)
    requires o.multiplier == m as real && m >= 1 && o.initialDelay > 0 && o.maxDelay > 0
    ensures (forall k :: k >= 1 ==> Delay(o, k) == Min(o.initialDelay * Power(m, k - 1), o.maxDelay)) <==>
            o.initialDelay <= o.maxDelay
  {
    forall k | k >= 1
      ensures Delay(o, k) == if k == 1 then o.initialDelay else Min(o.initialDelay * Power(m, k - 1), o.maxDelay)
    {
      DelayClosedForm(o, m, k);
    }
    assert Power(m, 0) == 1;
    if o.initialDelay > o.maxDelay {
      assert Delay(o, 1) != Min(o.initialDelay * Power(m, 1 - 1), o.maxDelay);
    }
  }

  lemma FloorMeaning(x: real)
    ensures x.Floor as real <= x < x.Floor as real + 1.0
    ensures x >= 0.0 ==> x.Floor >= 0
  {
  }

  /** One step of the delays: the product rounded down, or the cap. */
  lemma NextDelayMeaning(delay: int, o: RetryOptions, product: real)
    requires product == delay as real * o.multiplier && product >= 0.0 && o.maxDelay > 0
    ensures var next := NextDelay(delay, o);
            && 0 <= next <= o.maxDelay
            && (next < o.maxDelay ==> next as real <= product < next as real + 1.0)
  {
    FloorMeaning(product);
  }

  lemma ProductNotNegative(a: real, b: real)
    requires a >= 0.0 && b >= 0.0
    ensures a * b >= 0.0
  {
  }

  lemma LaterDelay(o: RetryOptions, before: int, later: int)
    requires o.multiplier > 0.0 && o.maxDelay > 0 && before >= 0 && later == NextDelay(before, o)
    ensures 0 <= later <= o.maxDelay
    ensures later < o.maxDelay ==> later as real <= before as real * o.multiplier < later as real + 1.0
  {
    ProductNotNegative(before as real, o.multiplier);
    NextDelayMeaning(before, o, before as real * o.multiplier);
  }

  lemma {:induction false} DelaysInRange(o: RetryOptions, k: nat)
    requires o.multiplier > 0.0 && o.initialDelay > 0 && o.maxDelay > 0 && k >= 1
    ensures Delay(o, k) >= 0 && (k > 1 ==> Delay(o, k) <= o.maxDelay)
  {
    if k > 1 {
      DelaysInRange(o, k - 1);
      LaterDelay(o, Delay(o, k - 1), Delay(o, k));
    }
  }

  /** Whatever the multiplier, every delay after the first is within the cap, and none is negative. */
  lemma DelaysCapped(o: RetryOptions, k: nat)
    requires o.multiplier > 0.0 && o.initialDelay > 0 && o.maxDelay > 0 && k >= 1
    ensures Delay(o, k) >= 0 && (k > 1 ==> Delay(o, k) <= o.maxDelay)
    ensures k > 1 && Delay(o, k) < o.maxDelay ==>
              Delay(o, k) as real <= Delay(o, k - 1) as real * o.multiplier < Delay(o, k) as real + 1.0
  {
    DelaysInRange(o, k);
    if k > 1 {
      DelaysInRange(o, k - 1);
      LaterDelay(o, Delay(o, k - 1), Delay(o, k));
    }
  }
}

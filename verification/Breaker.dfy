/** The webhook sender: up to three attempts per delivery behind a circuit breaker shared by all deliveries. */
module Breakers {
  import opened Options

  datatype Breaker = Breaker(failures: nat, lastFailure: int, open: bool, maxFailures: nat, resetTimeout: int)

  /** The breaker as a delivery finds it: an open one is closed again once the reset timeout has passed. */
  function Check(b: Breaker, now: int): Breaker {
    if b.open && now - b.lastFailure >= b.resetTimeout then b.(open := false, failures := 0) else b
  }

  function Fail(b: Breaker, now: int): Breaker {
    var n := b.failures + 1;
    b.(failures := n, lastFailure := now, open := b.open || n >= b.maxFailures)
  }

  function Succeed(b: Breaker): Breaker {
    b.(failures := 0, open := false)
  }

  /** The breaker is open exactly if the threshold has been reached. */
  predicate Consistent(b: Breaker) {
    b.maxFailures > 0 && (b.open <==> b.failures >= b.maxFailures)
  }

  // ---------------------------------------------------------------- one delivery

  datatype Reply = TransportError | Status(code: int)

  /** What one attempt meets: a cancelled context, a request that cannot be built, or an answer at time `at`. */
  datatype Attempt = Cancelled | Unbuildable | Answered(reply: Reply, at: int)

  datatype Result = NoURL | CircuitOpen | Unmarshallable | Stopped | BadRequest | Delivered | Refused | Exhausted

  predicate IsSuccess(r: Reply) {
    r.Status? && 200 <= r.code < 300
  }

  /** Transport errors and 5xx answers are failures, and the only reason for another attempt. */
  predicate IsFailure(r: Reply) {
    r.TransportError? || r.code >= 500
  }

  const ATTEMPTS := 3

  /** How the attempts of a delivery end, and how many requests have been made by then, from attempt `k` on. */
  function Fate(met: seq<Attempt>, k: nat): (Result, nat)
    requires |met| == ATTEMPTS && k <= ATTEMPTS
    decreases ATTEMPTS - k
  {
    if k == ATTEMPTS then (Exhausted, k)
    else
      match met[k]
      case Cancelled => (Stopped, k)
      case Unbuildable => (BadRequest, k)
      case Answered(reply, _) =>
        if IsSuccess(reply) then (Delivered, k + 1)
        else if IsFailure(reply) then Fate(met, k + 1)
        else (Refused, k + 1)
  }

  /** How many of the requests count as failures: all, unless the last one was delivered or refused. */
  function Failed(result: Result, requests: nat): int {
    if result == Delivered || result == Refused then requests - 1 else requests
  }

  predicate FailedAt(met: seq<Attempt>, j: nat)
    requires j < |met|
  {
    met[j].Answered? && (met[j].reply.TransportError? || met[j].reply.code >= 500)
  }

  /**
   The attempts made: at most three. Those that count as failures come first and are exactly the failures
   met; the delivery succeeds exactly if the request after them does, and gives up only after three failures.
   */
  lemma {:induction false} FateMeaning(met: seq<Attempt>, k: nat)
    requires |met| == ATTEMPTS && k <= ATTEMPTS
    ensures var (result, requests) := Fate(met, k);
            var failed := Failed(result, requests);
            && k <= failed <= requests <= 3
            && (forall j :: k <= j < failed ==> FailedAt(met, j))
            && (failed < 3 ==> !FailedAt(met, failed))
            && (result == Delivered <==>
                  failed < 3 && met[failed].Answered? && met[failed].reply.Status? &&
                  200 <= met[failed].reply.code < 300)
            && (result == Exhausted <==> failed == 3)
            && result != CircuitOpen
            && (requests > failed <==> failed < 3 && met[failed].Answered?)
            && (result == Stopped <==> failed < 3 && met[failed].Cancelled?)
            && (result == Refused <==>
                  failed < 3 && met[failed].Answered? && met[failed].reply.Status? &&
                  !(200 <= met[failed].reply.code < 300) && met[failed].reply.code < 500)
    decreases ATTEMPTS - k
  {
    if k < ATTEMPTS && FailedAt(met, k) {
      FateMeaning(met, k + 1);
    }
  }

  // ---------------------------------------------------------------- many deliveries at once

  /** Deliveries run in |left| slots; `left[i]` is how many attempts slot i can still make, 0 when idle. */
  datatype Shared = Shared(breaker: Breaker, left: seq<nat>)

  datatype Event =
    | Start(i: nat, now: int)     // a delivery passes the breaker check, or is turned away
    | Failure(i: nat, now: int)   // an attempt fails
    | Success(i: nat)
    | Quit(i: nat)                // cancelled, refused, not marshallable or not buildable

  predicate CanStep(s: Shared, e: Event) {
    match e
    case Start(i, _) => i < |s.left| && s.left[i] == 0
    case _ => e.i < |s.left| && s.left[e.i] > 0
  }

  function Step(s: Shared, e: Event): Shared
    requires CanStep(s, e)
  {
    match e
    case Start(i, now) =>
      var b := Check(s.breaker, now);
      Shared(b, if b.open then s.left else s.left[i := ATTEMPTS])
    case Failure(i, now) => Shared(Fail(s.breaker, now), s.left[i := s.left[i] - 1])
    case Success(i) => Shared(Succeed(s.breaker), s.left[i := 0])
    case Quit(i) => s.(left := s.left[i := 0])
  }

  predicate CanRun(s: Shared, es: seq<Event>)
    decreases |es|, 0
  {
    es == [] || (CanRun(s, es[..|es| - 1]) && CanStep(After(s, es[..|es| - 1]), es[|es| - 1]))
  }

  function After(s: Shared, es: seq<Event>): Shared
    requires CanRun(s, es)
    decreases |es|, 1
  {
    if es == [] then s else Step(After(s, es[..|es| - 1]), es[|es| - 1])
  }

  function Sum(s: seq<nat>): nat {
    if s == [] then 0 else Sum(s[..|s| - 1]) + s[|s| - 1]
  }

  lemma {:induction false} SumUpdate(s: seq<nat>, i: nat, v: nat)
    requires i < |s|
    ensures Sum(s[i := v]) == Sum(s) - s[i] + v
  {
    var t := s[i := v];
    if i == |s| - 1 {
      assert t[..|t| - 1] == s[..|s| - 1];
    } else {
      assert t[..|t| - 1] == s[..|s| - 1][i := v];
      SumUpdate(s[..|s| - 1], i, v);
    }
  }

  lemma {:induction false} SumBound(s: seq<nat>, v: nat)
    requires forall i :: 0 <= i < |s| ==> s[i] <= v
    ensures Sum(s) <= v * |s|
  {
    if s != [] {
      SumBound(s[..|s| - 1], v);
      assert v * |s| == v * (|s| - 1) + v;
    }
  }

  function Idle(n: nat): seq<nat> {
    seq(n, _ => 0)
  }

  /** A fresh breaker with room for `n` deliveries at once. */
  function Fresh(maxFailures: nat, resetTimeout: int, n: nat): Shared {
    Shared(Breaker(0, 0, false, maxFailures, resetTimeout), Idle(n))
  }

  predicate Inv(s: Shared, maxFailures: nat, n: nat) {
    && Consistent(s.breaker) && s.breaker.maxFailures == maxFailures && |s.left| == n
    && (forall i :: 0 <= i < n ==> s.left[i] <= ATTEMPTS)
    && s.breaker.failures + Sum(s.left) <= maxFailures - 1 + ATTEMPTS * n
  }

  lemma InvStep(s: Shared, e: Event, maxFailures: nat, n: nat)
    requires Inv(s, maxFailures, n) && CanStep(s, e)
    ensures Inv(Step(s, e), maxFailures, n)
  {
    match e
    case Start(i, now) =>
      SumBound(Step(s, e).left, ATTEMPTS);
    case Failure(i, now) => SumUpdate(s.left, i, s.left[i] - 1);
    case Success(i) => SumUpdate(s.left, i, 0);
    case Quit(i) => SumUpdate(s.left, i, 0);
  }

  /** With at most `n` deliveries at once: open iff at the threshold, and never more than 3n past it minus one. */
  lemma {:induction false} FailuresBounded(maxFailures: nat, resetTimeout: int, n: nat, es: seq<Event>)
    requires maxFailures > 0 && CanRun(Fresh(maxFailures, resetTimeout, n), es)
    ensures Inv(After(Fresh(maxFailures, resetTimeout, n), es), maxFailures, n)
    ensures var b := After(Fresh(maxFailures, resetTimeout, n), es).breaker;
            && (b.open <==> b.failures >= maxFailures)
            && b.failures <= maxFailures - 1 + 3 * n
  {
    var s := Fresh(maxFailures, resetTimeout, n);
    if es == [] {
      SumBound(s.left, 0);
    } else {
      FailuresBounded(maxFailures, resetTimeout, n, es[..|es| - 1]);
      InvStep(After(s, es[..|es| - 1]), es[|es| - 1], maxFailures, n);
    }
  }

  // ---------------------------------------------------------------- what the breaker remembers

  /** The time of the latest failure. */
  function LatestFailure(es: seq<Event>): int {
    if es == [] then 0
    else if es[|es| - 1].Failure? then es[|es| - 1].now
    else LatestFailure(es[..|es| - 1])
  }

  /**
   Failures in a row, from the events alone: a success ends the row, and so does a delivery that comes when the row
   has reached the threshold and its latest failure is `timeout` or longer ago.
   */
  function Streak(es: seq<Event>, threshold: nat, timeout: int): nat {
    if es == [] then 0
    else
      var init, e := es[..|es| - 1], es[|es| - 1];
      match e
      case Failure(_, _) => Streak(init, threshold, timeout) + 1
      case Success(_) => 0
      case Quit(_) => Streak(init, threshold, timeout)
      case Start(_, now) =>
        if Streak(init, threshold, timeout) >= threshold && now - LatestFailure(init) >= timeout then 0
        else Streak(init, threshold, timeout)
  }

  /** A delivery coming now is turned away: the row is at the threshold, and its latest failure not `timeout` ago. */
  predicate TurnsAway(es: seq<Event>, threshold: nat, timeout: int, now: int) {
    Streak(es, threshold, timeout) >= threshold && now - LatestFailure(es) < timeout
  }

  /** Over all runs the breaker's fields are what the events say. */
  lemma {:induction false} BreakerMeaning(maxFailures: nat, resetTimeout: int, n: nat, es: seq<Event>)
    requires maxFailures > 0 && CanRun(Fresh(maxFailures, resetTimeout, n), es)
    ensures var b := After(Fresh(maxFailures, resetTimeout, n), es).breaker;
            && b.failures == Streak(es, maxFailures, resetTimeout)
            && b.lastFailure == LatestFailure(es)
            && (b.open <==> Streak(es, maxFailures, resetTimeout) >= maxFailures)
            && b.maxFailures == maxFailures && b.resetTimeout == resetTimeout
  {
    if es != [] {
      var init := es[..|es| - 1];
      BreakerMeaning(maxFailures, resetTimeout, n, init);
    }
  }

  /**
   Over all runs a delivery that comes is turned away, without an attempt to make, exactly if there have been as many
   failures in a row as the threshold and the latest is less than the reset timeout ago; otherwise it has three.
   */
  lemma TurnedAwayExactly(maxFailures: nat, resetTimeout: int, n: nat, es: seq<Event>, i: nat, now: int)
    requires maxFailures > 0 && CanRun(Fresh(maxFailures, resetTimeout, n), es)
    requires CanStep(After(Fresh(maxFailures, resetTimeout, n), es), Start(i, now))
    ensures Step(After(Fresh(maxFailures, resetTimeout, n), es), Start(i, now)).left[i] ==
            if TurnsAway(es, maxFailures, resetTimeout, now) then 0 else 3
  {
    BreakerMeaning(maxFailures, resetTimeout, n, es);
  }

  // ---------------------------------------------------------------- the sender

  lemma SlotsStay(s: Shared, e: Event)
    requires CanStep(s, e)
    ensures |Step(s, e).left| == |s.left|
    ensures forall i :: 0 <= i < |s.left| && i != e.i ==> Step(s, e).left[i] == s.left[i]
  {
  }

  /** The failures and successes that slot `i` has recorded. */
  function Marks(es: seq<Event>, i: nat): seq<Event> {
    if es == [] then []
    else Marks(es[..|es| - 1], i) + if IsMark(es[|es| - 1], i) then [es[|es| - 1]] else []
  }

  predicate IsMark(e: Event, i: nat) {
    (e.Failure? || e.Success?) && e.i == i
  }

  lemma RunGrows(s: Shared, es: seq<Event>, e: Event)
    requires CanRun(s, es) && CanStep(After(s, es), e)
    ensures CanRun(s, es + [e]) && After(s, es + [e]) == Step(After(s, es), e)
    ensures forall i :: Marks(es + [e], i) == Marks(es, i) + if IsMark(e, i) then [e] else []
  {
    assert (es + [e])[..|es|] == es;
  }

  /** What the first `k` attempts, all failures, are to be recorded as. */
  function FailuresMet(i: nat, met: seq<Attempt>, k: nat): seq<Event>
    requires k <= |met|
  {
    if k == 0 then []
    else FailuresMet(i, met, k - 1) + [Failure(i, if met[k - 1].Answered? then met[k - 1].at else 0)]
  }

  /** What a delivery is to be recorded as: the failures it met, at their times, and its success. */
  function MarksDue(i: nat, met: seq<Attempt>, result: Result, requests: nat): seq<Event>
    requires 0 <= Failed(result, requests) <= |met|
  {
    FailuresMet(i, met, Failed(result, requests)) + if result == Delivered then [Success(i)] else []
  }

  /** Each delivery in flight has a slot of its own; the slots are bookkeeping, the code has none. */
  class Sender {
    var failures: nat
    var lastFailure: int
    var circuitOpen: bool
    const maxFailures: nat
    const resetTimeout: int
    const slots: nat
    var left: seq<nat>
    ghost var run: seq<Event>

    /** Non-positive options fall back to 5 failures and 30 seconds. */
    constructor (maxFailures: int, resetTimeout: int, slots: nat)
      ensures Valid() && run == [] && this.slots == slots
      ensures Value() == Breaker(0, 0, false, if maxFailures <= 0 then 5 else maxFailures,
                                 if resetTimeout <= 0 then 30_000_000_000 else resetTimeout)
    {
      this.maxFailures := if maxFailures <= 0 then 5 else maxFailures;
      this.resetTimeout := if resetTimeout <= 0 then 30_000_000_000 else resetTimeout;
      this.slots := slots;
      failures, lastFailure, circuitOpen := 0, 0, false;
      left, run := Idle(slots), [];
    }

    ghost function Value(): Breaker
      reads this
    {
      Breaker(failures, lastFailure, circuitOpen, maxFailures, resetTimeout)
    }

    ghost function View(): Shared
      reads this
    {
      Shared(Value(), left)
    }

    /** What has happened so far is a run, and the fields are where it leads. */
    ghost predicate Valid()
      reads this
    {
      && maxFailures > 0
      && |left| == slots
      && CanRun(Fresh(maxFailures, resetTimeout, slots), run)
      && After(Fresh(maxFailures, resetTimeout, slots), run) == View()
    }

    /** The fields have just made step `e` from state `was`. */
    ghost method Note(was: Shared, e: Event)
      requires maxFailures > 0 && |left| == slots
      requires CanRun(Fresh(maxFailures, resetTimeout, slots), run)
      requires After(Fresh(maxFailures, resetTimeout, slots), run) == was && CanStep(was, e) && View() == Step(was, e)
      modifies this`run
      ensures Valid() && run == old(run) + [e]
      ensures forall i :: Marks(run, i) == Marks(old(run), i) + if IsMark(e, i) then [e] else []
    {
      RunGrows(Fresh(maxFailures, resetTimeout, slots), run, e);
      run := run + [e];
    }

    /** Other deliveries use the breaker. */
    method Meanwhile(i: nat)
      requires Valid() && i < slots
      modifies this
      ensures Valid() && old(run) <= run && left[i] == old(left[i])
      ensures Marks(run, i) == old(Marks(run, i))
    {
      var n: nat :| n >= 0;
      for k := 0 to n
        invariant Valid() && old(run) <= run && left[i] == old(left[i])
        invariant Marks(run, i) == old(Marks(run, i))
      {
        var e: Event := *;
        var s := Shared(Breaker(failures, lastFailure, circuitOpen, maxFailures, resetTimeout), left);
        if CanStep(s, e) && e.i != i {
          var t := Step(s, e);
          SlotsStay(s, e);
          failures, lastFailure, circuitOpen := t.breaker.failures, t.breaker.lastFailure, t.breaker.open;
          left := t.left;
          Note(s, e);
        }
      }
    }

    method IsCircuitOpen(now: int) returns (open: bool)
      modifies this`failures, this`circuitOpen
      ensures Value() == Check(old(Value()), now) && open == Value().open
    {
      if !circuitOpen {
        return false;
      }
      if now - lastFailure >= resetTimeout {
        circuitOpen := false;
        failures := 0;
        return false;
      }
      return true;
    }

    method RecordFailure(now: int)
      modifies this`failures, this`lastFailure, this`circuitOpen
      ensures Value() == Fail(old(Value()), now)
    {
      failures := failures + 1;
      lastFailure := now;
      if failures >= maxFailures {
        circuitOpen := true;
      }
    }

    method RecordSuccess()
      modifies this`failures, this`circuitOpen
      ensures Value() == Succeed(old(Value()))
    {
      failures := 0;
      circuitOpen := false;
    }

    /**
     One delivery, in slot `i`, with others using the breaker between any two of its accesses. A breaker found
     open turns it away without a request; otherwise what it meets decides how it ends. Exactly the failures it
     meets are recorded, and the number of failures stays within the bound.
     */
    method Send(i: nat, url: string, marshals: bool, now: int, met: seq<Attempt>)
      returns (result: Result, requests: nat)
      requires Valid() && i < slots && left[i] == 0 && |met| == ATTEMPTS
      modifies this
      ensures Valid() && old(run) <= run && left[i] == 0
      ensures (result, requests) ==
              if url == "" then (NoURL, 0)
              else if TurnsAway(old(run), maxFailures, resetTimeout, now) then (CircuitOpen, 0)
              else if !marshals then (Unmarshallable, 0)
              else Fate(met, 0)
      ensures result == CircuitOpen ==> Value() == old(Value())
      ensures Marks(run, i) == old(Marks(run, i)) + MarksDue(i, met, result, requests)
      ensures failures <= maxFailures - 1 + 3 * slots && (circuitOpen <==> failures >= maxFailures)
    {
      if url == "" {
        result, requests := NoURL, 0;
      } else {
        BreakerMeaning(maxFailures, resetTimeout, slots, run);
        var open := Admit(i, now);
        if open {
          result, requests := CircuitOpen, 0;
        } else {
          result, requests := Deliver(i, marshals, met);
        }
      }
      FailuresBounded(maxFailures, resetTimeout, slots, run);
    }

    /** A delivery that was let in. */
    method Deliver(i: nat, marshals: bool, met: seq<Attempt>) returns (result: Result, requests: nat)
      requires Valid() && i < slots && left[i] == ATTEMPTS && |met| == ATTEMPTS
      modifies this
      ensures Valid() && old(run) <= run && left[i] == 0
      ensures (result, requests) == if marshals then Fate(met, 0) else (Unmarshallable, 0)
      ensures result != CircuitOpen
      ensures Marks(run, i) == old(Marks(run, i)) + MarksDue(i, met, result, requests)
    {
      FateMeaning(met, 0);
      if marshals {
        result, requests := Attempt(i, met);
      } else {
        Quit(i);
        result, requests := Unmarshallable, 0;
      }
    }

    method Admit(i: nat, now: int) returns (open: bool)
      requires Valid() && i < slots && left[i] == 0
      modifies this
      ensures Valid() && run == old(run) + [Start(i, now)] && Value() == Check(old(Value()), now)
      ensures open == Value().open && left[i] == (if open then 0 else ATTEMPTS)
      ensures Marks(run, i) == old(Marks(run, i))
    {
      ghost var was := View();
      open := IsCircuitOpen(now);
      if !open {
        left := left[i := ATTEMPTS];
      }
      Note(was, Start(i, now));
    }

    /** The delivery ends without touching the breaker. */
    method Quit(i: nat)
      requires Valid() && i < slots && left[i] > 0
      modifies this
      ensures Valid() && run == old(run) + [Event.Quit(i)] && left[i] == 0
      ensures Marks(run, i) == old(Marks(run, i))
    {
      ghost var was := View();
      left := left[i := 0];
      Note(was, Event.Quit(i));
    }

    method CountFailure(i: nat, at: int)
      requires Valid() && i < slots && left[i] > 0
      modifies this
      ensures Valid() && run == old(run) + [Failure(i, at)] && left[i] == old(left[i]) - 1
      ensures Marks(run, i) == old(Marks(run, i)) + [Failure(i, at)]
    {
      ghost var was := View();
      RecordFailure(at);
      left := left[i := left[i] - 1];
      Note(was, Failure(i, at));
    }

    method CountSuccess(i: nat)
      requires Valid() && i < slots && left[i] > 0
      modifies this
      ensures Valid() && run == old(run) + [Success(i)] && left[i] == 0
      ensures Marks(run, i) == old(Marks(run, i)) + [Success(i)]
    {
      ghost var was := View();
      RecordSuccess();
      left := left[i := 0];
      Note(was, Success(i));
    }

    /** The retry loop. */
    method Attempt(i: nat, met: seq<Attempt>) returns (result: Result, requests: nat)
      requires Valid() && i < slots && left[i] == ATTEMPTS && |met| == ATTEMPTS
      modifies this
      ensures Valid() && old(run) <= run && left[i] == 0
      ensures (result, requests) == Fate(met, 0)
      ensures Marks(run, i) == old(Marks(run, i)) + MarksDue(i, met, result, requests)
    {
      for attempt := 0 to ATTEMPTS
        invariant Valid() && old(run) <= run && left[i] == ATTEMPTS - attempt
        invariant Fate(met, attempt) == Fate(met, 0)
        invariant Marks(run, i) == old(Marks(run, i)) + FailuresMet(i, met, attempt)
      {
        Meanwhile(i);
        var end := TryOnce(i, met[attempt]);
        if end.Some? {
          return end.value, if met[attempt].Answered? then attempt + 1 else attempt;
        }
      }
      return Exhausted, ATTEMPTS;
    }

    /** One attempt: None if it failed and another may follow. */
    method TryOnce(i: nat, met: Attempt) returns (end: Option<Result>)
      requires Valid() && i < slots && left[i] > 0
      modifies this
      ensures Valid() && old(run) <= run && left[i] == if end.None? then old(left[i]) - 1 else 0
      ensures end == match met
                     case Cancelled => Some(Stopped)
                     case Unbuildable => Some(BadRequest)
                     case Answered(reply, _) =>
                       if IsSuccess(reply) then Some(Delivered) else if IsFailure(reply) then None else Some(Refused)
      ensures Marks(run, i) == old(Marks(run, i)) +
              (if end.None? then [Failure(i, met.at)] else if end.value == Delivered then [Success(i)] else [])
    {
      if met.Cancelled? {
        Quit(i);
        return Some(Stopped);
      }
      if met.Unbuildable? {
        Quit(i);
        return Some(BadRequest);
      }
      if met.reply.TransportError? {
        CountFailure(i, met.at);
        return None;
      }
      if 200 <= met.reply.code < 300 {
        CountSuccess(i);
        return Some(Delivered);
      }
      if met.reply.code >= 500 {
        CountFailure(i, met.at);
        return None;
      }
      Quit(i);
      return Some(Refused);
    }
  }

  // ---------------------------------------------------------------- the bound is exact

  lemma Go(s: Shared, es: seq<Event>, e: Event) returns (es': seq<Event>)
    requires CanRun(s, es) && CanStep(After(s, es), e)
    ensures CanRun(s, es') && After(s, es') == Step(After(s, es), e)
  {
    es' := es + [e];
    assert es'[..|es|] == es;
  }

  /** One delivery after the other, each giving up after one failure, up to just below the threshold. */
  lemma {:induction false} WarmUp(maxFailures: nat, resetTimeout: int, n: nat, k: nat) returns (es: seq<Event>)
    requires k < maxFailures && n > 0
    ensures CanRun(Fresh(maxFailures, resetTimeout, n), es)
    ensures var s := After(Fresh(maxFailures, resetTimeout, n), es);
            s.left == Idle(n) && !s.breaker.open && s.breaker.failures == k && s.breaker.maxFailures == maxFailures
  {
    var s := Fresh(maxFailures, resetTimeout, n);
    es := [];
    if k > 0 {
      es := WarmUp(maxFailures, resetTimeout, n, k - 1);
      es := Go(s, es, Start(0, 0));
      es := Go(s, es, Failure(0, 0));
      es := Go(s, es, Quit(0));
    }
  }

  /** `m` slots have started, the others are idle. */
  function Started(n: nat, m: nat): seq<nat> {
    seq(n, i => if i < m then ATTEMPTS else 0)
  }

  lemma {:induction false} StartAll(s: Shared, es: seq<Event>, n: nat, m: nat) returns (es': seq<Event>)
    requires CanRun(s, es) && After(s, es).left == Idle(n) && !After(s, es).breaker.open && m <= n
    ensures CanRun(s, es') && After(s, es') == Shared(After(s, es).breaker, Started(n, m))
  {
    if m == 0 {
      es' := es;
    } else {
      es' := StartAll(s, es, n, m - 1);
      es' := Go(s, es', Start(m - 1, 0));
      assert Started(n, m - 1)[m - 1 := ATTEMPTS] == Started(n, m);
    }
  }

  /** The first `m` slots use up all their attempts, failing each time. */
  lemma {:induction false} FailAll(s: Shared, es: seq<Event>, m: nat) returns (es': seq<Event>)
    requires CanRun(s, es) && m <= |After(s, es).left|
    requires forall i :: 0 <= i < m ==> After(s, es).left[i] == ATTEMPTS
    ensures CanRun(s, es')
    ensures After(s, es').breaker.failures == After(s, es).breaker.failures + 3 * m
    decreases m
  {
    es' := es;
    if m > 0 {
      es' := Go(s, es', Failure(m - 1, 0));
      es' := Go(s, es', Failure(m - 1, 0));
      es' := Go(s, es', Failure(m - 1, 0));
      es' := FailAll(s, es', m - 1);
    }
  }

  /** For every threshold and every number of deliveries at once, some run reaches the bound. */
  lemma BoundReached(maxFailures: nat, resetTimeout: int, n: nat)
    requires maxFailures > 0 && n > 0
    ensures exists es :: CanRun(Fresh(maxFailures, resetTimeout, n), es)
                         && After(Fresh(maxFailures, resetTimeout, n), es).breaker.failures == maxFailures - 1 + 3 * n
  {
    var s := Fresh(maxFailures, resetTimeout, n);
    var es := WarmUp(maxFailures, resetTimeout, n, maxFailures - 1);
    es := StartAll(s, es, n, n);
    es := FailAll(s, es, n);
  }
}

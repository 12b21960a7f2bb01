/**
 The fixed-window rate limiter of one API key: a Redis counter per minute. Times are milliseconds of one
 clock. The counter of a window is incremented by each request of that window and expires some time after.
 */
module RateLimits {
  import opened Options

  const WINDOW := 60_000
  const KEY_TTL := 65_000
  const CALL_BOUND := 200    // a request's Redis calls are over this long after it looked at the clock

  /** A stored counter, and when Redis will drop it if that has been set. */
  datatype Counter = Counter(count: nat, expires: Option<int>)

  function WindowOf(time: int): int {
    time / WINDOW
  }

  /** Windows are the minutes of the clock. */
  lemma WindowMeaning(time: int, w: int)
    ensures WindowOf(time) == w <==> 60_000 * w <= time < 60_000 * (w + 1)
  {
  }

  predicate IsLive(c: Counter, now: int) {
    c.expires.Some? ==> now < c.expires.value
  }

  /** Redis INCR: a missing or expired key starts from zero and has no expiry. */
  function Incr(counters: map<int, Counter>, w: int, now: int): Counter {
    if w in counters && IsLive(counters[w], now) then counters[w].(count := counters[w].count + 1)
    else Counter(1, None)
  }

  /** Redis EXPIRE: nothing happens to a key that is gone. */
  function Expire(counters: map<int, Counter>, w: int, now: int): map<int, Counter> {
    if w in counters && IsLive(counters[w], now) then counters[w := counters[w].(expires := Some(now + KEY_TTL))]
    else counters
  }

  /** A counter that was given its expiry at `pinned` counts for 65 seconds from then, and afterwards starts anew. */
  lemma CounterLives(counters: map<int, Counter>, w: int, pinned: int, now: int)
    requires w in counters && IsLive(counters[w], pinned) && now >= pinned
    ensures Incr(Expire(counters, w, pinned), w, now).count ==
            if now < pinned + 65_000 then counters[w].count + 1 else 1
  {
  }

  function RetryAfter(nowSeconds: int): int {
    60 - nowSeconds % 60
  }

  /** The hint is between 1 and 60 seconds and points at the next minute boundary, and at no earlier one. */
  lemma RetryAfterMeaning(nowSeconds: int)
    ensures var at := nowSeconds + RetryAfter(nowSeconds);
            1 <= RetryAfter(nowSeconds) <= 60 && at % 60 == 0 && at / 60 == nowSeconds / 60 + 1
  {
  }

  // ---------------------------------------------------------------- all interleavings, Redis answering

  /** A request that has been counted: when it arrived and what came of it. */
  datatype Served = Served(arrival: int, admitted: bool)

  datatype State = State(now: int, counters: map<int, Counter>, log: seq<Served>)

  datatype Event =
    | Count(arrival: int, now: int)    // a request's INCR, and the decision that follows from its answer
    | SetTTL(w: int, now: int)         // the EXPIRE of whoever was first in window w

  predicate CanStep(s: State, e: Event) {
    s.now <= e.now &&
    match e
    case Count(arrival, now) => arrival <= now <= arrival + CALL_BOUND
    case SetTTL(w, now) => w * WINDOW <= now
  }

  function Step(s: State, e: Event, limit: nat): State
    requires CanStep(s, e)
  {
    match e
    case Count(arrival, now) =>
      var w := WindowOf(arrival);
      var c := Incr(s.counters, w, now);
      State(now, s.counters[w := c], s.log + [Served(arrival, c.count <= limit)])
    case SetTTL(w, now) => State(now, Expire(s.counters, w, now), s.log)
  }

  const BEGIN := State(0, map[], [])

  predicate CanRun(es: seq<Event>, limit: nat)
    decreases |es|, 0
  {
    es == [] || (CanRun(es[..|es| - 1], limit) && CanStep(After(es[..|es| - 1], limit), es[|es| - 1]))
  }

  function After(es: seq<Event>, limit: nat): State
    requires CanRun(es, limit)
    decreases |es|, 1
  {
    if es == [] then BEGIN else Step(After(es[..|es| - 1], limit), es[|es| - 1], limit)
  }

  /** Requests of window `w`. */
  function Requests(log: seq<Served>, w: int): nat {
    if log == [] then 0
    else Requests(log[..|log| - 1], w) + if WindowOf(log[|log| - 1].arrival) == w then 1 else 0
  }

  /** Requests of window `w` that were admitted. */
  function AdmittedIn(log: seq<Served>, w: int): nat {
    if log == [] then 0
    else
      var last := log[|log| - 1];
      AdmittedIn(log[..|log| - 1], w) + if WindowOf(last.arrival) == w && last.admitted then 1 else 0
  }

  function Min(a: nat, b: nat): nat {
    if a <= b then a else b
  }

  /** The counter of `w` outlives every request of `w`. */
  predicate Outlives(c: Counter, w: int) {
    c.expires.Some? ==> c.expires.value >= w * WINDOW + KEY_TTL
  }

  predicate WindowInv(s: State, limit: nat, w: int) {
    && (Requests(s.log, w) > 0 ==> w in s.counters)
    && (w in s.counters ==> s.counters[w].count == Requests(s.log, w) && Outlives(s.counters[w], w))
    && AdmittedIn(s.log, w) == Min(Requests(s.log, w), limit)
  }

  lemma LogSnoc(log: seq<Served>, r: Served, w: int)
    ensures Requests(log + [r], w) == Requests(log, w) + if WindowOf(r.arrival) == w then 1 else 0
    ensures AdmittedIn(log + [r], w) == AdmittedIn(log, w) + if WindowOf(r.arrival) == w && r.admitted then 1 else 0
  {
    assert (log + [r])[..|log|] == log;
  }

  /** A request of window `w` is counted before the counter of `w` can expire: 60.2 s is less than 65 s. */
  lemma InTime(arrival: int, now: int)
    requires arrival <= now <= arrival + CALL_BOUND
    ensures now < WindowOf(arrival) * WINDOW + KEY_TTL
  {
  }

  /** A request of window `w` that the counter of `w` counts. */
  lemma CountedHere(s: State, arrival: int, now: int, limit: nat, w: int)
    requires WindowInv(s, limit, w) && CanStep(s, Count(arrival, now)) && WindowOf(arrival) == w
    ensures WindowInv(Step(s, Count(arrival, now), limit), limit, w)
  {
    InTime(arrival, now);
    var c := Incr(s.counters, w, now);
    assert c.count == Requests(s.log, w) + 1;
    LogSnoc(s.log, Served(arrival, c.count <= limit), w);
  }

  lemma CountedElsewhere(s: State, arrival: int, now: int, limit: nat, w: int)
    requires WindowInv(s, limit, w) && CanStep(s, Count(arrival, now)) && WindowOf(arrival) != w
    ensures WindowInv(Step(s, Count(arrival, now), limit), limit, w)
  {
    LogSnoc(s.log, Served(arrival, Incr(s.counters, WindowOf(arrival), now).count <= limit), w);
  }

  lemma WindowStep(s: State, e: Event, limit: nat, w: int)
    requires WindowInv(s, limit, w) && CanStep(s, e)
    ensures WindowInv(Step(s, e, limit), limit, w)
  {
    match e
    case Count(arrival, now) =>
      if WindowOf(arrival) == w {
        CountedHere(s, arrival, now, limit, w);
      } else {
        CountedElsewhere(s, arrival, now, limit, w);
      }
    case SetTTL(v, now) =>
  }

  /** Of n requests in a minute window exactly min(n, limit) are admitted. */
  lemma {:induction false} ExactlyTheLimit(es: seq<Event>, limit: nat, w: int)
    requires CanRun(es, limit)
    ensures WindowInv(After(es, limit), limit, w)
    ensures AdmittedIn(After(es, limit).log, w) == Min(Requests(After(es, limit).log, w), limit)
  {
    if es != [] {
      ExactlyTheLimit(es[..|es| - 1], limit, w);
      WindowStep(After(es[..|es| - 1], limit), es[|es| - 1], limit, w);
    }
  }

  /** Admitted requests that arrived in the minute from `from` on. */
  function AdmittedSince(log: seq<Served>, from: int): nat {
    if log == [] then 0
    else
      var last := log[|log| - 1];
      AdmittedSince(log[..|log| - 1], from) + if from <= last.arrival < from + WINDOW && last.admitted then 1 else 0
  }

  lemma {:induction false} SpanTouchesTwoWindows(log: seq<Served>, from: int)
    ensures AdmittedSince(log, from) <= AdmittedIn(log, WindowOf(from)) + AdmittedIn(log, WindowOf(from) + 1)
  {
    if log != [] {
      SpanTouchesTwoWindows(log[..|log| - 1], from);
    }
  }

  /** Any span of 60 seconds admits at most twice the limit. */
  lemma AtMostTwiceTheLimit(es: seq<Event>, limit: nat, from: int)
    requires CanRun(es, limit)
    ensures AdmittedSince(After(es, limit).log, from) <= 2 * limit
  {
    var log := After(es, limit).log;
    SpanTouchesTwoWindows(log, from);
    ExactlyTheLimit(es, limit, WindowOf(from));
    ExactlyTheLimit(es, limit, WindowOf(from) + 1);
  }

  // ---------------------------------------------------------------- the middleware at work

  /** `PassedThrough` is no check at all: no limit configured, or Redis did not answer in time. */
  datatype Verdict = PassedThrough | Admitted(remaining: int) | Rejected(retryAfter: int)

  class Limiter {
    const limit: int
    var counters: map<int, Counter>
    var clock: int
    var last: int               // when the counters were last used
    var log: seq<Served>        // for the record
    ghost var run: seq<Event>

    constructor (limit: int, clock: nat)
      ensures Valid() && run == [] && this.limit == limit && this.clock == clock
    {
      this.limit, this.clock := limit, clock;
      counters, last, log, run := map[], 0, [], [];
    }

    function Quota(): nat {
      if limit <= 0 then 0 else limit
    }

    ghost function View(): State
      reads this
    {
      State(last, counters, log)
    }

    ghost predicate Valid()
      reads this
    {
      last <= clock && CanRun(run, Quota()) && After(run, Quota()) == View()
    }

    /** The fields have just made step `e` from state `was`. */
    ghost method Note(was: State, e: Event)
      requires last <= clock && CanRun(run, Quota()) && After(run, Quota()) == was
      requires CanStep(was, e) && View() == Step(was, e, Quota())
      modifies this`run
      ensures Valid() && run == old(run) + [e]
    {
      var longer := run + [e];
      assert longer[..|longer| - 1] == run;
      run := longer;
    }

    /** INCR: the number of requests of this window so far, this one included. */
    method Increment(arrival: int) returns (count: nat)
      requires Valid() && arrival <= clock <= arrival + CALL_BOUND
      modifies this`counters, this`last, this`log, this`run
      ensures Valid() && run == old(run) + [Count(arrival, clock)]
      ensures log == old(log) + [Served(arrival, count <= Quota())]
      ensures count == Requests(log, WindowOf(arrival))
    {
      ghost var was := View();
      var w := WindowOf(arrival);
      var c := Incr(counters, w, clock);
      counters := counters[w := c];
      count := c.count;
      log := log + [Served(arrival, count <= Quota())];
      last := clock;
      Note(was, Count(arrival, clock));
      ExactlyTheLimit(run, Quota(), w);
    }

    /** EXPIRE. */
    method Pin(w: int)
      requires Valid() && w * WINDOW <= clock
      modifies this`counters, this`last, this`run
      ensures Valid() && run == old(run) + [SetTTL(w, clock)]
    {
      ghost var was := View();
      counters := Expire(counters, w, clock);
      last := clock;
      Note(was, SetTTL(w, clock));
    }

    /** Time passes, and other requests use the counters. */
    method Meanwhile()
      requires Valid()
      modifies this
      ensures Valid() && old(run) <= run && old(log) <= log && clock >= old(clock)
    {
      var n: nat :| n >= 0;
      for k := 0 to n
        invariant Valid() && old(run) <= run && old(log) <= log && clock >= old(clock)
      {
        var later: nat :| later >= 0;
        clock := clock + later;
        var counts: bool := *;
        if counts {
          var ago: nat :| ago <= CALL_BOUND;
          var _ := Increment(clock - ago);
        } else {
          var w: int := *;
          if w * WINDOW <= clock {
            Pin(w);
          }
        }
      }
    }

    /** INCR, and EXPIRE by whoever was first, with others acting after each; `expires` is whether the EXPIRE works. */
    method CountRequest(arrival: int, expires: bool) returns (count: nat, ghost place: nat)
      requires Valid() && arrival <= clock <= arrival + CALL_BOUND
      modifies this
      ensures Valid() && old(run) <= run && clock >= old(clock)
      ensures InPlace(place, arrival, count) && place == |old(log)|
      ensures count == 1 && expires ==> IsPinned(old(run), WindowOf(arrival))
    {
      place := |log|;
      count := Increment(arrival);
      ghost var counted := log;
      if count == 1 && expires {
        Meanwhile();
        Pin(WindowOf(arrival));
      }
      Meanwhile();
      assert log[..place + 1] == counted;
    }

    /** In the course of what was added to the run, the counter of window `w` was given its expiry. */
    ghost predicate IsPinned(before: seq<Event>, w: int)
      requires |before| <= |run|
      reads this
    {
      exists n :: |before| <= n < |run| && run[n].SetTTL? && run[n].w == w
    }

    /** The log has, at this place, a request that was number `count` of its window. */
    ghost predicate InPlace(place: nat, arrival: int, count: nat)
      reads this
    {
      && place < |log|
      && log[place] == Served(arrival, count <= Quota())
      && count == Requests(log[..place + 1], WindowOf(arrival))
    }

    /** What request number `count` of its window is told, if that is at time `now`: the hint is the next minute. */
    ghost predicate IsDue(v: Verdict, count: nat, now: int) {
      if count <= limit then v == Admitted(limit - count)
      else
        && v.Rejected?
        && 1 <= v.retryAfter <= 60
        && (now / 1000 + v.retryAfter) % 60 == 0
    }

    /**
     One request, with others using the counters between any two of its accesses. `redis` and `expires` are whether
     its INCR and EXPIRE are answered. It is let through unchecked exactly without a limit, or if the INCR is not
     answered or comes later than 200 ms; otherwise it has its place in the log, and is admitted exactly if it is among
     the first `limit` requests of its window.
     */
    method Handle(redis: bool, expires: bool)
      returns (v: Verdict, arrival: int, ghost asked: int, ghost place: nat, ghost count: nat)
      requires Valid()
      modifies this
      ensures Valid() && old(run) <= run && old(clock) <= arrival <= asked <= clock
      ensures v.PassedThrough? <==> limit <= 0 || !redis || asked > arrival + 200
      ensures !v.PassedThrough? ==> place >= |old(log)| && InPlace(place, arrival, count) && IsDue(v, count, clock)
      ensures !v.PassedThrough? && count == 1 && expires ==> IsPinned(old(run), arrival / 60_000)
    {
      place, count := 0, 0;
      Meanwhile();
      arrival := clock;
      Meanwhile();
      asked := clock;
      if limit <= 0 || !redis || clock > arrival + CALL_BOUND {
        return PassedThrough, arrival, asked, place, count;
      }
      var number;
      number, place := CountRequest(arrival, expires);
      count := number;
      if number > limit {
        v := Rejected(RetryAfter(clock / 1000));
        RetryAfterMeaning(clock / 1000);
      } else {
        v := Admitted(limit - number);
      }
    }
  }

  // ---------------------------------------------------------------- and that bound is exact

  lemma Go(es: seq<Event>, e: Event, limit: nat) returns (es': seq<Event>)
    requires CanRun(es, limit) && CanStep(After(es, limit), e)
    ensures CanRun(es', limit) && After(es', limit) == Step(After(es, limit), e, limit)
  {
    es' := es + [e];
    assert es'[..|es|] == es;
  }

  lemma SinceSnoc(log: seq<Served>, r: Served, from: int)
    ensures AdmittedSince(log + [r], from) ==
            AdmittedSince(log, from) + if from <= r.arrival < from + WINDOW && r.admitted then 1 else 0
  {
    assert (log + [r])[..|log|] == log;
  }

  /** `k` more requests arriving at `at`, all admitted as long as the window has room for them. */
  lemma {:induction false} Burst(es: seq<Event>, limit: nat, at: int, k: nat, from: int) returns (es': seq<Event>)
    requires CanRun(es, limit) && After(es, limit).now <= at && from <= at < from + WINDOW
    requires Requests(After(es, limit).log, WindowOf(at)) + k <= limit
    ensures CanRun(es', limit) && After(es', limit).now <= at
    ensures AdmittedSince(After(es', limit).log, from) == AdmittedSince(After(es, limit).log, from) + k
    ensures forall w :: w != WindowOf(at) ==> Requests(After(es', limit).log, w) == Requests(After(es, limit).log, w)
    ensures Requests(After(es', limit).log, WindowOf(at)) == Requests(After(es, limit).log, WindowOf(at)) + k
    decreases k
  {
    if k == 0 {
      es' := es;
    } else {
      var b := Burst(es, limit, at, k - 1, from);
      var s := After(b, limit);
      ExactlyTheLimit(b, limit, WindowOf(at));
      InTime(at, at);
      var r := Served(at, Incr(s.counters, WindowOf(at), at).count <= limit);
      es' := Go(b, Count(at, at), limit);
      SinceSnoc(s.log, r, from);
      forall w
        ensures Requests(s.log + [r], w) == Requests(s.log, w) + if WindowOf(at) == w then 1 else 0
      {
        LogSnoc(s.log, r, w);
      }
    }
  }

  /** A burst just before a minute boundary and one just after it admit twice the limit within a minute. */
  lemma TwiceTheLimitReached(limit: nat)
    ensures exists es, from :: CanRun(es, limit) && AdmittedSince(After(es, limit).log, from) == 2 * limit
  {
    var from := WINDOW - 1;
    var es := Burst([], limit, from, limit, from);
    es := Burst(es, limit, WINDOW, limit, from);
  }
}

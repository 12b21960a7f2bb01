/** Any number of controllers in one consumer group, in all interleavings. */
module DispatchRuns {
  import opened Dispatch

  /** Where a controller's loop is. All but Top and Exited hold a token. */
  datatype Place =
    | Top
    | Reading
    | Holding(id: nat)     // read a job, about to start its handler
    | Dropping(id: nat)    // read a malformed message, about to acknowledge it
    | GivingBack           // the read brought nothing: about to return the token
    | Exited

  /** A handler runs its worker, then possibly acknowledges. */
  datatype Stage = Working | Acking

  datatype Ctl = Ctl(max: nat, place: Place, tokens: nat, handlers: map<nat, Stage>)

  datatype System = System(
    group: Group,
    ctls: seq<Ctl>,
    workers: multiset<nat>,   // workers ever started, by message
    clean: set<nat>)          // messages whose worker exited cleanly

  datatype Event =
    | Produce(p: Payload)
    | Acquire(c: nat)
    | Stop(c: nat)                          // the context is cancelled: leave the loop at its top
    | Read(c: nat, arrives: bool)
    | Timeout(c: nat)                       // nothing to read, or the call fails without effect
    | Drop(c: nat, ackWorks: bool)
    | Release(c: nat, leave: bool)          // give the token back; leave the loop or go round again
    | Spawn(c: nat)
    | WorkerExit(c: nat, id: nat, clean: bool)
    | AckDone(c: nat, id: nat, ackWorks: bool)

  predicate CanStep(s: System, e: Event) {
    match e
    case Produce(_) => true
    case _ =>
      e.c < |s.ctls| &&
      var k := s.ctls[e.c];
      match e
      case Acquire(_) => k.place == Top && k.tokens < k.max
      case Stop(_) => k.place == Top
      case Read(_, _) => k.place == Reading && s.group.next < |s.group.entries|
      case Timeout(_) => k.place == Reading
      case Drop(_, _) => k.place.Dropping?
      case Release(_, _) => k.place == GivingBack && k.tokens > 0
      case Spawn(_) => k.place.Holding?
      case WorkerExit(_, id, _) => id in k.handlers && k.handlers[id] == Working && k.tokens > 0
      case AckDone(_, id, _) => id in k.handlers && k.handlers[id] == Acking && k.tokens > 0
      case Produce(_) => true
  }

  /** What event `e` does to the controller it belongs to. */
  function CtlStep(g: Group, k: Ctl, e: Event): Ctl
    requires e.Read? ==> g.next < |g.entries|
    requires e.Drop? || e.Spawn? ==> k.place.Dropping? || k.place.Holding?
    requires e.Release? || e.WorkerExit? || e.AckDone? ==> k.tokens > 0
  {
    match e
    case Produce(_) => k
    case Acquire(_) => k.(place := Reading, tokens := k.tokens + 1)
    case Stop(_) => k.(place := Exited)
    case Read(_, arrives) =>
      k.(place := if !arrives then GivingBack
                  else if g.entries[g.next].Malformed? then Dropping(g.next)
                  else Holding(g.next))
    case Timeout(_) => k.(place := GivingBack)
    case Drop(_, _) => k.(place := GivingBack)
    case Release(_, leave) => k.(place := if leave then Exited else Top, tokens := k.tokens - 1)
    case Spawn(_) => k.(place := Top, handlers := k.handlers[k.place.id := Working])
    case WorkerExit(_, id, clean) =>
      if clean then k.(handlers := k.handlers[id := Acking])
      else k.(handlers := k.handlers - {id}, tokens := k.tokens - 1)
    case AckDone(_, id, _) => k.(handlers := k.handlers - {id}, tokens := k.tokens - 1)
  }

  function GroupStep(g: Group, k: Ctl, e: Event): Group
    requires e.Read? ==> g.next < |g.entries|
    requires e.Drop? ==> k.place.Dropping?
  {
    match e
    case Read(_, _) => Deliver(g)
    case Drop(_, ackWorks) => if ackWorks then Acknowledge(g, k.place.id) else g
    case AckDone(_, id, ackWorks) => if ackWorks then Acknowledge(g, id) else g
    case _ => g
  }

  function Step(s: System, e: Event): System
    requires CanStep(s, e)
  {
    if e.Produce? then s.(group := Add(s.group, e.p))
    else
      var k := s.ctls[e.c];
      System(GroupStep(s.group, k, e),
             s.ctls[e.c := CtlStep(s.group, k, e)],
             if e.Spawn? then s.workers + multiset{k.place.id} else s.workers,
             if e.WorkerExit? && e.clean then s.clean + {e.id} else s.clean)
  }

  /** Idle controllers with the given numbers of slots, and an empty stream. */
  function Begin(slots: seq<nat>): System {
    System(NO_MESSAGES, seq(|slots|, i requires 0 <= i < |slots| => Ctl(slots[i], Top, 0, map[])), multiset{}, {})
  }

  predicate CanRun(s: System, es: seq<Event>)
    decreases |es|, 1
  {
    es == [] || LastCanStep(s, es)
  }

  predicate LastCanStep(s: System, es: seq<Event>)
    requires es != []
    decreases |es|, 0
  {
    CanRun(s, es[..|es| - 1]) && CanStep(After(s, es[..|es| - 1]), es[|es| - 1])
  }

  function After(s: System, es: seq<Event>): System
    requires CanRun(s, es)
    decreases |es|, 3
  {
    if es == [] then s else AfterLast(s, es)
  }

  function AfterLast(s: System, es: seq<Event>): System
    requires es != [] && LastCanStep(s, es)
    decreases |es|, 2
  {
    Step(After(s, es[..|es| - 1]), es[|es| - 1])
  }

  lemma RunLast(s: System, es: seq<Event>)
    requires es != [] && CanRun(s, es)
    ensures CanRun(s, es[..|es| - 1]) && CanStep(After(s, es[..|es| - 1]), es[|es| - 1])
    ensures After(s, es) == Step(After(s, es[..|es| - 1]), es[|es| - 1])
  {
  }

  lemma RunSnoc(s: System, es: seq<Event>, e: Event)
    requires CanRun(s, es) && CanStep(After(s, es), e)
    ensures CanRun(s, es + [e]) && After(s, es + [e]) == Step(After(s, es), e)
  {
    assert (es + [e])[..|es|] == es;
  }

  // ---------------------------------------------------------------- invariants

  predicate HoldsToken(p: Place) {
    p != Top && p != Exited
  }

  /** Tokens are the live handlers plus the loop's own, and never more than there are slots. */
  predicate TokenInv(k: Ctl) {
    && k.tokens == |k.handlers| + (if HoldsToken(k.place) then 1 else 0)
    && k.tokens <= k.max
  }

  /** Message `id` is in the hands of controller `k`. */
  predicate Has(k: Ctl, id: nat) {
    || id in k.handlers
    || k.place == Holding(id)
    || k.place == Dropping(id)
  }

  /** What is known of message `id` in the hands of `k`. */
  predicate InHand(s: System, k: Ctl, id: nat) {
    && id in s.group.pending && id < |s.group.entries|
    && (id in k.handlers ==>
          && k.place != Holding(id) && k.place != Dropping(id)
          && s.group.entries[id].WellFormed? && s.workers[id] == 1
          && (k.handlers[id] == Acking <==> id in s.clean))
    && (k.place == Holding(id) ==> s.group.entries[id].WellFormed? && id !in s.workers && id !in s.clean)
    && (k.place == Dropping(id) ==> s.group.entries[id].Malformed? && id !in s.workers && id !in s.clean)
  }

  ghost predicate HandInv(s: System, k: Ctl) {
    forall id: nat :: Has(k, id) ==> InHand(s, k, id)
  }

  /** No message is in two controllers' hands. */
  ghost predicate Apart(s: System) {
    forall c, d, id: nat ::
      0 <= c < |s.ctls| && 0 <= d < |s.ctls| && Has(s.ctls[c], id) && Has(s.ctls[d], id) ==> c == d
  }

  /** Workers are started at most once, only for delivered messages; clean exits and acknowledgements are earned. */
  ghost predicate HistoryInv(s: System) {
    && (forall id: nat :: s.workers[id] <= 1)
    && (forall id: nat :: id in s.workers ==>
          id < s.group.next && id < |s.group.entries| && s.group.entries[id].WellFormed?)
    && (forall id: nat :: id in s.clean ==> id in s.workers)
    && (forall id: nat :: id in s.group.acked ==>
          id < |s.group.entries| && (s.group.entries[id].Malformed? || id in s.clean))
  }

  ghost predicate Inv(s: System) {
    && Partitioned(s.group)
    && (forall c :: 0 <= c < |s.ctls| ==> TokenInv(s.ctls[c]))
    && (forall c :: 0 <= c < |s.ctls| ==> HandInv(s, s.ctls[c]))
    && Apart(s)
    && HistoryInv(s)
  }

  lemma TokenStep(s: System, e: Event)
    requires Inv(s) && CanStep(s, e) && !e.Produce?
    ensures TokenInv(CtlStep(s.group, s.ctls[e.c], e))
  {
    var k := s.ctls[e.c];
    if e.Spawn? {
      assert Has(k, k.place.id);
    }
  }

  /** The controller that moves: what it still has, or has just got. */
  lemma OwnHandStep(s: System, e: Event, id: nat)
    requires Inv(s) && CanStep(s, e) && !e.Produce? && Has(Step(s, e).ctls[e.c], id)
    ensures InHand(Step(s, e), Step(s, e).ctls[e.c], id)
  {
    var k := s.ctls[e.c];
    assert Has(k, id) || (e.Read? && id == s.group.next);
    if e.Drop? || e.Spawn? {
      assert Has(k, k.place.id);
    }
    if e.WorkerExit? || e.AckDone? {
      assert Has(k, e.id);
    }
  }

  /** The others: nothing they have is touched. */
  lemma OtherHandStep(s: System, e: Event, d: nat, id: nat)
    requires Inv(s) && CanStep(s, e) && !e.Produce? && d < |s.ctls| && d != e.c && Has(s.ctls[d], id)
    ensures InHand(Step(s, e), s.ctls[d], id)
  {
    var k := s.ctls[e.c];
    assert !Has(k, id);
    assert InHand(s, s.ctls[d], id);
  }

  lemma ApartStep(s: System, e: Event)
    requires Inv(s) && CanStep(s, e) && !e.Produce?
    ensures Apart(Step(s, e))
  {
    var t := Step(s, e);
    forall id: nat | Has(t.ctls[e.c], id) && !Has(s.ctls[e.c], id)
      ensures id == s.group.next && forall d :: 0 <= d < |s.ctls| ==> !Has(s.ctls[d], id)
    {
      assert e.Read?;
    }
  }

  lemma HistoryStep(s: System, e: Event)
    requires Inv(s) && CanStep(s, e) && !e.Produce?
    ensures HistoryInv(Step(s, e)) && Partitioned(Step(s, e).group)
  {
    var k := s.ctls[e.c];
    if e.Drop? || e.Spawn? {
      assert InHand(s, k, k.place.id);
    }
    if e.WorkerExit? || e.AckDone? {
      assert InHand(s, k, e.id);
    }
  }

  lemma HandsStep(s: System, e: Event, d: nat)
    requires Inv(s) && CanStep(s, e) && !e.Produce? && d < |s.ctls|
    ensures HandInv(Step(s, e), Step(s, e).ctls[d])
  {
    var t := Step(s, e);
    forall id: nat | Has(t.ctls[d], id)
      ensures InHand(t, t.ctls[d], id)
    {
      if d == e.c {
        OwnHandStep(s, e, id);
      } else {
        OtherHandStep(s, e, d, id);
      }
    }
  }

  lemma ProduceStep(s: System, p: Payload)
    requires Inv(s)
    ensures Inv(s.(group := Add(s.group, p)))
  {
    var t := s.(group := Add(s.group, p));
    GroupKeeps(s.group, p, 0);
    forall c, id: nat | 0 <= c < |s.ctls| && Has(s.ctls[c], id)
      ensures InHand(t, s.ctls[c], id)
    {
      assert InHand(s, s.ctls[c], id);
    }
  }

  lemma InvStep(s: System, e: Event)
    requires Inv(s) && CanStep(s, e)
    ensures Inv(Step(s, e))
  {
    if e.Produce? {
      ProduceStep(s, e.p);
    } else {
      var t := Step(s, e);
      HistoryStep(s, e);
      ApartStep(s, e);
      forall d | 0 <= d < |t.ctls|
        ensures TokenInv(t.ctls[d]) && HandInv(t, t.ctls[d])
      {
        TokenStep(s, e);
        HandsStep(s, e, d);
      }
    }
  }

  lemma {:induction false} InvHolds(slots: seq<nat>, es: seq<Event>)
    requires CanRun(Begin(slots), es)
    ensures Inv(After(Begin(slots), es))
  {
    if es != [] {
      RunLast(Begin(slots), es);
      InvHolds(slots, es[..|es| - 1]);
      InvStep(After(Begin(slots), es[..|es| - 1]), es[|es| - 1]);
    }
  }

  // ---------------------------------------------------------------- what every run guarantees

  /** Conservation: each message added is undelivered, pending or acknowledged, and only one of these. */
  lemma NothingIsLost(slots: seq<nat>, es: seq<Event>, id: nat)
    requires CanRun(Begin(slots), es)
    ensures var g := After(Begin(slots), es).group;
            id < |g.entries| ==>
              && (id >= g.next || id in g.pending || id in g.acked)
              && !(id >= g.next && (id in g.pending || id in g.acked))
              && !(id in g.pending && id in g.acked)
  {
    InvHolds(slots, es);
  }

  /**
   A message starts at most one worker, and none before it is delivered; an acknowledged one was malformed
   when read, or its worker exited cleanly. So a job whose worker failed stays pending.
   */
  lemma AckedIsEarned(slots: seq<nat>, es: seq<Event>, id: nat)
    requires CanRun(Begin(slots), es)
    ensures var s := After(Begin(slots), es);
            && s.workers[id] <= 1
            && (s.workers[id] == 1 ==> id < s.group.next)
            && (id in s.clean ==> s.workers[id] == 1)
            && (id in s.group.acked ==> id < |s.group.entries| && (s.group.entries[id].Malformed? || id in s.clean))
            && (s.workers[id] == 1 && id !in s.clean ==> id in s.group.pending)
  {
    InvHolds(slots, es);
    var s := After(Begin(slots), es);
    assert id in s.workers <==> s.workers[id] > 0;
  }

  /** Conversely a clean exit whose acknowledgement goes through is acknowledged, and frees the slot. */
  lemma CleanExitIsAcked(slots: seq<nat>, es: seq<Event>, c: nat, id: nat)
    requires CanRun(Begin(slots), es) && CanStep(After(Begin(slots), es), AckDone(c, id, true))
    ensures var s := After(Begin(slots), es);
            var t := Step(s, AckDone(c, id, true));
            id in t.group.acked && t.ctls[c].tokens == s.ctls[c].tokens - 1
  {
    InvHolds(slots, es);
    assert Has(After(Begin(slots), es).ctls[c], id);
  }

  /** So is a malformed message that a controller drops, if the acknowledgement goes through; no worker is started. */
  lemma DropIsAcked(slots: seq<nat>, es: seq<Event>, c: nat)
    requires CanRun(Begin(slots), es) && CanStep(After(Begin(slots), es), Drop(c, true))
    ensures var s := After(Begin(slots), es);
            var t := Step(s, Drop(c, true));
            var id := s.ctls[c].place.id;
            && id < |s.group.entries| && s.group.entries[id].Malformed?
            && id in t.group.acked && id !in t.workers
  {
    InvHolds(slots, es);
    var s := After(Begin(slots), es);
    assert Has(s.ctls[c], s.ctls[c].place.id);
    assert InHand(s, s.ctls[c], s.ctls[c].place.id);
  }

  /** A worker that fails leaves its message pending and frees the slot. */
  lemma FailedExitStaysPending(slots: seq<nat>, es: seq<Event>, c: nat, id: nat)
    requires CanRun(Begin(slots), es) && CanStep(After(Begin(slots), es), WorkerExit(c, id, false))
    ensures var s := After(Begin(slots), es);
            var t := Step(s, WorkerExit(c, id, false));
            id in t.group.pending && id !in t.ctls[c].handlers && t.ctls[c].tokens == s.ctls[c].tokens - 1
  {
    InvHolds(slots, es);
    assert Has(After(Begin(slots), es).ctls[c], id);
  }

  lemma Go(s: System, es: seq<Event>, fs: seq<Event>, e: Event) returns (longer: seq<Event>)
    requires CanRun(s, es + fs) && CanStep(After(s, es + fs), e)
    ensures longer == fs + [e] && CanRun(s, es + longer)
    ensures After(s, es + longer) == Step(After(s, es + fs), e)
  {
    longer := fs + [e];
    RunSnoc(s, es + fs, e);
    assert es + longer == es + fs + [e];
  }

  /** Controller `c` is at the top of its loop with a slot to spare, and a message waits. */
  predicate CanTake(s: System, c: nat) {
    && c < |s.ctls|
    && s.ctls[c].place == Top
    && s.ctls[c].tokens < s.ctls[c].max
    && s.group.next < |s.group.entries|
  }

  /** Taking a token and reading. */
  lemma TakeSteps(s: System, c: nat)
    requires CanTake(s, c)
    ensures CanStep(s, Acquire(c)) && CanStep(Step(s, Acquire(c)), Read(c, true))
    ensures var k := s.ctls[c];
            var place := if s.group.entries[s.group.next].WellFormed? then Holding(s.group.next)
                         else Dropping(s.group.next);
            Step(Step(s, Acquire(c)), Read(c, true)) ==
            s.(group := Deliver(s.group), ctls := s.ctls[c := k.(place := place, tokens := k.tokens + 1)])
  {
  }

  /** Working on a job in hand. */
  lemma WorkSteps(s: System, c: nat, id: nat)
    requires c < |s.ctls| && s.ctls[c].place == Holding(id) && s.ctls[c].tokens > 0 && id in s.group.pending
    ensures CanStep(s, Spawn(c)) && CanStep(Step(s, Spawn(c)), WorkerExit(c, id, true))
    ensures CanStep(Step(Step(s, Spawn(c)), WorkerExit(c, id, true)), AckDone(c, id, true))
    ensures var t := Step(Step(Step(s, Spawn(c)), WorkerExit(c, id, true)), AckDone(c, id, true));
            && t.workers == s.workers + multiset{id}
            && id in t.clean && id in t.group.acked && t.group.next == s.group.next
            && |t.ctls| == |s.ctls| && t.ctls[c].place == Top && t.ctls[c].tokens == s.ctls[c].tokens - 1
  {
  }

  /** Dropping a malformed message. */
  lemma DropSteps(s: System, c: nat, id: nat)
    requires c < |s.ctls| && s.ctls[c].place == Dropping(id) && s.ctls[c].tokens > 0 && id in s.group.pending
    ensures CanStep(s, Drop(c, true)) && CanStep(Step(s, Drop(c, true)), Release(c, false))
    ensures var t := Step(Step(s, Drop(c, true)), Release(c, false));
            && t.workers == s.workers && id in t.group.acked && t.group.next == s.group.next
            && |t.ctls| == |s.ctls| && t.ctls[c].place == Top && t.ctls[c].tokens == s.ctls[c].tokens - 1
  {
  }

  lemma TakeJob(slots: seq<nat>, es: seq<Event>, c: nat) returns (fs: seq<Event>)
    requires CanRun(Begin(slots), es) && CanTake(After(Begin(slots), es), c)
    ensures fs == [Acquire(c), Read(c, true)] && CanRun(Begin(slots), es + fs)
    ensures After(Begin(slots), es + fs) ==
            Step(Step(After(Begin(slots), es), Acquire(c)), Read(c, true))
  {
    TakeSteps(After(Begin(slots), es), c);
    assert es + [] == es;
    fs := Go(Begin(slots), es, [], Acquire(c));
    fs := Go(Begin(slots), es, fs, Read(c, true));
  }

  /**
   What is meant to happen does: a waiting job is read, worked on by one worker and acknowledged, and the slot is free
   again, if the worker exits cleanly and the calls are answered.
   */
  lemma JobIsDone(slots: seq<nat>, es: seq<Event>, c: nat) returns (fs: seq<Event>)
    requires CanRun(Begin(slots), es) && CanTake(After(Begin(slots), es), c)
    requires var g := After(Begin(slots), es).group; g.entries[g.next].WellFormed?
    ensures CanRun(Begin(slots), es + fs)
    ensures var s, t := After(Begin(slots), es), After(Begin(slots), es + fs);
            var id := s.group.next;
            && fs == [Acquire(c), Read(c, true), Spawn(c), WorkerExit(c, id, true), AckDone(c, id, true)]
            && t.workers == s.workers + multiset{id}
            && id in t.clean && id in t.group.acked && t.group.next == id + 1
            && |t.ctls| == |s.ctls| && t.ctls[c].place == Top && t.ctls[c].tokens == s.ctls[c].tokens
  {
    var s := After(Begin(slots), es);
    TakeSteps(s, c);
    fs := TakeJob(slots, es, c);
    WorkSteps(After(Begin(slots), es + fs), c, s.group.next);
    fs := Go(Begin(slots), es, fs, Spawn(c));
    fs := Go(Begin(slots), es, fs, WorkerExit(c, s.group.next, true));
    fs := Go(Begin(slots), es, fs, AckDone(c, s.group.next, true));
  }

  /** A waiting malformed message is read and acknowledged, and starts no worker. */
  lemma MalformedIsDropped(slots: seq<nat>, es: seq<Event>, c: nat) returns (fs: seq<Event>)
    requires CanRun(Begin(slots), es) && CanTake(After(Begin(slots), es), c)
    requires var g := After(Begin(slots), es).group; g.entries[g.next].Malformed?
    ensures CanRun(Begin(slots), es + fs)
    ensures var s, t := After(Begin(slots), es), After(Begin(slots), es + fs);
            && fs == [Acquire(c), Read(c, true), Drop(c, true), Release(c, false)]
            && t.workers == s.workers
            && s.group.next in t.group.acked && t.group.next == s.group.next + 1
            && |t.ctls| == |s.ctls| && t.ctls[c].place == Top && t.ctls[c].tokens == s.ctls[c].tokens
  {
    var s := After(Begin(slots), es);
    TakeSteps(s, c);
    fs := TakeJob(slots, es, c);
    DropSteps(After(Begin(slots), es + fs), c, s.group.next);
    fs := Go(Begin(slots), es, fs, Drop(c, true));
    fs := Go(Begin(slots), es, fs, Release(c, false));
  }

  /** No two controllers, and no two handlers, work on the same message. */
  lemma OneHandlerPerMessage(slots: seq<nat>, es: seq<Event>, c: nat, d: nat, id: nat)
    requires CanRun(Begin(slots), es)
    requires c < |After(Begin(slots), es).ctls| && d < |After(Begin(slots), es).ctls|
    requires id in After(Begin(slots), es).ctls[c].handlers && id in After(Begin(slots), es).ctls[d].handlers
    ensures c == d
  {
    InvHolds(slots, es);
    var s := After(Begin(slots), es);
    assert Has(s.ctls[c], id) && Has(s.ctls[d], id);
  }

  lemma {:induction false} SlotsStay(slots: seq<nat>, es: seq<Event>)
    requires CanRun(Begin(slots), es)
    ensures var s := After(Begin(slots), es);
            |s.ctls| == |slots| && forall c :: 0 <= c < |slots| ==> s.ctls[c].max == slots[c]
  {
    if es != [] {
      RunLast(Begin(slots), es);
      SlotsStay(slots, es[..|es| - 1]);
    }
  }

  /**
   Slots: a controller never has more live handlers than slots, takes a message only with a slot to spare,
   and once out of its loop holds exactly the tokens of its live handlers.
   */
  lemma SlotsRespected(slots: seq<nat>, es: seq<Event>, c: nat)
    requires CanRun(Begin(slots), es) && c < |slots|
    ensures var s := After(Begin(slots), es);
            && c < |s.ctls|
            && |s.ctls[c].handlers| <= slots[c]
            && (s.ctls[c].place == Reading ==> |s.ctls[c].handlers| < slots[c])
            && (s.ctls[c].place == Exited ==> s.ctls[c].tokens == |s.ctls[c].handlers|)
  {
    InvHolds(slots, es);
    SlotsStay(slots, es);
    assert TokenInv(After(Begin(slots), es).ctls[c]);
  }

  /** The messages handed out, in the order of the reads. */
  function Delivered(s: System, es: seq<Event>): seq<nat>
    requires CanRun(s, es)
  {
    if es == [] then []
    else
      var init := es[..|es| - 1];
      RunLast(s, es);
      Delivered(s, init) + if es[|es| - 1].Read? then [After(s, init).group.next] else []
  }

  /** Whoever reads, messages come in the order they were added, each once. */
  lemma {:induction false} DeliveredInOrder(slots: seq<nat>, es: seq<Event>)
    requires CanRun(Begin(slots), es)
    ensures var d := Delivered(Begin(slots), es);
            |d| == After(Begin(slots), es).group.next && forall i :: 0 <= i < |d| ==> d[i] == i
  {
    if es != [] {
      RunLast(Begin(slots), es);
      DeliveredInOrder(slots, es[..|es| - 1]);
    }
  }
}

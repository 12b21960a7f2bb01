/**
 A controller at work: its loop, which takes a slot, reads a job and starts a handler, and the handler, which
 runs a worker and acknowledges the job after a clean exit. Producers, other controllers, and the loop and
 handlers of this one act in between; what happens is a run of the transition system in module DispatchRuns.
 */
module Controllers {
  import opened Options
  import opened Dispatch
  import opened DispatchRuns

  /** An access by the loop of controller `c`. */
  predicate OfLoop(e: Event, c: nat) {
    !e.Produce? && !e.WorkerExit? && !e.AckDone? && e.c == c
  }

  /** An access by controller `c`'s handler of message `id`. */
  predicate OfHandler(e: Event, c: nat, id: nat) {
    (e.WorkerExit? || e.AckDone?) && e.c == c && e.id == id
  }

  /** Only its own accesses move a loop; handlers that end give their tokens back. */
  lemma LoopStays(s: System, e: Event, c: nat)
    requires CanStep(s, e) && c < |s.ctls| && !OfLoop(e, c)
    ensures var k, l := s.ctls[c], Step(s, e).ctls[c];
            |Step(s, e).ctls| == |s.ctls| && l.place == k.place && l.max == k.max && l.tokens <= k.tokens
  {
  }

  lemma EntriesStay(s: System, e: Event)
    requires CanStep(s, e)
    ensures s.group.entries <= Step(s, e).group.entries
  {
  }

  lemma StaysPartitioned(slots: seq<nat>, es: seq<Event>)
    requires CanRun(Begin(slots), es)
    ensures Partitioned(After(Begin(slots), es).group)
  {
    InvHolds(slots, es);
  }

  /** Only its own accesses move a handler. */
  lemma HandlerStays(s: System, e: Event, c: nat, id: nat)
    requires Inv(s) && CanStep(s, e) && c < |s.ctls| && id in s.ctls[c].handlers && !OfHandler(e, c, id)
    ensures var k, l := s.ctls[c], Step(s, e).ctls[c];
            |Step(s, e).ctls| == |s.ctls| && id in l.handlers && l.handlers[id] == k.handlers[id]
  {
    assert Has(s.ctls[c], id);
  }

  class Controller {
    const stream: JobStream
    const slots: seq<nat>      // MaxParallel of every controller in the group
    const me: nat
    var ctls: seq<Ctl>         // all controllers; the others' belong to the environment
    var workers: multiset<nat>
    var clean: set<nat>
    ghost var run: seq<Event>

    ghost function View(): System
      reads this, stream
    {
      System(stream.group, ctls, workers, clean)
    }

    ghost predicate Valid()
      reads this, stream
    {
      && me < |ctls|
      && Partitioned(stream.group)
      && CanRun(Begin(slots), run)
      && After(Begin(slots), run) == View()
    }

    /** The loop is here. */
    ghost predicate At(p: Place)
      reads this, stream
    {
      Valid() && ctls[me].place == p
    }

    constructor (stream: JobStream, slots: seq<nat>, me: nat)
      requires stream.group == NO_MESSAGES && me < |slots|
      ensures At(Top) && run == [] && this.stream == stream && this.slots == slots && this.me == me
    {
      this.stream, this.slots, this.me := stream, slots, me;
      ctls := seq(|slots|, i requires 0 <= i < |slots| => Ctl(slots[i], Top, 0, map[]));
      workers, clean, run := multiset{}, {}, [];
    }

    /** The fields have just made step `e` from state `was`. */
    ghost method Note(was: System, e: Event)
      requires CanRun(Begin(slots), run) && After(Begin(slots), run) == was
      requires CanStep(was, e) && View() == Step(was, e) && me < |ctls|
      modifies this`run
      ensures Valid() && run == old(run) + [e]
    {
      RunSnoc(Begin(slots), run, e);
      run := run + [e];
      StaysPartitioned(slots, run);
    }

    /** Some access by somebody. */
    method Happen(e: Event)
      requires Valid() && CanStep(View(), e)
      modifies this, stream
      ensures Valid() && View() == Step(old(View()), e) && run == old(run) + [e]
    {
      ghost var was := View();
      var s := System(stream.group, ctls, workers, clean);
      var t := Step(s, e);
      assert |t.ctls| == |s.ctls|;
      stream.group, ctls, workers, clean := t.group, t.ctls, t.workers, t.clean;
      Note(was, e);
    }

    /** Others act, and this controller's handlers, but not its loop. */
    method Meanwhile()
      requires Valid()
      modifies this, stream
      ensures Valid() && old(run) <= run && old(stream.group.entries) <= stream.group.entries
      ensures ctls[me].place == old(ctls[me].place) && ctls[me].max == old(ctls[me].max)
      ensures ctls[me].tokens <= old(ctls[me].tokens)
    {
      var n: nat :| n >= 0;
      for k := 0 to n
        invariant Valid() && old(run) <= run && old(stream.group.entries) <= stream.group.entries
        invariant ctls[me].place == old(ctls[me].place) && ctls[me].max == old(ctls[me].max)
        invariant ctls[me].tokens <= old(ctls[me].tokens)
      {
        var e: Event := *;
        var s := System(stream.group, ctls, workers, clean);
        if CanStep(s, e) && !OfLoop(e, me) {
          LoopStays(s, e, me);
          EntriesStay(s, e);
          Happen(e);
        }
      }
    }

    /** Everybody but this controller's handler of message `id` acts. */
    method MeanwhileElsewhere(id: nat)
      requires Valid() && id in ctls[me].handlers
      modifies this, stream
      ensures Valid() && old(run) <= run
      ensures id in ctls[me].handlers && ctls[me].handlers[id] == old(ctls[me].handlers[id])
    {
      var n: nat :| n >= 0;
      for k := 0 to n
        invariant Valid() && old(run) <= run
        invariant id in ctls[me].handlers && ctls[me].handlers[id] == old(ctls[me].handlers[id])
      {
        var e: Event := *;
        var s := System(stream.group, ctls, workers, clean);
        if CanStep(s, e) && !OfHandler(e, me, id) {
          InvHolds(slots, run);
          HandlerStays(s, e, me, id);
          Happen(e);
        }
      }
    }

    // -------------------------------------------------------------- the loop

    /** The loop takes its place, with so many tokens in the channel. */
    method Move(p: Place, tokens: nat)
      requires me < |ctls|
      modifies this`ctls
      ensures ctls == old(ctls)[me := old(ctls)[me].(place := p, tokens := tokens)]
    {
      ctls := ctls[me := ctls[me].(place := p, tokens := tokens)];
    }

    /**
     Read one job. None without error is a timeout. A malformed message is acknowledged, if that succeeds,
     and reported as an error; so is a reply that never arrives, and then the message stays pending. `answers` is
     whether the call has an effect, `arrives` whether its reply comes back.
     */
    method ReadOne(answers: bool, arrives: bool) returns (r: Option<(Job, nat)>, failed: bool)
      requires At(Reading)
      modifies this, stream
      ensures Valid() && old(run) <= run && ctls[me].max == old(ctls[me].max)
      ensures ctls[me].place == if r.Some? then Holding(r.value.1) else GivingBack
      ensures r.Some? ==> !failed && r.value.1 < |stream.group.entries| &&
                          stream.group.entries[r.value.1] == WellFormed(r.value.0)
      ensures var g := old(stream.group);
              && (r.Some? <==> answers && g.next < |g.entries| && arrives && g.entries[g.next].WellFormed?)
              && (r.Some? ==> r.value.1 == g.next)
              && (answers && g.next < |g.entries| && r.None? ==> failed)
    {
      ghost var was := View();
      if !answers || stream.group.next == |stream.group.entries| {
        Move(GivingBack, ctls[me].tokens);
        failed := *;
        Note(was, Timeout(me));
        return None, failed;
      }
      var id := stream.ReadGroup();
      if !arrives {
        Move(GivingBack, ctls[me].tokens);
        Note(was, Read(me, false));
        return None, true;
      }
      if stream.group.entries[id].WellFormed? {
        Move(Holding(id), ctls[me].tokens);
        Note(was, Read(me, true));
        return Some((stream.group.entries[id].job, id)), false;
      }
      Move(Dropping(id), ctls[me].tokens);
      Note(was, Read(me, true));
      DropMalformed(id);
      return None, true;
    }

    method DropMalformed(id: nat)
      requires At(Dropping(id))
      modifies this, stream
      ensures At(GivingBack) && old(run) <= run && ctls[me].max == old(ctls[me].max)
    {
      Meanwhile();
      ghost var was := View();
      var ackWorks: bool := *;
      if ackWorks {
        stream.Ack(id);
      }
      Move(GivingBack, ctls[me].tokens);
      Note(was, Drop(me, ackWorks));
    }

    /** With a token: read, and start a handler that takes the token over, or give it back. */
    method TakeJob() returns (stopped: bool)
      requires At(Reading)
      modifies this, stream
      ensures At(if stopped then Exited else Top) && old(run) <= run && ctls[me].max == old(ctls[me].max)
    {
      Meanwhile();
      var answers: bool, arrives: bool := *, *;
      var r, failed := ReadOne(answers, arrives);
      Meanwhile();
      if r.None? {
        stopped := *;                // cancelled, in the read or while backing off
        stopped := stopped && failed;
        GiveBack(stopped);
      } else {
        StartHandler(r.value.1);
        stopped := false;
      }
    }

    method GiveBack(leave: bool)
      requires At(GivingBack)
      modifies this, stream
      ensures At(if leave then Exited else Top) && run == old(run) + [Release(me, leave)]
      ensures ctls[me].max == old(ctls[me].max) && ctls[me].tokens == old(ctls[me].tokens) - 1
    {
      ghost var was := View();
      InvHolds(slots, run);
      assert TokenInv(was.ctls[me]);
      Move(if leave then Exited else Top, ctls[me].tokens - 1);
      Note(was, Release(me, leave));
    }

    method StartHandler(id: nat)
      requires At(Holding(id))
      modifies this, stream
      ensures At(Top) && run == old(run) + [Spawn(me)]
      ensures ctls[me] == old(ctls[me]).(place := Top, handlers := old(ctls[me].handlers)[id := Working])
    {
      ghost var was := View();
      ctls := ctls[me := ctls[me].(place := Top, handlers := ctls[me].handlers[id := Working])];
      workers := workers + multiset{id};
      Note(was, Spawn(me));
    }

    method Leave()
      requires At(Top)
      modifies this, stream
      ensures At(Exited) && run == old(run) + [Stop(me)] && ctls[me].max == old(ctls[me].max)
    {
      ghost var was := View();
      Move(Exited, ctls[me].tokens);
      Note(was, Stop(me));
    }

    method TakeToken()
      requires At(Top) && ctls[me].tokens < ctls[me].max
      modifies this, stream
      ensures At(Reading) && run == old(run) + [Acquire(me)] && ctls[me].max == old(ctls[me].max)
    {
      ghost var was := View();
      Move(Reading, ctls[me].tokens + 1);
      Note(was, Acquire(me));
    }

    /**
     The loop, followed for `rounds` rounds. At any time its live handlers are at most MaxParallel, and once it
     has returned the tokens left in the channel are those of the handlers still alive.
     */
    method Run(rounds: nat) returns (stopped: bool)
      requires At(Top)
      modifies this, stream
      ensures At(if stopped then Exited else Top) && old(run) <= run
      ensures |ctls[me].handlers| <= old(ctls[me].max) && ctls[me].tokens == |ctls[me].handlers|
    {
      stopped := false;
      for round := 0 to rounds
        invariant At(Top) && old(run) <= run && ctls[me].max == old(ctls[me].max) && !stopped
      {
        Meanwhile();
        stopped := *;                            // whether the context is cancelled
        if stopped {
          Leave();
          break;
        }
        if ctls[me].tokens < ctls[me].max {      // otherwise the loop waits for a token
          TakeToken();
          stopped := TakeJob();
          if stopped {
            break;
          }
        }
      }
      InvHolds(slots, run);
      assert TokenInv(ctls[me]);
    }

    // -------------------------------------------------------------- a handler

    /** Run the worker; acknowledge after a clean exit; the token comes back in any case. */
    method HandleJob(id: nat, exitedCleanly: bool, ackWorks: bool)
      requires Valid() && id in ctls[me].handlers && ctls[me].handlers[id] == Working
      modifies this, stream
      ensures Valid() && old(run) <= run && id !in ctls[me].handlers
      ensures exitedCleanly <==> id in clean
      ensures exitedCleanly && ackWorks ==> id in stream.group.acked
      ensures !exitedCleanly ==> id in stream.group.pending
      ensures id in stream.group.acked ==> exitedCleanly
    {
      MeanwhileElsewhere(id);
      WorkerEnds(id, exitedCleanly);
      if exitedCleanly {
        MeanwhileElsewhere(id);
        AckJob(id, ackWorks);
      }
      AckedIsEarned(slots, run, id);
      InvHolds(slots, run);
    }

    method WorkerEnds(id: nat, exitedCleanly: bool)
      requires Valid() && id in ctls[me].handlers && ctls[me].handlers[id] == Working
      modifies this, stream
      ensures Valid() && old(run) <= run
      ensures if exitedCleanly then id in ctls[me].handlers && ctls[me].handlers[id] == Acking
              else id !in ctls[me].handlers && id !in clean && id in stream.group.pending
    {
      ghost var was := View();
      InvHolds(slots, run);
      var k := ctls[me];
      assert TokenInv(was.ctls[me]) && Has(was.ctls[me], id) && |k.handlers| > 0;
      if exitedCleanly {
        ctls := ctls[me := k.(handlers := k.handlers[id := Acking])];
        clean := clean + {id};
      } else {
        ctls := ctls[me := k.(handlers := k.handlers - {id}, tokens := k.tokens - 1)];
      }
      Note(was, WorkerExit(me, id, exitedCleanly));
    }

    method AckJob(id: nat, ackWorks: bool)
      requires Valid() && id in ctls[me].handlers && ctls[me].handlers[id] == Acking
      modifies this, stream
      ensures Valid() && old(run) <= run && id !in ctls[me].handlers && id in clean
      ensures ackWorks ==> id in stream.group.acked
    {
      ghost var was := View();
      InvHolds(slots, run);
      var k := ctls[me];
      assert TokenInv(was.ctls[me]) && Has(was.ctls[me], id) && |k.handlers| > 0;
      if ackWorks {
        stream.Ack(id);
      }
      ctls := ctls[me := k.(handlers := k.handlers - {id}, tokens := k.tokens - 1)];
      Note(was, AckDone(me, id, ackWorks));
    }
  }
}

/** What every run of the bot session guarantees, and where cancellation breaks the guarantee. */
module SessionTheorems {
  import opened BotTypes
  import opened Session

  /** The run is over, so `Machine.Run` has returned. */
  predicate Over(s: Session) {
    s.loc.Finished?
  }

  // ---------------------------------------------------------------- recorder

  /**
   A finished run has used the recorder in one of the legal ways, and left it stopped, exactly if it was not
   forced to its end; and without cancellation it was not.
   */
  lemma RecorderProtocol(hasRecorder: bool, es: seq<Event>)
    requires CanRun(Initial(hasRecorder), es) && Over(After(Initial(hasRecorder), es))
    ensures var s := After(Initial(hasRecorder), es);
            && (if hasRecorder then LegalHistory(s.rec.calls) <==> !s.loc.forced else s.rec.calls == [])
            && (!s.loc.forced ==> !s.rec.running)
            && (!s.shared.cancelled ==> !s.loc.forced)
  {
    InvHolds(hasRecorder, es);
    CallsHold(hasRecorder, es);
    var s := After(Initial(hasRecorder), es);
    if hasRecorder {
      if !s.loc.forced {
        FinishedHistory(s.rec.calls);
      } else {
        StopEndsHistory(s.rec.calls);
        if LegalHistory(s.rec.calls) {
          LegalMeansStopped(s.rec.calls);
        }
      }
    }
  }

  lemma LegalMeansStopped(calls: seq<Call>)
    requires LegalHistory(calls)
    ensures Stop in calls
  {
    assert calls != [] && calls[|calls| - 1] == Stop;
  }

  lemma {:induction false} StopEndsHistory(calls: seq<Call>)
    requires PhaseOf(calls) != Illegal
    ensures PhaseOf(calls) == Done <==> Stop in calls
  {
    if calls != [] {
      var init, last := calls[..|calls| - 1], calls[|calls| - 1];
      assert calls == init + [last];
      StopEndsHistory(init);
    }
  }

  /**
   Exactly which finished runs leave the recorder alone: the ones forced to the end by a cancelled
   context. They never call Stop, and the recorder is left running if it had been started.
   */
  lemma RecorderLeftRunning(hasRecorder: bool, es: seq<Event>)
    requires CanRun(Initial(hasRecorder), es) && Over(After(Initial(hasRecorder), es))
    ensures var s := After(Initial(hasRecorder), es);
            && (s.rec.running <==> s.loc.forced && s.rec.started)
            && (hasRecorder ==> (s.loc.forced <==> Stop !in s.rec.calls))
  {
    InvHolds(hasRecorder, es);
    CallsHold(hasRecorder, es);
    var s := After(Initial(hasRecorder), es);
    if hasRecorder {
      StopEndsHistory(s.rec.calls);
    }
  }

  function Ticks(n: nat): seq<Event> {
    if n == 0 then [] else Ticks(n - 1) + [Tick(Ok)]
  }

  /** The i-th state of an undisturbed start. */
  function Early(hasRecorder: bool, i: nat): Session
    requires i <= 10
  {
    var loc :=
      match i
      case 0 => Head(Initialization)
      case 1 => Launching
      case 2 => Leaving(Initialization, WaitingRoom)
      case 3 => Head(WaitingRoom)
      case 4 => Joining
      case 5 => Leaving(WaitingRoom, InCall)
      case 6 => Head(InCall)
      case 7 => EarlyStopTest
      case 8 => Starting
      case 9 => Leaving(InCall, Recording)
      case _ => Head(Recording);
    var rec :=
      if !hasRecorder then Recorder(false, false, false, [], Idle)
      else if i < 9 then Recorder(true, false, false, [], Idle)
      else Recorder(true, true, true, [Start], Live);
    Session(loc, Shared(Unset, false, false, false, []), rec,
            History(i == 10, if i < 1 then 0 else if i < 4 then 1 else if i < 7 then 2 else 3, 0, 0))
  }

  lemma EarlyStep(hasRecorder: bool, i: nat)
    requires i < 5
    ensures CanStep(Early(hasRecorder, i), Tick(Ok))
    ensures Step(Early(hasRecorder, i), Tick(Ok)) == Early(hasRecorder, i + 1)
  {
  }

  lemma LateStep(hasRecorder: bool, i: nat)
    requires 5 <= i < 10
    ensures CanStep(Early(hasRecorder, i), Tick(Ok))
    ensures Step(Early(hasRecorder, i), Tick(Ok)) == Early(hasRecorder, i + 1)
  {
  }

  lemma AnyStep(hasRecorder: bool, i: nat)
    requires i < 10
    ensures CanStep(Early(hasRecorder, i), Tick(Ok))
    ensures Step(Early(hasRecorder, i), Tick(Ok)) == Early(hasRecorder, i + 1)
  {
    if i < 5 {
      EarlyStep(hasRecorder, i);
    } else {
      LateStep(hasRecorder, i);
    }
  }

  lemma RunReaches(s: Session, es: seq<Event>, e: Event, t: Session, u: Session)
    requires CanRun(s, es) && After(s, es) == t && CanStep(t, e) && Step(t, e) == u
    ensures CanRun(s, es + [e]) && After(s, es + [e]) == u
  {
    RunSnoc(s, es, e);
  }

  /** Ten undisturbed accesses take a fresh session to Recording with its recorder started. */
  lemma {:induction false} ReachRecording(hasRecorder: bool, i: nat)
    requires i <= 10
    ensures CanRun(Initial(hasRecorder), Ticks(i))
    ensures After(Initial(hasRecorder), Ticks(i)) == Early(hasRecorder, i)
  {
    if i > 0 {
      ReachRecording(hasRecorder, i - 1);
      AnyStep(hasRecorder, i - 1);
      RunReaches(Initial(hasRecorder), Ticks(i - 1), Tick(Ok), Early(hasRecorder, i - 1), Early(hasRecorder, i));
    }
  }

  /** The guarantee does fail under cancellation: a run that ends with the recorder running. */
  lemma CancelledRunLeavesRecorderRunning()
    ensures var es := Ticks(10) + [Cancel, Tick(Ok)];
            && CanRun(Initial(true), es)
            && Over(After(Initial(true), es))
            && After(Initial(true), es).rec.running
  {
    ReachRecording(true, 10);
    var s := After(Initial(true), Ticks(10));
    RunSnoc(Initial(true), Ticks(10), Cancel);
    RunSnoc(Initial(true), Ticks(10) + [Cancel], Tick(Ok));
    assert Ticks(10) + [Cancel] + [Tick(Ok)] == Ticks(10) + [Cancel, Tick(Ok)];
    ForcedEnd(s);
  }

  /** Cancelled at the top of the loop: the machine ends there and leaves the recorder as it is. */
  lemma ForcedEnd(s: Session)
    requires s.loc.Head? && s.loc != Head(Terminated)
    ensures var t := Step(Step(s, Cancel), Tick(Ok)); Over(t) && t.loc.forced && t.rec == s.rec
  {
  }

  // ---------------------------------------------------------------- end reason and error flag

  /** Error is entered only with the error flag, Cleanup only with an end reason, Recording only when recording. */
  lemma EntryConditions(hasRecorder: bool, es: seq<Event>)
    requires CanRun(Initial(hasRecorder), es)
    ensures var s := After(Initial(hasRecorder), es);
            && (s.loc == Head(Error) ==> s.shared.hasError)
            && (s.loc == Head(Cleanup) ==> s.shared.reason != Unset)
            && (s.loc == Head(Recording) ==> !hasRecorder || s.rec.running)
  {
    InvHolds(hasRecorder, es);
    CallsHold(hasRecorder, es);
  }

  /** Neither the error flag nor the end reason is ever cleared. */
  lemma {:induction false} NeverCleared(s: Session, es: seq<Event>)
    requires CanRun(s, es)
    ensures s.shared.hasError ==> After(s, es).shared.hasError
    ensures s.shared.reason != Unset ==> After(s, es).shared.reason != Unset
    ensures s.shared.cancelled ==> After(s, es).shared.cancelled
    ensures s.hist.recorded ==> After(s, es).hist.recorded
  {
    if es != [] {
      var init, e := es[..|es| - 1], es[|es| - 1];
      NeverCleared(s, init);
      StepKeepsFlags(After(s, init), e);
    }
  }

  lemma StepKeepsFlags(s: Session, e: Event)
    requires CanStep(s, e)
    ensures s.shared.hasError ==> Step(s, e).shared.hasError
    ensures s.shared.reason != Unset ==> Step(s, e).shared.reason != Unset
    ensures s.shared.cancelled ==> Step(s, e).shared.cancelled
    ensures s.hist.recorded ==> Step(s, e).hist.recorded
  {
  }

  /** At every moment of an uncancelled run, "successful" means that a recording was made. */
  lemma SuccessfulMeansRecorded(hasRecorder: bool, es: seq<Event>)
    requires CanRun(Initial(hasRecorder), es)
    ensures var s := After(Initial(hasRecorder), es);
            Successful(s) && !s.shared.cancelled ==> s.hist.recorded && (hasRecorder ==> s.rec.started)
  {
    InvHolds(hasRecorder, es);
    CallsHold(hasRecorder, es);
  }

  /**
   `WasRecordingSuccessful` reads the error flag and the end reason separately. Asked once the run is over,
   it is right all the same, however long after the flag the reason is read.
   */
  lemma SuccessReadApart(hasRecorder: bool, es: seq<Event>, fs: seq<Event>)
    requires CanRun(Initial(hasRecorder), es) && CanRun(After(Initial(hasRecorder), es), fs)
    ensures var s := After(Initial(hasRecorder), es);
            Over(s) && !s.shared.cancelled && !s.shared.hasError ==>
              && After(s, fs).hist.recorded
              && (hasRecorder ==> s.rec.started)
  {
    InvHolds(hasRecorder, es);
    CallsHold(hasRecorder, es);
    NeverCleared(After(Initial(hasRecorder), es), fs);
  }

  predicate OutsideOnly(es: seq<Event>) {
    forall i :: 0 <= i < |es| ==> !es[i].Tick?
  }

  /** No stop, pause or cancellation arriving from now on makes an unrecorded session look successful. */
  ghost predicate SuccessCanBeTrusted(s: Session) {
    forall fs | OutsideOnly(fs) && CanRun(s, fs) :: Successful(After(s, fs)) ==> After(s, fs).hist.recorded
  }

  /**
   For a run that is over, cancelled or not: `WasRecordingSuccessful` can be trusted against requests
   still arriving exactly if recording was entered or the error flag is set.
   */
  lemma TrustOnceOver(hasRecorder: bool, es: seq<Event>)
    requires CanRun(Initial(hasRecorder), es) && Over(After(Initial(hasRecorder), es))
    ensures var s := After(Initial(hasRecorder), es);
            SuccessCanBeTrusted(s) <==> s.hist.recorded || s.shared.hasError
  {
    var s := After(Initial(hasRecorder), es);
    if s.hist.recorded || s.shared.hasError {
      forall fs | OutsideOnly(fs) && CanRun(s, fs)
        ensures Successful(After(s, fs)) ==> After(s, fs).hist.recorded
      {
        NeverCleared(s, fs);
      }
    } else {
      var n := |s.shared.stops|;
      var fs := [StopRead, StopWrite(n)];
      assert CanRun(s, []);
      RunSnoc(s, [], StopRead);
      RunSnoc(s, [StopRead], StopWrite(n));
      assert [StopRead] + [StopWrite(n)] == fs;
      assert OutsideOnly(fs) && Successful(After(s, fs)) && !After(s, fs).hist.recorded;
    }
  }

  /** The machine is at the top of its loop and about to end: at Terminated, or with its context cancelled. */
  predicate Ending(s: Session) {
    s.loc.Head? && (s.loc.st == Terminated || s.shared.cancelled)
  }

  /**
   When the loop ends, for every run: the success report can be trusted from then on, whatever requests still
   arrive, unless cancellation has caught the machine before a state up to InCall with no error set.
   */
  lemma WhenSuccessCanBeTrusted(hasRecorder: bool, es: seq<Event>)
    requires CanRun(Initial(hasRecorder), es) && Ending(After(Initial(hasRecorder), es))
    ensures var s := After(Initial(hasRecorder), es);
            var t := Step(s, Tick(Ok));
            && Over(t)
            && (SuccessCanBeTrusted(t) <==> !(PreRecording(s.loc.st) && !s.shared.hasError))
  {
    var s := After(Initial(hasRecorder), es);
    InvHolds(hasRecorder, es);
    RunSnoc(Initial(hasRecorder), es, Tick(Ok));
    EndsOver(s);
    TrustOnceOver(hasRecorder, es + [Tick(Ok)]);
  }

  lemma EndsOver(s: Session)
    requires Ending(s)
    ensures Step(s, Tick(Ok)) == s.Goto(Finished(s.loc.st != Terminated))
  {
  }

  /** Every finished run has ended just so: after its first `n` events, followed by requests only. */
  lemma {:induction false} EndOfRun(s0: Session, es: seq<Event>) returns (n: nat)
    requires CanRun(s0, es) && !Over(s0) && Over(After(s0, es))
    ensures n < |es| && CanRun(s0, es[..n]) && Ending(After(s0, es[..n]))
    ensures es[n] == Tick(Ok) && OutsideOnly(es[n + 1..])
  {
    var init, last := es[..|es| - 1], es[|es| - 1];
    RunLast(s0, es);
    OnlyHeadsEnd(After(s0, init), last);
    if Over(After(s0, init)) {
      n := EndOfRun(s0, init);
      assert init[..n] == es[..n] && init[n + 1..] + [last] == es[n + 1..];
    } else {
      n := |init|;
    }
  }

  lemma OnlyHeadsEnd(s: Session, e: Event)
    requires CanStep(s, e) && Over(Step(s, e))
    ensures if Over(s) then !e.Tick? else Ending(s) && e == Tick(Ok)
  {
  }

  /** A stop request that arrives after the end. */
  lemma StopAfterTheEnd(t: Session)
    requires Over(t) && t.shared.stops == []
    ensures CanStep(t, StopRead) && CanStep(Step(t, StopRead), StopWrite(0))
    ensures var u := Step(Step(t, StopRead), StopWrite(0));
            && u.shared.reason == ApiRequest && u.shared.hasError == t.shared.hasError
            && u.hist.recorded == t.hist.recorded
  {
  }

  /** Cancelled before recording, then stopped: reported successful, never recorded. */
  lemma CancelledRunReportsSuccess()
    ensures var es := [Cancel] + [Tick(Ok)] + [StopRead] + [StopWrite(0)];
            && CanRun(Initial(true), es)
            && Successful(After(Initial(true), es))
            && !After(Initial(true), es).hist.recorded
  {
    var s := Initial(true);
    assert CanRun(s, []);
    RunSnoc(s, [], Cancel);
    assert [] + [Cancel] == [Cancel];
    EndsOver(After(s, [Cancel]));
    RunSnoc(s, [Cancel], Tick(Ok));
    StopAfterTheEnd(After(s, [Cancel] + [Tick(Ok)]));
    RunSnoc(s, [Cancel] + [Tick(Ok)], StopRead);
    RunSnoc(s, [Cancel] + [Tick(Ok)] + [StopRead], StopWrite(0));
  }

  /** A reason without the error flag is one of the normal ones. */
  predicate NormalReason(sh: Shared) {
    !sh.hasError && sh.reason != Unset ==> sh.reason.IsNormal()
  }

  lemma MachineReason(s: Session, o: Outcome)
    requires CanAnswer(s.loc, o) && NormalReason(s.shared)
    ensures NormalReason(MachineStep(s, o).shared)
  {
  }

  lemma ReasonStep(s: Session, e: Event)
    requires CanStep(s, e) && NormalReason(s.shared)
    ensures NormalReason(Step(s, e).shared)
  {
    if e.Tick? {
      MachineReason(s, e.outcome);
    }
  }

  lemma {:induction false} ReasonHolds(hasRecorder: bool, es: seq<Event>)
    requires CanRun(Initial(hasRecorder), es)
    ensures NormalReason(After(Initial(hasRecorder), es).shared)
  {
    if es != [] {
      ReasonHolds(hasRecorder, es[..|es| - 1]);
      ReasonStep(After(Initial(hasRecorder), es[..|es| - 1]), es[|es| - 1]);
    }
  }

  /** Exactly which unforced runs are reported successful: those without the error flag; and they are recorded. */
  lemma SuccessExactly(hasRecorder: bool, es: seq<Event>)
    requires CanRun(Initial(hasRecorder), es) && After(Initial(hasRecorder), es).loc == Finished(false)
    ensures var s := After(Initial(hasRecorder), es);
            && (Successful(s) <==> !s.shared.hasError)
            && (Successful(s) ==> s.hist.recorded && (hasRecorder ==> s.rec.started))
  {
    InvHolds(hasRecorder, es);
    CallsHold(hasRecorder, es);
    ReasonHolds(hasRecorder, es);
  }

  /** Nothing goes wrong at this step: no failure answer, no stop request read before recording. */
  predicate Calm(s: Session, e: Event) {
    && (e.Tick? && e.outcome.Fail? ==> s.loc == PollChecks)
    && (e.StopRead? ==> !PreRecording(Current(s.loc)))
  }

  predicate CalmRun(s: Session, es: seq<Event>)
    requires CanRun(s, es)
    decreases |es|
  {
    es == [] ||
    (RunLast(s, es);
     CalmRun(s, es[..|es| - 1]) && Calm(After(s, es[..|es| - 1]), es[|es| - 1]))
  }

  predicate CalmInv(s: Session) {
    && !s.shared.hasError
    && !(true in s.shared.stops)
    && (s.shared.reason != Unset ==> s.shared.reason.IsNormal() && !PreRecording(Current(s.loc)))
    && (s.shared.stops != [] ==> !PreRecording(Current(s.loc)))
    && s.loc != EarlyStop && s.loc != StartFailed && s.loc != ResumeFailed
    && s.loc != JoinRefused && s.loc != JoinFailed && Heading(s.loc) != Error
    && (s.loc == Starting ==> !s.rec.running)
  }

  lemma CalmLoopStep(s: Session)
    requires WellPlaced(s.loc) && CalmInv(s) && (s.loc.Head? || s.loc.Leaving?)
    ensures CalmInv(LoopStep(s))
  {
  }

  lemma CalmEarlyStep(s: Session, o: Outcome)
    requires RecorderInv(s.loc, s.rec) && CalmInv(s) && CanAnswer(s.loc, o) && Calm(s, Tick(o))
    requires PreRecording(Current(s.loc)) && !s.loc.Head? && !s.loc.Leaving?
    ensures CalmInv(MachineStep(s, o))
  {
  }

  lemma CalmLateStep(s: Session, o: Outcome)
    requires CalmInv(s) && CanAnswer(s.loc, o) && Calm(s, Tick(o))
    requires !PreRecording(Current(s.loc)) && !s.loc.Head? && !s.loc.Leaving?
    ensures CalmInv(MachineStep(s, o))
  {
  }

  lemma CalmOutsideStep(s: Session, e: Event)
    requires CalmInv(s) && CanStep(s, e) && Calm(s, e) && !e.Tick?
    ensures CalmInv(Step(s, e))
  {
  }

  lemma CalmStep(s: Session, e: Event)
    requires Inv(s) && CalmInv(s) && CanStep(s, e) && Calm(s, e)
    ensures CalmInv(Step(s, e))
  {
    if !e.Tick? {
      CalmOutsideStep(s, e);
    } else if s.loc.Head? || s.loc.Leaving? {
      CalmLoopStep(s);
    } else if PreRecording(Current(s.loc)) {
      CalmEarlyStep(s, e.outcome);
    } else {
      CalmLateStep(s, e.outcome);
    }
  }

  lemma {:induction false} CalmHolds(hasRecorder: bool, es: seq<Event>)
    requires CanRun(Initial(hasRecorder), es) && CalmRun(Initial(hasRecorder), es)
    ensures CalmInv(After(Initial(hasRecorder), es))
  {
    if es != [] {
      var init, e := es[..|es| - 1], es[|es| - 1];
      RunLast(Initial(hasRecorder), es);
      CalmHolds(hasRecorder, init);
      InvHolds(hasRecorder, init);
      CalmStep(After(Initial(hasRecorder), init), e);
    }
  }

  /** The converse: a run in which nothing goes wrong, once over, is recorded and successful. */
  lemma CalmRunSucceeds(hasRecorder: bool, es: seq<Event>)
    requires CanRun(Initial(hasRecorder), es) && CalmRun(Initial(hasRecorder), es)
    ensures var s := After(Initial(hasRecorder), es);
            Over(s) && !s.loc.forced ==> Successful(s) && s.hist.recorded
  {
    InvHolds(hasRecorder, es);
    CalmHolds(hasRecorder, es);
  }

  // ---------------------------------------------------------------- termination

  function HeadDistance(st: StateType): nat {
    match st
    case Terminated => 1
    case Cleanup => 4
    case Error => 7
    case Recording | InCall => 8
    case Paused => 9
    case Resuming | WaitingRoom => 11
    case Initialization => 14
  }

  /** Machine accesses left once an end reason is set. */
  function Distance(loc: Loc): nat {
    match loc
    case Finished(_) => 0
    case Head(st) => HeadDistance(st)
    case Leaving(_, next) => HeadDistance(next) + 1
    case CleaningUp => 3
    case Reporting | EarlyStop | PollStop | PollCancelled | HoldStop | HoldCancelled | JoinFailed => 6
    case PollCancel | HoldCancel | EarlyStopTest => 7
    case PollChecks | Pausing => 8
    case ResumeFailed | StartFailed | JoinRefused => 9
    case ResumeCall | Starting | Joining => 10
    case PollPause => 11
    case HoldFlag | Launching => 13
  }

  lemma StoppedStep(s: Session, o: Outcome)
    requires s.shared.reason != Unset && WellPlaced(s.loc) && CanAnswer(s.loc, o)
    ensures Distance(MachineStep(s, o).loc) < Distance(s.loc)
  {
  }

  function CountTicks(es: seq<Event>): nat {
    if es == [] then 0 else CountTicks(es[..|es| - 1]) + if es[|es| - 1].Tick? then 1 else 0
  }

  /** Once any end reason is set the machine takes at most 14 more steps, whatever the other goroutines do. */
  lemma {:induction false} StopEndsTheRun(hasRecorder: bool, es: seq<Event>, fs: seq<Event>)
    requires CanRun(Initial(hasRecorder), es) && After(Initial(hasRecorder), es).shared.reason != Unset
    requires CanRun(After(Initial(hasRecorder), es), fs)
    ensures var s := After(Initial(hasRecorder), es);
            CountTicks(fs) + Distance(After(s, fs).loc) <= Distance(s.loc) <= 14
    decreases |fs|
  {
    var s := After(Initial(hasRecorder), es);
    InvHolds(hasRecorder, es);
    if fs != [] {
      var init, e := fs[..|fs| - 1], fs[|fs| - 1];
      StopEndsTheRun(hasRecorder, es, init);
      NeverCleared(s, init);
      RunConcat(Initial(hasRecorder), es, init);
      InvHolds(hasRecorder, es + init);
      if e.Tick? {
        StoppedStep(After(s, init), e.outcome);
      }
    }
  }

  /** A run not yet over is never stuck: the machine always has a next access. */
  lemma NeverStuck(s: Session)
    requires !Over(s)
    ensures exists o :: CanStep(s, Tick(o))
  {
    assert CanStep(s, Tick(if s.loc == JoinRefused then Fail(TimeoutWaiting) else Ok));
  }

  /** With P pauses requested, at most 3P + 5 states are executed. */
  lemma ExecutedStates(hasRecorder: bool, es: seq<Event>)
    requires CanRun(Initial(hasRecorder), es)
    ensures var h := After(Initial(hasRecorder), es).hist; h.executed <= 3 * h.flips + 5
  {
    InvHolds(hasRecorder, es);
  }

  // ---------------------------------------------------------------- the bound is exact

  lemma Go(s0: Session, es: seq<Event>, e: Event) returns (es': seq<Event>)
    requires CanRun(s0, es) && CanStep(After(s0, es), e)
    ensures CanRun(s0, es') && After(s0, es') == Step(After(s0, es), e)
  {
    RunSnoc(s0, es, e);
    es' := es + [e];
  }

  predicate Undisturbed(s: Session) {
    s.shared == Shared(Unset, false, false, false, []) && s.rec.present
  }

  /** From Recording: a pause request, seen by the next poll. */
  lemma PollPaused(s0: Session, es: seq<Event>) returns (es': seq<Event>)
    requires CanRun(s0, es) && After(s0, es).loc == Head(Recording) && Undisturbed(After(s0, es))
    ensures CanRun(s0, es')
    ensures var s := After(s0, es);
            After(s0, es') == s.(loc := PollPause, shared := s.shared.(paused := true),
                                 hist := s.hist.(executed := s.hist.executed + 1, flips := s.hist.flips + 1))
  {
    es' := Go(s0, es, SetPaused(true));
    es' := Go(s0, es', Tick(Ok));
    es' := Go(s0, es', Tick(Ok));
    es' := Go(s0, es', Tick(Ok));
  }

  /** The machine settles in Paused. */
  lemma PauseOnce(s0: Session, es: seq<Event>) returns (es': seq<Event>)
    requires CanRun(s0, es) && After(s0, es).loc == PollPause && After(s0, es).rec.present
    requires After(s0, es).shared.paused && !After(s0, es).shared.cancelled
    ensures CanRun(s0, es')
    ensures var s := After(s0, es);
            After(s0, es') == s.(loc := HoldCancel, rec := s.rec.Log(Pause),
                                 hist := s.hist.(executed := s.hist.executed + 1, holds := s.hist.holds + 1))
  {
    es' := Go(s0, es, Tick(Ok));
    assert After(s0, es').loc == Leaving(Recording, Paused);
    es' := Go(s0, es', Tick(Ok));
    es' := Go(s0, es', Tick(Ok));
    es' := Go(s0, es', Tick(Ok));
  }

  /** From Paused: a resume request, seen by the next poll. */
  lemma PollResumed(s0: Session, es: seq<Event>) returns (es': seq<Event>)
    requires CanRun(s0, es) && After(s0, es).loc == HoldCancel
    requires var sh := After(s0, es).shared; sh.paused && sh.reason == Unset && !sh.cancelled
    ensures CanRun(s0, es')
    ensures var s := After(s0, es);
            After(s0, es') == s.(loc := Leaving(Paused, Resuming), shared := s.shared.(paused := false))
  {
    es' := Go(s0, es, SetPaused(false));
    es' := Go(s0, es', Tick(Ok));
    es' := Go(s0, es', Tick(Ok));
    es' := Go(s0, es', Tick(Ok));
  }

  lemma EnterResuming(s0: Session, es: seq<Event>) returns (es': seq<Event>)
    requires CanRun(s0, es) && After(s0, es).loc == Leaving(Paused, Resuming) && !After(s0, es).shared.cancelled
    ensures CanRun(s0, es')
    ensures var s := After(s0, es);
            After(s0, es') == s.(loc := ResumeCall, hist := s.hist.(executed := s.hist.executed + 1))
  {
    es' := Go(s0, es, Tick(Ok));
    es' := Go(s0, es', Tick(Ok));
  }

  /** One full pause, up to the recorder's answer to the resume. */
  lemma PauseAndResume(s0: Session, es: seq<Event>) returns (es': seq<Event>)
    requires CanRun(s0, es) && After(s0, es).loc == Head(Recording) && Undisturbed(After(s0, es))
    ensures CanRun(s0, es')
    ensures var s, t := After(s0, es), After(s0, es');
            && t.loc == ResumeCall && Undisturbed(t)
            && t.hist.executed == s.hist.executed + 3 && t.hist.flips == s.hist.flips + 1
  {
    es' := PollPaused(s0, es);
    es' := PauseOnce(s0, es');
    es' := PollResumed(s0, es');
    es' := EnterResuming(s0, es');
  }

  lemma BackToRecording(s0: Session, es: seq<Event>) returns (es': seq<Event>)
    requires CanRun(s0, es) && After(s0, es).loc == ResumeCall && Undisturbed(After(s0, es))
    ensures CanRun(s0, es')
    ensures var s := After(s0, es);
            After(s0, es') == s.(loc := Head(Recording), rec := s.rec.Log(Resume), hist := s.hist.(recorded := true))
  {
    es' := Go(s0, es, Tick(Ok));
    es' := Go(s0, es', Tick(Ok));
  }

  lemma FailToError(s0: Session, es: seq<Event>) returns (es': seq<Event>)
    requires CanRun(s0, es) && (After(s0, es).loc == StartFailed || After(s0, es).loc == ResumeFailed)
    ensures CanRun(s0, es')
    ensures var s, t := After(s0, es), After(s0, es');
            t.loc == Head(Error) && t.shared.cancelled == s.shared.cancelled && t.hist == s.hist
  {
    es' := Go(s0, es, Tick(Ok));
    assert After(s0, es').loc.next == Error;
    es' := Go(s0, es', Tick(Ok));
  }

  lemma ErrorToCleanup(s0: Session, es: seq<Event>) returns (es': seq<Event>)
    requires CanRun(s0, es) && After(s0, es).loc == Head(Error) && !After(s0, es).shared.cancelled
    ensures CanRun(s0, es')
    ensures var s, t := After(s0, es), After(s0, es');
            t.loc == Head(Cleanup) && !t.shared.cancelled && t.hist == s.hist.(executed := s.hist.executed + 1)
  {
    es' := Go(s0, es, Tick(Ok));
    es' := Go(s0, es', Tick(Ok));
    es' := Go(s0, es', Tick(Ok));
  }

  lemma CleanupToEnd(s0: Session, es: seq<Event>) returns (es': seq<Event>)
    requires CanRun(s0, es) && After(s0, es).loc == Head(Cleanup) && !After(s0, es).shared.cancelled
    ensures CanRun(s0, es') && Over(After(s0, es'))
    ensures var s := After(s0, es); After(s0, es').hist == s.hist.(executed := s.hist.executed + 1)
  {
    es' := Go(s0, es, Tick(Ok));
    es' := Go(s0, es', Tick(Ok));
    es' := Go(s0, es', Tick(Ok));
    es' := Go(s0, es', Tick(Ok));
  }

  /** After `n` full pauses the machine is back in Recording having executed 3 + 3n states. */
  lemma {:induction false} AfterPauses(n: nat) returns (es: seq<Event>)
    ensures CanRun(Initial(true), es)
    ensures var s := After(Initial(true), es);
            && s.loc == Head(Recording) && Undisturbed(s)
            && s.hist.executed == 3 + 3 * n && s.hist.flips == n
  {
    var s0 := Initial(true);
    if n == 0 {
      es := Ticks(10);
      ReachRecording(true, 10);
    } else {
      es := AfterPauses(n - 1);
      es := PauseAndResume(s0, es);
      es := BackToRecording(s0, es);
    }
  }

  lemma FailAtStart() returns (es: seq<Event>)
    ensures CanRun(Initial(true), es)
    ensures var s := After(Initial(true), es);
            s.loc == StartFailed && !s.shared.cancelled && s.hist.executed == 3 && s.hist.flips == 0
  {
    ReachRecording(true, 8);
    es := Go(Initial(true), Ticks(8), Tick(Fail(Internal)));
  }

  /** After `p` pauses and no more, a recorder call fails having let 3 + 3p states execute. */
  lemma FailLate(p: nat) returns (es: seq<Event>)
    ensures CanRun(Initial(true), es)
    ensures var s := After(Initial(true), es);
            && (s.loc == StartFailed || s.loc == ResumeFailed) && !s.shared.cancelled
            && s.hist.executed == 3 + 3 * p && s.hist.flips == p
  {
    var s0 := Initial(true);
    if p == 0 {
      es := FailAtStart();
    } else {
      es := AfterPauses(p - 1);
      es := PauseAndResume(s0, es);
      es := Go(s0, es, Tick(Fail(Internal)));
    }
  }

  /** 3P + 5 is reached for every P, by a run whose last recorder call fails. */
  lemma ExecutedStatesReached(p: nat)
    ensures exists es ::
              && CanRun(Initial(true), es)
              && var s := After(Initial(true), es);
                 Over(s) && s.hist.flips == p && s.hist.executed == 3 * p + 5
  {
    var s0 := Initial(true);
    var es := FailLate(p);
    es := FailToError(s0, es);
    es := ErrorToCleanup(s0, es);
    es := CleanupToEnd(s0, es);
  }
}

/** How a session comes to its end: after cancellation, after a stop request, and for which reason. */
module SessionEndings {
  import opened BotTypes
  import opened Session
  import opened SessionTheorems

  // ---------------------------------------------------------------- cancellation

  /** Machine accesses left once the context is cancelled. */
  function AfterCancel(loc: Loc): nat {
    match loc
    case Finished(_) => 0
    case Head(_) => 1
    case Leaving(_, _) => 2
    case Launching | JoinRefused | EarlyStop | StartFailed | PollCancelled | HoldCancelled | ResumeFailed => 3
    case Reporting | CleaningUp => 3
    case JoinFailed | Starting | PollCancel | HoldCancel | ResumeCall => 4
    case Joining | EarlyStopTest | PollChecks | Pausing | HoldFlag => 5
    case PollPause | HoldStop => 6
    case PollStop => 7
  }

  lemma CancelledStep(s: Session, o: Outcome)
    requires s.shared.cancelled && CanAnswer(s.loc, o)
    ensures AfterCancel(MachineStep(s, o).loc) < AfterCancel(s.loc)
  {
  }

  /** Cancellation ends every session: from then on the machine makes at most 7 accesses, whatever others do. */
  lemma {:induction false} CancelEndsTheRun(hasRecorder: bool, es: seq<Event>, fs: seq<Event>)
    requires CanRun(Initial(hasRecorder), es) && After(Initial(hasRecorder), es).shared.cancelled
    requires CanRun(After(Initial(hasRecorder), es), fs)
    ensures var s := After(Initial(hasRecorder), es);
            CountTicks(fs) + AfterCancel(After(s, fs).loc) <= AfterCancel(s.loc) <= 7
    ensures CountTicks(fs) == 7 ==> Over(After(After(Initial(hasRecorder), es), fs))
    decreases |fs|
  {
    var s := After(Initial(hasRecorder), es);
    if fs != [] {
      var init, e := fs[..|fs| - 1], fs[|fs| - 1];
      RunLast(s, fs);
      CancelEndsTheRun(hasRecorder, es, init);
      NeverCleared(s, init);
      if e.Tick? {
        CancelledStep(After(s, init), e.outcome);
      }
    }
  }

  /** A poll of Recording or Paused that begins cancelled, until the machine has noted why it ends. */
  predicate Noted(s: Session) {
    || s.shared.reason != Unset
    || s.loc == PollCancel || s.loc == PollCancelled
    || s.loc == HoldCancel || s.loc == HoldCancelled
  }

  lemma NotedStep(s: Session, e: Event)
    requires s.shared.cancelled && Noted(s) && CanStep(s, e)
    ensures Noted(Step(s, e))
  {
  }

  /** A session cancelled by the time a poll begins ends with a reason, be it recording or paused. */
  lemma {:induction false} CancelledPollEndsWithReason(s: Session, fs: seq<Event>)
    requires s.shared.cancelled && Noted(s) && CanRun(s, fs)
    ensures Noted(After(s, fs)) && (Over(After(s, fs)) ==> After(s, fs).shared.reason != Unset)
  {
    if fs != [] {
      var init, e := fs[..|fs| - 1], fs[|fs| - 1];
      RunLast(s, fs);
      CancelledPollEndsWithReason(s, init);
      NeverCleared(s, init);
      NotedStep(After(s, init), e);
    }
  }

  // ---------------------------------------------------------------- where a reason comes from

  /** The outside world has reported failure `r`. */
  predicate Reported(es: seq<Event>, r: EndReason) {
    Tick(Fail(r)) in es
  }

  predicate AskedToStop(es: seq<Event>) {
    StopRead in es
  }

  /** What can have caused end reason `r`. */
  predicate Caused(es: seq<Event>, r: EndReason) {
    || Reported(es, r)
    || (r == ExitBeforeRecord && AskedToStop(es))
    || (r == ApiRequest && (AskedToStop(es) || Cancel in es))
  }

  /** The reason has its cause among the events, and so has what may become the reason. */
  predicate Justified(s: Session, es: seq<Event>) {
    && (s.shared.reason != Unset ==> Caused(es, s.shared.reason))
    && (s.shared.stops != [] ==> AskedToStop(es))
    && (s.shared.reason != Unset && PreRecording(Heading(s.loc)) ==> AskedToStop(es))
    && (s.loc == EarlyStop ==> s.shared.reason != Unset)
    && (s.loc == StartFailed || s.loc == ResumeFailed ==> Reported(es, Internal))
    && (s.shared.cancelled || s.loc == PollCancelled || s.loc == HoldCancelled ==> Cancel in es)
  }

  lemma CausesGrow(es: seq<Event>, e: Event)
    ensures forall r :: Caused(es, r) ==> Caused(es + [e], r)
    ensures forall r :: Reported(es, r) ==> Reported(es + [e], r)
    ensures AskedToStop(es) ==> AskedToStop(es + [e])
    ensures Cancel in es ==> Cancel in es + [e]
    ensures e in es + [e]
  {
  }

  lemma EarlyJustified(s: Session, es: seq<Event>, o: Outcome)
    requires RecorderInv(s.loc, s.rec) && Justified(s, es) && CanAnswer(s.loc, o)
    requires PreRecording(Current(s.loc)) && !s.loc.Head? && !s.loc.Leaving?
    ensures Justified(MachineStep(s, o), es + [Tick(o)])
  {
    CausesGrow(es, Tick(o));
  }

  lemma RecordingJustified(s: Session, es: seq<Event>, o: Outcome)
    requires Justified(s, es) && CanAnswer(s.loc, o)
    requires Current(s.loc) == Recording && !s.loc.Head? && !s.loc.Leaving?
    ensures Justified(MachineStep(s, o), es + [Tick(o)])
  {
    CausesGrow(es, Tick(o));
  }

  lemma LateJustified(s: Session, es: seq<Event>, o: Outcome)
    requires Justified(s, es) && CanAnswer(s.loc, o)
    requires !PreRecording(Current(s.loc)) && Current(s.loc) != Recording && !s.loc.Head? && !s.loc.Leaving?
    ensures Justified(MachineStep(s, o), es + [Tick(o)])
  {
    CausesGrow(es, Tick(o));
  }

  lemma HeadJustified(s: Session, es: seq<Event>, o: Outcome)
    requires Justified(s, es) && CanAnswer(s.loc, o) && s.loc.Head?
    ensures Justified(MachineStep(s, o), es + [Tick(o)])
  {
    CausesGrow(es, Tick(o));
  }

  lemma LeavingJustified(s: Session, es: seq<Event>, o: Outcome)
    requires Justified(s, es) && CanAnswer(s.loc, o) && s.loc.Leaving?
    ensures Justified(MachineStep(s, o), es + [Tick(o)])
  {
    CausesGrow(es, Tick(o));
  }

  lemma OutsideJustified(s: Session, es: seq<Event>, e: Event)
    requires Justified(s, es) && CanStep(s, e) && !e.Tick?
    ensures Justified(Step(s, e), es + [e])
  {
    CausesGrow(es, e);
  }

  lemma {:induction false} AllJustified(hasRecorder: bool, es: seq<Event>)
    requires CanRun(Initial(hasRecorder), es)
    ensures Justified(After(Initial(hasRecorder), es), es)
  {
    if es != [] {
      var init, e := es[..|es| - 1], es[|es| - 1];
      var s := After(Initial(hasRecorder), init);
      RunLast(Initial(hasRecorder), es);
      AllJustified(hasRecorder, init);
      InvHolds(hasRecorder, init);
      assert es == init + [e];
      if !e.Tick? {
        OutsideJustified(s, init, e);
      } else if s.loc.Head? {
        HeadJustified(s, init, e.outcome);
      } else if s.loc.Leaving? {
        LeavingJustified(s, init, e.outcome);
      } else if PreRecording(Current(s.loc)) {
        EarlyJustified(s, init, e.outcome);
      } else if Current(s.loc) == Recording {
        RecordingJustified(s, init, e.outcome);
      } else {
        LateJustified(s, init, e.outcome);
      }
    }
  }

  /**
   In every run the end reason is one that was reported by the world, or ExitBeforeRecord after a stop request, or
   ApiRequest after a stop request or cancellation.
   */
  lemma ReasonsAreCaused(hasRecorder: bool, es: seq<Event>)
    requires CanRun(Initial(hasRecorder), es) && After(Initial(hasRecorder), es).shared.reason != Unset
    ensures Caused(es, After(Initial(hasRecorder), es).shared.reason)
  {
    AllJustified(hasRecorder, es);
  }

  // ---------------------------------------------------------------- stop requests

  /**
   What a stop request does when nothing comes between its read and its write, in any session: before recording it
   is an error, ExitBeforeRecord, and from Recording on it is the reason ApiRequest and no error.
   */
  lemma StopRequest(s: Session)
    ensures var n := |s.shared.stops|;
            && CanStep(s, StopRead) && CanStep(Step(s, StopRead), StopWrite(n))
            && var t := Step(Step(s, StopRead), StopWrite(n));
               && t.shared.stops == s.shared.stops
               && (if PreRecording(Current(s.loc)) then t.shared.reason == ExitBeforeRecord && t.shared.hasError
                   else t.shared.reason == ApiRequest && t.shared.hasError == s.shared.hasError)
  {
  }

  /** Has an end reason and is not past InCall's test for one. */
  predicate WillNotRecord(s: Session) {
    && s.shared.reason != Unset
    && Heading(s.loc) !in {Recording, Paused, Resuming}
    && s.loc != Starting && s.loc != StartFailed
  }

  lemma StillWillNotRecord(s: Session, e: Event)
    requires WillNotRecord(s) && CanStep(s, e)
    ensures var t := Step(s, e);
            WillNotRecord(t) && t.hist.recorded == s.hist.recorded && t.rec.started == s.rec.started
  {
  }

  /** Stopped before InCall has looked: whatever the others do, it never records and never starts the recorder. */
  lemma {:induction false} StoppedInTime(s: Session, fs: seq<Event>)
    requires WillNotRecord(s) && CanRun(s, fs)
    ensures WillNotRecord(After(s, fs))
    ensures After(s, fs).hist.recorded == s.hist.recorded && After(s, fs).rec.started == s.rec.started
  {
    if fs != [] {
      var init, e := fs[..|fs| - 1], fs[|fs| - 1];
      RunLast(s, fs);
      StoppedInTime(s, init);
      StillWillNotRecord(After(s, init), e);
    }
  }

  /** Every stop request read the state before recording began. */
  predicate StopsAreEarly(s: Session, es: seq<Event>)
    requires CanRun(s, es)
    decreases |es|
  {
    es == [] ||
    (RunLast(s, es);
     && StopsAreEarly(s, es[..|es| - 1])
     && (es[|es| - 1].StopRead? ==> PreRecording(Current(After(s, es[..|es| - 1]).loc))))
  }

  /** Unless it came to record, its reason is ExitBeforeRecord or a failure that was reported. */
  predicate EarlyReason(s: Session, es: seq<Event>) {
    && !LateStop(s.shared.stops)
    && (s.shared.reason != Unset && !s.hist.recorded ==>
          s.shared.reason == ExitBeforeRecord || Reported(es, s.shared.reason))
  }

  lemma EarlyReasonStep(s: Session, es: seq<Event>, e: Event)
    requires RecordedInv(s.loc, s.rec, s.hist.recorded) && Justified(s, es) && EarlyReason(s, es) && CanStep(s, e)
    requires e.StopRead? ==> PreRecording(Current(s.loc))
    ensures EarlyReason(Step(s, e), es + [e])
  {
    CausesGrow(es, e);
  }

  lemma {:induction false} EarlyReasonHolds(hasRecorder: bool, es: seq<Event>)
    requires CanRun(Initial(hasRecorder), es) && StopsAreEarly(Initial(hasRecorder), es)
    ensures EarlyReason(After(Initial(hasRecorder), es), es)
  {
    if es != [] {
      var init, e := es[..|es| - 1], es[|es| - 1];
      RunLast(Initial(hasRecorder), es);
      EarlyReasonHolds(hasRecorder, init);
      InvHolds(hasRecorder, init);
      AllJustified(hasRecorder, init);
      assert es == init + [e];
      EarlyReasonStep(After(Initial(hasRecorder), init), init, e);
    }
  }

  /** Nothing is reported to have failed. */
  predicate NoFailures(es: seq<Event>) {
    forall n :: 0 <= n < |es| && es[n].Tick? ==> es[n].outcome == Ok
  }

  /**
   A bot that was stopped before recording, and that nothing else kept from recording, ends with ExitBeforeRecord and
   the error flag; with a stop request that came later the reason may be ApiRequest, with the flag all the same.
   */
  lemma StoppedBeforeRecording(hasRecorder: bool, es: seq<Event>)
    requires CanRun(Initial(hasRecorder), es) && NoFailures(es)
    requires var s := After(Initial(hasRecorder), es); s.loc == Finished(false) && !s.hist.recorded
    ensures var s := After(Initial(hasRecorder), es);
            && s.shared.hasError
            && (s.shared.reason == ExitBeforeRecord || s.shared.reason == ApiRequest)
            && (StopsAreEarly(Initial(hasRecorder), es) ==> s.shared.reason == ExitBeforeRecord && AskedToStop(es))
  {
    InvHolds(hasRecorder, es);
    AllJustified(hasRecorder, es);
    if StopsAreEarly(Initial(hasRecorder), es) {
      EarlyReasonHolds(hasRecorder, es);
    }
  }

  /** A failure of the launch or of the join ends the state with just that reason and the error flag. */
  lemma FailuresAreReported(s: Session, r: EndReason)
    requires s.loc == Launching || s.loc == JoinRefused
    requires CanStep(s, Tick(Fail(r)))
    ensures var t := Step(s, Tick(Fail(r)));
            && t.shared.reason == r && t.shared.hasError
            && t.loc == Leaving(Current(s.loc), Error)
  {
  }

  /**
   A join that fails, with page and provider there: if the bot was stopped it goes on to Cleanup and nothing is
   reported, and otherwise it is a failure to be reported.
   */
  lemma FailedJoin(s: Session, r: EndReason)
    requires s.loc == Joining && CanStep(s, Tick(Fail(r))) && r != Internal
    ensures CanStep(Step(s, Tick(Fail(r))), Tick(Ok))
    ensures var t := Step(Step(s, Tick(Fail(r))), Tick(Ok));
            && t.shared == s.shared
            && t.loc == if s.shared.reason != Unset then Leaving(WaitingRoom, Cleanup) else JoinRefused
  {
  }

  /** So does one of the recorder, when it is started or resumed: an internal error. */
  lemma RecorderFailuresAreReported(s: Session)
    requires s.rec.present && (s.loc == Starting || s.loc == ResumeCall)
    ensures CanStep(s, Tick(Fail(Internal))) && CanStep(Step(s, Tick(Fail(Internal))), Tick(Ok))
    ensures var t := Step(Step(s, Tick(Fail(Internal))), Tick(Ok));
            && t.shared.reason == Internal && t.shared.hasError
            && t.loc == Leaving(Current(s.loc), Error)
  {
  }

  /** What ends a recording from within is its reason, without an error. */
  lemma RecordingEndsWith(s: Session, r: EndReason)
    requires s.loc == PollChecks && CanStep(s, Tick(Fail(r)))
    ensures var t := Step(s, Tick(Fail(r)));
            && t.shared.reason == r && t.shared.hasError == s.shared.hasError
            && r.IsNormal()
            && t.loc == Leaving(Recording, Cleanup)
  {
  }
}

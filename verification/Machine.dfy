/**
 The state machine engine and the nine states as the program runs them: methods that update the
 machine, the shared context and the recorder in place. Other goroutines act at any point, through
 `Interfere`. Every method keeps `Valid`: what has happened so far is a run of the transition system
 in module Session, and the fields hold what that run says they hold.
 */
module Machines {
  import opened BotTypes
  import opened Options
  import opened Session
  import opened SessionTheorems
  import Silence
  import opened MeetingContexts
  import opened Recorders

  /** A poll of the recording loop that reached the timeout checks: all samples taken by then, and when. */
  datatype Poll = Poll(seen: seq<Silence.Sample>, checkedAt: int)

  /** What the timeout checks decide at poll `p` of a recording begun at `recordStart`. */
  function VerdictAt(cfg: Silence.Config, t0: Silence.Track, p: Poll, recordStart: int): EndReason {
    Silence.Verdict(cfg, Silence.TrackOf(t0, p.seen, cfg.botName), recordStart, p.checkedAt)
  }

  /** None of these polls finds a reason to leave. */
  ghost predicate AllQuiet(cfg: Silence.Config, t0: Silence.Track, log: seq<Poll>, recordStart: int) {
    forall k :: 0 <= k < |log| ==> VerdictAt(cfg, t0, log[k], recordStart) == Unset
  }

  /** How many speaker snapshots so many polls take. */
  function Taken(tracks: bool, polls: nat): nat {
    if tracks then polls else 0
  }

  /** Each poll used all samples taken by then: `had` from before the recording, and one for every poll. */
  ghost predicate AllSampled(log: seq<Poll>, samples: seq<Silence.Sample>, had: nat, tracks: bool) {
    forall k :: 0 <= k < |log| ==> log[k].seen <= samples && |log[k].seen| == had + Taken(tracks, k + 1)
  }

  /**
   What a poll that decided `wrote` (Unset if to go on) saw: unless it left before the timeout checks, all
   samples including one of its own, on which the checks gave just that.
   */
  ghost predicate Judged(cfg: Silence.Config, t0: Silence.Track, recordStart: int, tracks: bool,
                         before: seq<Silence.Sample>, samples: seq<Silence.Sample>,
                         seen: Option<Poll>, wrote: EndReason) {
    if seen.None? then !IsTimeout(wrote)
    else
      && seen.value.seen == samples
      && |samples| == |before| + Taken(tracks, 1)
      && VerdictAt(cfg, t0, seen.value, recordStart) == wrote
  }

  /** A poll goes on if it passed the checks, and otherwise leaves for Paused or Cleanup. */
  ghost predicate GoesOn(next: Option<StateType>, wrote: EndReason, seen: Option<Poll>) {
    && (next.None? <==> seen.Some? && wrote == Unset)
    && (next.Some? ==> next.value == Paused || next.value == Cleanup)
    && (wrote != Unset ==> next == Some(Cleanup))
  }

  /** The log after a poll that may have reached the timeout checks. */
  function Extend(log: seq<Poll>, seen: Option<Poll>): seq<Poll> {
    if seen.Some? then log + [seen.value] else log
  }

  /** One more poll, which decided `wrote`: if the log now ends in a reason to leave, that is what it is. */
  lemma LogGrows(cfg: Silence.Config, t0: Silence.Track, recordStart: int, log: seq<Poll>, had: nat, tracks: bool,
                 before: seq<Silence.Sample>, samples: seq<Silence.Sample>, seen: Option<Poll>, wrote: EndReason)
    requires before <= samples && AllSampled(log, before, had, tracks) && AllQuiet(cfg, t0, log, recordStart)
    requires |before| == had + Taken(tracks, |log|)
    requires Judged(cfg, t0, recordStart, tracks, before, samples, seen, wrote)
    ensures var l := Extend(log, seen);
            && AllSampled(l, samples, had, tracks)
            && (seen.Some? ==> |samples| == had + Taken(tracks, |l|))
            && (seen.Some? && wrote == Unset ==> AllQuiet(cfg, t0, l, recordStart))
            && (l != [] ==> AllQuiet(cfg, t0, l[..|l| - 1], recordStart))
            && (l != [] && VerdictAt(cfg, t0, l[|l| - 1], recordStart) != Unset ==>
                  seen.Some? && wrote == VerdictAt(cfg, t0, l[|l| - 1], recordStart))
            && (seen.Some? ==> l != [] && wrote == VerdictAt(cfg, t0, l[|l| - 1], recordStart))
  {
  }

  /**
   How a recording ends. Every poll but the last found no reason to leave; a poll that found one is the
   last, and the recording ends with that reason. It ends with one of the three timeouts only if the last
   poll found just that.
   */
  ghost predicate Ended(cfg: Silence.Config, t0: Silence.Track, log: seq<Poll>, recordStart: int,
                        next: StateType, wrote: EndReason) {
    && (next == Paused || next == Cleanup)
    && (log != [] ==> AllQuiet(cfg, t0, log[..|log| - 1], recordStart))
    && (log != [] && VerdictAt(cfg, t0, log[|log| - 1], recordStart) != Unset ==>
          next == Cleanup && wrote == VerdictAt(cfg, t0, log[|log| - 1], recordStart))
    && (IsTimeout(wrote) ==> log != [] && VerdictAt(cfg, t0, log[|log| - 1], recordStart) == wrote)
  }

  /** The reasons that the three timeout checks give. */
  predicate IsTimeout(r: EndReason) {
    r == NoSpeaker || r == NoAttendees || r == AllParticipantsLeft
  }

  /** None of these samples heard anybody within the silence timeout before `at`. */
  ghost predicate SilentBefore(cfg: Silence.Config, at: int, seen: seq<Silence.Sample>) {
    forall k :: 0 <= k < |seen| && seen[k].now > at - cfg.silenceTimeout * 1_000_000_000 ==>
      Silence.Silent(seen[k], cfg.botName)
  }

  /** So a recording that ended with NoSpeaker was silent, for the silence timeout before its last poll. */
  lemma NoSpeakerEnding(cfg: Silence.Config, t0: Silence.Track, log: seq<Poll>, recordStart: int, next: StateType,
                        samples: seq<Silence.Sample>, had: nat, tracks: bool)
    requires Ended(cfg, t0, log, recordStart, next, NoSpeaker) && Silence.Unpolled(t0)
    requires AllSampled(log, samples, had, tracks) && Silence.InOrder(samples)
    ensures log != [] && SilentBefore(cfg, log[|log| - 1].checkedAt, log[|log| - 1].seen)
  {
    var last := log[|log| - 1];
    assert last.seen <= samples;
    forall k | 0 <= k < |last.seen| && last.seen[k].now > last.checkedAt - cfg.silenceTimeout * 1_000_000_000
      ensures Silence.Silent(last.seen[k], cfg.botName)
    {
      Silence.NoSpeakerMeansSilence(cfg, t0, last.seen, recordStart, last.checkedAt, k);
    }
  }

  /** The earliest time of poll number `polls`, counting from 0. */
  function PollTime(recordStart: int, polls: nat): int {
    recordStart + polls * Silence.POLL_INTERVAL
  }

  /** A poll that passes the duration guard is one of the first 7200. */
  lemma PollsBounded(recordStart: int, polls: nat, now: int)
    ensures now >= PollTime(recordStart, polls) && now - recordStart < 4 * 3600 * 1_000_000_000 ==> polls < 7200
    ensures PollTime(recordStart, polls) == recordStart + polls * (2 * 1_000_000_000)
    ensures PollTime(recordStart, polls + 1) == PollTime(recordStart, polls) + Silence.POLL_INTERVAL
  {
  }

  /** What finding a stop request, or none, leads to. */
  lemma StopLooks(s: Session)
    requires s.loc == PollStop || s.loc == HoldStop
    ensures CanAnswer(s.loc, Ok)
    ensures var next := if s.loc == PollStop then PollPause else HoldFlag;
            MachineStep(s, Ok) == s.Goto(if s.shared.reason != Unset then Leaving(Current(s.loc), Cleanup) else next)
  {
  }

  /** Likewise for the pause flag. */
  lemma PauseLooks(s: Session)
    requires s.loc == PollPause || s.loc == HoldFlag
    ensures CanAnswer(s.loc, Ok)
    ensures var t := MachineStep(s, Ok);
            && t.shared == s.shared && t.rec == s.rec
            && t.loc == if s.loc == PollPause then if s.shared.paused then Leaving(Recording, Paused) else PollChecks
                        else if s.shared.paused then HoldCancel else Leaving(Paused, Resuming)
  {
  }

  lemma FailureLooks(s: Session)
    requires s.loc == StartFailed || s.loc == ResumeFailed
    ensures CanAnswer(s.loc, Ok) && MachineStep(s, Ok) == s.FailWith(Internal, Error)
  {
  }

  /** What one round of the engine comes to. */
  datatype Progress = AtEnd | StillPaused | Moved

  /** How many states can still be executed after this one, once an end reason is set. */
  function StatesLeft(st: StateType): nat {
    match st
    case Terminated => 0
    case Cleanup => 1
    case Error | Recording | Paused => 2
    case InCall | Resuming => 3
    case WaitingRoom => 4
    case Initialization => 5
  }

  lemma FewerStatesLeft(from: StateType, next: StateType)
    requires Edge(from, next) && (from == Recording || from == Paused ==> next == Cleanup)
    ensures StatesLeft(next) < StatesLeft(from)
  {
  }

  class Machine {
    const cfg: Silence.Config
    const mc: MeetingContext
    const recorder: ScreenRecorder?
    const tracksSpeakers: bool
    const speakersAt: int -> (seq<string>, seq<string>)   // the speaker manager's two lists, by the time of asking
    const pageGoneAt: int -> bool                         // whether the page shows the end of the meeting
    var current: StateType
    var clock: int
    var cancelled: bool
    var stops: seq<bool>           // RequestStop calls between their read and their write
    ghost var run: seq<Event>      // everything that has happened,
    ghost var view: Session        // and the session it leads to
    ghost var track0: Silence.Track
    ghost var samples: seq<Silence.Sample>

    ghost predicate Valid()
      reads this, mc, recorder
    {
      && Follows()
      && Matches(view)
      && mc.Tracking() == Silence.TrackOf(track0, samples, cfg.botName)
      && Silence.Unpolled(track0)
      && (PreRecording(current) ==> samples == [])
      && mc.Accounted()
      && Silence.InOrder(samples)
      && (samples != [] ==> samples[|samples| - 1].now <= clock)
      && AllTaken(samples)
    }

    /** Every sample is what the speaker manager listed at its time. */
    ghost predicate AllTaken(h: seq<Silence.Sample>) {
      forall k :: 0 <= k < |h| ==> h[k] == SampleAt(h[k].now)
    }

    function SampleAt(now: int): Silence.Sample {
      Silence.Sample(now, speakersAt(now).0, speakersAt(now).1)
    }

    /** The end reason, once set, stays set. */
    ghost predicate StillStopped(before: Session)
      reads this
    {
      before.shared.reason != Unset ==> view.shared.reason != Unset
    }

    /** The session is where the run leads. */
    ghost predicate Follows()
      reads this
    {
      CanRun(Initial(recorder != null), run) && After(Initial(recorder != null), run) == view
    }

    /** The fields hold what session `s` says. */
    ghost predicate Matches(s: Session)
      reads this, mc, recorder
    {
      && s.shared == Shared(mc.endReason, mc.hasError, mc.isPaused, cancelled, stops)
      && current == Current(s.loc)
      && s.rec.present == (recorder != null)
      && (recorder != null ==> recorder.Valid() && recorder.running == s.rec.running && recorder.calls == s.rec.calls)
    }

    constructor (cfg: Silence.Config, mc: MeetingContext, recorder: ScreenRecorder?, tracksSpeakers: bool, now: int,
                 speakersAt: int -> (seq<string>, seq<string>), pageGoneAt: int -> bool)
      requires mc.endReason == Unset && !mc.hasError && !mc.isPaused && mc.Accounted()
      requires mc.Tracking() == Silence.Track(0, false, None, None)
      requires recorder != null ==> recorder.Valid() && !recorder.running && recorder.calls == []
      ensures Valid() && run == [] && current == Initialization
      ensures this.mc == mc && this.recorder == recorder
    {
      this.cfg, this.mc, this.recorder, this.tracksSpeakers := cfg, mc, recorder, tracksSpeakers;
      this.speakersAt, this.pageGoneAt := speakersAt, pageGoneAt;
      current, clock, cancelled, stops := Initialization, now, false, [];
      run, view, samples := [], Initial(recorder != null), [];
      track0 := Silence.Track(0, false, None, None);
    }

    /** Record that event `e` has happened. */
    ghost method Note(e: Event)
      requires Follows() && CanStep(view, e)
      modifies this`run, this`view
      ensures Follows() && view == Step(old(view), e) && run == old(run) + [e]
    {
      RunSnoc(Initial(recorder != null), run, e);
      run, view := run + [e], Step(view, e);
    }

    // -------------------------------------------------------------- other goroutines

    /** First half of RequestStop: look at the current state. */
    method RequestStopRead()
      requires Valid()
      modifies this`stops, this`run, this`view
      ensures Valid() && view == Step(old(view), StopRead)
    {
      stops := stops + [PreRecording(current)];
      Note(StopRead);
    }

    /** Second half: set the error or the end reason. */
    method RequestStopWrite(i: nat)
      requires Valid() && i < |stops|
      modifies this`stops, this`run, this`view, mc`endReason, mc`hasError
      ensures Valid() && view == Step(old(view), StopWrite(i))
    {
      if stops[i] {
        StopWithError(i);
      } else {
        StopWithReason(i);
      }
    }

    method StopWithError(i: nat)
      requires Valid() && i < |stops| && stops[i]
      modifies this`stops, this`run, this`view, mc`endReason, mc`hasError
      ensures Valid() && view == Step(old(view), StopWrite(i))
    {
      mc.SetError(ExitBeforeRecord);
      stops := stops[..i] + stops[i + 1..];
      Note(StopWrite(i));
    }

    method StopWithReason(i: nat)
      requires Valid() && i < |stops| && !stops[i]
      modifies this`stops, this`run, this`view, mc`endReason
      ensures Valid() && view == Step(old(view), StopWrite(i))
    {
      mc.SetEndReason(ApiRequest);
      stops := stops[..i] + stops[i + 1..];
      Note(StopWrite(i));
    }

    method PauseOrResume(on: bool)
      requires Valid()
      modifies this`run, this`view, mc`isPaused, mc`pauseStartTime, mc`totalPauseDuration, mc`requests
      ensures Valid() && view == Step(old(view), Event.SetPaused(on))
    {
      var _ := mc.SetPaused(on, clock);
      Note(Event.SetPaused(on));
    }

    method CancelContext()
      requires Valid()
      modifies this`cancelled, this`run, this`view
      ensures Valid() && view == Step(old(view), Cancel)
    {
      cancelled := true;
      Note(Cancel);
    }

    /** The machine goroutine's place, the recorder and the monotone flags, across accesses of others. */
    ghost predicate Undisturbed(before: Session)
      reads this
    {
      && view.loc == before.loc
      && view.rec == before.rec
      && view.hist.recorded == before.hist.recorded
      && (before.shared.cancelled ==> view.shared.cancelled)
      && (before.shared.reason != Unset ==> view.shared.reason != Unset)
    }

    /** One access by some other goroutine. */
    method OutsideAccess()
      requires Valid()
      modifies this`stops, this`cancelled, this`run, this`view
      modifies mc`endReason, mc`hasError, mc`isPaused, mc`pauseStartTime, mc`totalPauseDuration, mc`requests
      ensures Valid() && Undisturbed(old(view))
    {
      var which: nat :| which < 4;
      if which == 0 {
        RequestStopRead();
      } else if which == 1 {
        if stops != [] {
          assert 0 < |stops|;
          var i: nat :| i < |stops|;
          RequestStopWrite(i);
        }
      } else if which == 2 {
        var on: bool := *;
        PauseOrResume(on);
      } else {
        CancelContext();
      }
    }

    /** Any number of accesses by other goroutines, while time passes. */
    method Interfere()
      requires Valid()
      modifies this`clock, this`stops, this`cancelled, this`run, this`view
      modifies mc`endReason, mc`hasError, mc`isPaused, mc`pauseStartTime, mc`totalPauseDuration, mc`requests
      ensures Valid() && Undisturbed(old(view)) && clock >= old(clock)
    {
      var n: nat :| n >= 0;
      for k := 0 to n
        invariant Valid() && Undisturbed(old(view)) && clock >= old(clock)
      {
        var later: nat :| later >= 0;
        clock := clock + later;
        OutsideAccess();
      }
    }

    // -------------------------------------------------------------- accesses of the machine goroutine

    /** An access that only reads. */
    ghost method Look(o: Outcome)
      requires Valid() && CanAnswer(view.loc, o)
      requires var t := MachineStep(view, o);
               t.shared == view.shared && t.rec == view.rec && Current(t.loc) == Current(view.loc)
      modifies this`run, this`view
      ensures Valid() && view == MachineStep(old(view), o)
    {
      Note(Tick(o));
    }

    /** An access that sets the error and leaves the state. */
    method LeaveWithError(r: EndReason, ghost o: Outcome, ghost next: StateType)
      requires Valid() && CanAnswer(view.loc, o) && MachineStep(view, o) == view.FailWith(r, next)
      modifies this`run, this`view, mc`endReason, mc`hasError
      ensures Valid() && view == old(view.FailWith(r, next))
    {
      mc.SetError(r);
      Note(Tick(o));
    }

    /** An access that sets the end reason and leaves for Cleanup. */
    method LeaveWithReason(r: EndReason, ghost o: Outcome)
      requires Valid() && CanAnswer(view.loc, o) && MachineStep(view, o) == view.EndWith(r)
      modifies this`run, this`view, mc`endReason
      ensures Valid() && view == old(view.EndWith(r))
    {
      mc.SetEndReason(r);
      Note(Tick(o));
    }

    // -------------------------------------------------------------- states before recording

    method ExecuteInitialization() returns (next: StateType)
      requires Valid() && view.loc == Launching
      modifies this`clock, this`stops, this`cancelled, this`run, this`view
      modifies mc`endReason, mc`hasError, mc`isPaused, mc`pauseStartTime, mc`totalPauseDuration, mc`requests
      ensures Valid() && view.loc == Leaving(Initialization, next) && StillStopped(old(view))
    {
      assert CanAnswer(Launching, Ok);
      var answer :| CanAnswer(Launching, answer);
      if answer.Fail? {
        LeaveWithError(answer.reason, answer, Error);
        return Error;
      }
      Look(Ok);
      return WaitingRoom;
    }

    /** The join callback may mark a first user as joined, whatever the join then returns. */
    method OnJoinSuccess()
      requires Valid() && PreRecording(current)
      modifies this`track0, mc`firstUserJoined
      ensures Valid() && mc.firstUserJoined
    {
      mc.firstUserJoined := true;
      track0 := mc.Tracking();
    }

    method ExecuteWaitingRoom() returns (next: StateType)
      requires Valid() && view.loc == Joining
      modifies this`clock, this`stops, this`cancelled, this`run, this`view, this`track0, mc
      ensures Valid() && view.loc == Leaving(WaitingRoom, next) && StillStopped(old(view))
    {
      assert CanAnswer(Joining, Ok);
      var answer :| CanAnswer(Joining, answer);
      if answer == Fail(Internal) {          // no page or no provider
        LeaveWithError(Internal, answer, Error);
        return Error;
      }
      var callback: bool := *;
      if callback {
        OnJoinSuccess();
      }
      Look(answer);
      if answer.Ok? {
        return InCall;
      }
      next := RefuseJoin();
    }

    /** The join failed: because of a stop request, a timeout, or a refusal. */
    method RefuseJoin() returns (next: StateType)
      requires Valid() && view.loc == JoinFailed
      modifies this`clock, this`stops, this`cancelled, this`run, this`view
      modifies mc`endReason, mc`hasError, mc`isPaused, mc`pauseStartTime, mc`totalPauseDuration, mc`requests
      ensures Valid() && view.loc == Leaving(WaitingRoom, next) && StillStopped(old(view))
    {
      Interfere();
      var stop := mc.ShouldStop();
      Look(Ok);
      if stop {
        return Cleanup;
      }
      Interfere();
      var timedOut: bool := *;
      var why := if timedOut then TimeoutWaiting else BotNotAccepted;
      LeaveWithError(why, Fail(why), Error);
      return Error;
    }

    method ExecuteInCall() returns (next: StateType)
      requires Valid() && view.loc == EarlyStopTest
      modifies this`clock, this`stops, this`cancelled, this`run, this`view, this`track0, mc, recorder
      ensures Valid() && view.loc == Leaving(InCall, next) && StillStopped(old(view))
      ensures next == Recording ==> StartNoted(old(clock))
    {
      var stop := mc.ShouldStop();
      Look(Ok);
      Interfere();
      if stop {
        LeaveWithError(ExitBeforeRecord, Ok, Cleanup);
        return Cleanup;
      }
      next := BeginRecording();
    }

    /** A start or resume that failed is an internal error. */
    method RecorderFailed() returns (next: StateType)
      requires Valid() && (view.loc == StartFailed || view.loc == ResumeFailed)
      modifies this`clock, this`stops, this`cancelled, this`run, this`view
      modifies mc`endReason, mc`hasError, mc`isPaused, mc`pauseStartTime, mc`totalPauseDuration, mc`requests
      ensures Valid() && StillStopped(old(view)) && next == Error && view.loc == Leaving(Current(old(view).loc), Error)
    {
      Interfere();
      FailureLooks(view);
      LeaveWithError(Internal, Ok, Error);
      return Error;
    }

    method BeginRecording() returns (next: StateType)
      requires Valid() && view.loc == Starting
      modifies this`clock, this`stops, this`cancelled, this`run, this`view, this`track0, mc, recorder
      ensures Valid() && view.loc == Leaving(InCall, next) && StillStopped(old(view))
      ensures next == Recording ==> StartNoted(old(clock))
    {
      var ok := StartRecorder();
      if !ok {
        next := RecorderFailed();
        return;
      }
      MarkStarted();
      return Recording;
    }

    /** The start of the recording is on record, and counts as the last time somebody spoke. */
    ghost predicate StartNoted(since: int)
      reads this, mc
    {
      since <= mc.startTime <= clock && mc.lastSpeakerTime == Some(mc.startTime)
    }

    method MarkStarted()
      requires Valid() && PreRecording(current)
      modifies this`track0, mc`startTime, mc`lastSpeakerTime
      ensures Valid() && mc.startTime == clock && mc.lastSpeakerTime == Some(clock)
    {
      mc.startTime := clock;
      mc.lastSpeakerTime := Some(clock);
      track0 := mc.Tracking();
    }

    method StartRecorder() returns (ok: bool)
      requires Valid() && view.loc == Starting
      modifies this`run, this`view, recorder
      ensures Valid() && view.shared == old(view).shared
      ensures view.loc == if ok then Leaving(InCall, Recording) else StartFailed
    {
      if recorder == null {
        Look(Ok);
        return true;
      }
      var spawned: bool := *;
      ok := recorder.Start(spawned, clock);
      Note(Tick(if spawned then Ok else Fail(Internal)));
    }

    // -------------------------------------------------------------- Recording

    /** One more snapshot, taken no earlier than the others. */
    lemma MoreTaken(h: seq<Silence.Sample>, now: int)
      requires AllTaken(h) && Silence.InOrder(h) && (h != [] ==> h[|h| - 1].now <= now)
      ensures AllTaken(h + [SampleAt(now)]) && Silence.InOrder(h + [SampleAt(now)])
    {
    }

    /** Log a snapshot that has been taken into account. */
    ghost method LogSample(s: Silence.Sample)
      requires Follows() && Matches(view) && mc.Accounted() && Silence.Unpolled(track0) && !PreRecording(current)
      requires AllTaken(samples + [s]) && Silence.InOrder(samples + [s]) && s.now <= clock
      requires mc.Tracking() == Silence.Observe(Silence.TrackOf(track0, samples, cfg.botName), s, cfg.botName)
      modifies this`samples
      ensures Valid() && samples == old(samples) + [s]
    {
      Silence.TrackSnoc(track0, samples, s, cfg.botName);
      samples := samples + [s];
    }

    /** Take one speaker snapshot into account. */
    method Observe()
      requires Valid() && !PreRecording(current)
      modifies this`samples
      modifies mc`attendeesCount, mc`firstUserJoined, mc`lastSpeakerTime, mc`noSpeakerDetectedTime
      ensures Valid() && samples == old(samples) + [SampleAt(clock)]
    {
      var names := speakersAt(clock);
      MoreTaken(samples, clock);
      UpdateAttendees(mc, cfg.botName, names.0, names.1, clock);
      LogSample(SampleAt(clock));
    }

    /**
     What it takes for a poll to write certain reasons: cancellation, four hours since the recording began, the end
     of the meeting on the page.
     */
    ghost predicate Earned(wrote: EndReason, recordStart: int)
      reads this
    {
      && (wrote == ApiRequest ==> cancelled)
      && (wrote == RecordingTimeout ==> clock - recordStart >= 4 * 3600 * 1_000_000_000)
      && (wrote == BotRemoved ==> pageGoneAt(clock))
    }

    /** A poll that reached the timeout checks did not see the meeting ended. */
    ghost predicate PageThere(seen: Option<Poll>) {
      seen.Some? ==> !pageGoneAt(seen.value.checkedAt)
    }

    /** Step 1 of a poll: leave on cancellation. */
    method PollCancellation() returns (gone: bool)
      requires Valid() && view.loc == PollCancel
      modifies this`clock, this`stops, this`cancelled, this`run, this`view
      modifies mc`endReason, mc`hasError, mc`isPaused, mc`pauseStartTime, mc`totalPauseDuration, mc`requests
      ensures Valid() && clock >= old(clock) && gone == old(cancelled)
      ensures view.loc == if gone then Leaving(Recording, Cleanup) else PollStop
      ensures StillStopped(old(view)) && (gone ==> mc.endReason == ApiRequest && cancelled)
    {
      gone := cancelled;
      Look(Ok);
      Interfere();
      if gone {
        LeaveWithReason(ApiRequest, Ok);
      }
    }

    /** Leave on a stop request, in Recording and in Paused. */
    method StopTest() returns (stop: bool)
      requires Valid() && (view.loc == PollStop || view.loc == HoldStop)
      modifies this`run, this`view
      ensures Valid() && (stop <==> old(view).shared.reason != Unset) && view.shared == old(view).shared
      ensures view.loc == if stop then Leaving(Current(old(view.loc)), Cleanup)
                            else if old(view.loc) == PollStop then PollPause else HoldFlag
    {
      StopLooks(view);
      stop := mc.ShouldStop();
      Look(Ok);
    }

    /** Recording leaves when the pause flag is set, Paused when it is not. */
    method PauseTest() returns (paused: bool)
      requires Valid() && (view.loc == PollPause || view.loc == HoldFlag)
      modifies this`run, this`view
      ensures Valid() && (paused <==> old(view).shared.paused) && view.shared == old(view).shared
      ensures old(view).loc == PollPause ==> view.loc == if paused then Leaving(Recording, Paused) else PollChecks
      ensures old(view).loc == HoldFlag ==> view.loc == if paused then HoldCancel else Leaving(Paused, Resuming)
    {
      PauseLooks(view);
      paused := mc.isPaused;
      Look(Ok);
    }

    /** Steps 2 and 3 of a poll: leave on a stop request, then on a pause request. */
    method PollRequests() returns (next: Option<StateType>)
      requires Valid() && view.loc == PollStop
      modifies this`clock, this`stops, this`cancelled, this`run, this`view
      modifies mc`endReason, mc`hasError, mc`isPaused, mc`pauseStartTime, mc`totalPauseDuration, mc`requests
      ensures Valid() && clock >= old(clock)
      ensures StillStopped(old(view)) && (old(view).shared.reason != Unset ==> next == Some(Cleanup))
      ensures next.None? ==> view.loc == PollChecks
      ensures next.Some? ==> view.loc == Leaving(Recording, next.value)
      ensures next.Some? ==> next.value == Paused || next.value == Cleanup
    {
      var stop := StopTest();
      if stop {
        return Some(Cleanup);
      }
      Interfere();
      var paused := PauseTest();
      return if paused then Some(Paused) else None;
    }

    /** Decide on `verdict` in a poll: end the recording, or go to sleep if it is Unset. */
    method Conclude(verdict: EndReason)
      requires Valid() && view.loc == PollChecks
      requires verdict == Unset || CanAnswer(PollChecks, Fail(verdict))
      modifies this`run, this`view, mc`endReason
      ensures Valid()
      ensures view.loc == if verdict == Unset then PollCancel else Leaving(Recording, Cleanup)
      ensures mc.endReason == if verdict == Unset then old(mc.endReason) else verdict
    {
      if verdict == Unset {
        Look(Ok);
      } else {
        LeaveWithReason(verdict, Fail(verdict));
      }
    }

    /** Sleep between polls; a cancelled context cuts it short. */
    method Sleep(d: nat)
      requires Valid()
      modifies this`clock, this`stops, this`cancelled, this`run, this`view
      modifies mc`endReason, mc`hasError, mc`isPaused, mc`pauseStartTime, mc`totalPauseDuration, mc`requests
      ensures Valid() && Undisturbed(old(view))
      ensures clock >= if cancelled then old(clock) else old(clock) + d
    {
      var start := clock;
      Interfere();
      if !cancelled && clock < start + d {
        clock := start + d;
      }
    }

    /** Steps 4 to 9 of a poll, with what it saw if it reached the timeout checks. */
    method PollChecksOnce(recordStart: int) returns (wrote: EndReason, ghost seen: Option<Poll>)
      requires Valid() && view.loc == PollChecks
      modifies this`clock, this`stops, this`cancelled, this`run, this`view, this`samples, mc
      ensures Valid() && clock >= old(clock) && old(samples) <= samples
      ensures view.loc == if wrote == Unset then PollCancel else Leaving(Recording, Cleanup)
      ensures wrote == Unset ==> old(clock) - recordStart < 4 * 3600 * 1_000_000_000
      ensures wrote != Unset ==> mc.endReason == wrote
      ensures StillStopped(old(view)) && Earned(wrote, recordStart) && wrote != ApiRequest && PageThere(seen)
      ensures Judged(cfg, track0, recordStart, tracksSpeakers, old(samples), samples, seen, wrote)
      ensures wrote == Unset ==> seen.Some?
    {
      wrote, seen := Survey(recordStart);
      Conclude(wrote);
    }

    /** How long it has been, who is there, whether the page still is, and the three timeouts. */
    method Survey(recordStart: int) returns (wrote: EndReason, ghost seen: Option<Poll>)
      requires Valid() && view.loc == PollChecks
      modifies this`clock, this`stops, this`cancelled, this`run, this`view, this`samples, mc
      ensures Valid() && view.loc == PollChecks && clock >= old(clock) && old(samples) <= samples
      ensures wrote == Unset || CanAnswer(PollChecks, Fail(wrote))
      ensures Judged(cfg, track0, recordStart, tracksSpeakers, old(samples), samples, seen, wrote)
      ensures StillStopped(old(view)) && Earned(wrote, recordStart) && wrote != ApiRequest && PageThere(seen)
      ensures wrote == Unset ==> seen.Some? && old(clock) - recordStart < 4 * 3600 * 1_000_000_000
    {
      if clock - recordStart >= Silence.MAX_RECORDING {
        return RecordingTimeout, None;
      }
      SampleAndWait();
      wrote, seen := Judge(recordStart);
    }

    method SampleAndWait()
      requires Valid() && view.loc == PollChecks
      modifies this`clock, this`stops, this`cancelled, this`run, this`view, this`samples, mc
      ensures Valid() && view.loc == PollChecks && clock >= old(clock)
      ensures StillStopped(old(view))
      ensures old(samples) <= samples && |samples| == |old(samples)| + Taken(tracksSpeakers, 1)
    {
      TakeSample();
      Interfere();
    }

    /** A speaker snapshot, if speakers are tracked. */
    method TakeSample()
      requires Valid() && !PreRecording(current)
      modifies this`samples
      modifies mc`attendeesCount, mc`firstUserJoined, mc`lastSpeakerTime, mc`noSpeakerDetectedTime
      ensures Valid() && old(samples) <= samples && |samples| == |old(samples)| + Taken(tracksSpeakers, 1)
    {
      if tracksSpeakers {
        Observe();
      }
    }

    /** The page and timeout checks of a poll. */
    method Judge(recordStart: int) returns (wrote: EndReason, ghost seen: Option<Poll>)
      requires Valid()
      ensures wrote == Unset || CanAnswer(PollChecks, Fail(wrote))
      ensures seen.Some? ==> seen.value.seen == samples && VerdictAt(cfg, track0, seen.value, recordStart) == wrote
      ensures seen.None? ==> wrote == BotRemoved
      ensures Earned(wrote, recordStart) && wrote != ApiRequest && PageThere(seen)
    {
      if pageGoneAt(clock) {
        return BotRemoved, None;
      }
      wrote := Silence.Verdict(cfg, mc.Tracking(), recordStart, clock);
      seen := Some(Poll(samples, clock));
    }

    /** One poll, steps 1 to 9. `next` is None if the loop goes on. */
    method PollOnce(recordStart: int)
      returns (next: Option<StateType>, wrote: EndReason, ghost seen: Option<Poll>)
      requires Valid() && view.loc == PollCancel
      modifies this`clock, this`stops, this`cancelled, this`run, this`view, this`samples, mc
      ensures Valid() && clock >= old(clock) && old(samples) <= samples
      ensures view.loc == if next.None? then PollCancel else Leaving(Recording, next.value)
      ensures wrote != Unset ==> mc.endReason == wrote
      ensures StillStopped(old(view)) && Earned(wrote, recordStart) && PageThere(seen)
      ensures wrote == ApiRequest <==> old(cancelled)
      ensures old(view).shared.reason != Unset || old(cancelled) ==> next == Some(Cleanup)
      ensures Judged(cfg, track0, recordStart, tracksSpeakers, old(samples), samples, seen, wrote)
      ensures GoesOn(next, wrote, seen)
      ensures next.None? ==> old(clock) - recordStart < 4 * 3600 * 1_000_000_000
      ensures next.None? ==> !old(cancelled)
    {
      var gone := PollCancellation();
      if gone {
        return Some(Cleanup), ApiRequest, None;
      }
      next, wrote, seen := PollRest(recordStart);
    }

    /** Steps 2 to 9 of a poll. */
    method PollRest(recordStart: int)
      returns (next: Option<StateType>, wrote: EndReason, ghost seen: Option<Poll>)
      requires Valid() && view.loc == PollStop
      modifies this`clock, this`stops, this`cancelled, this`run, this`view, this`samples, mc
      ensures Valid() && clock >= old(clock) && old(samples) <= samples
      ensures view.loc == if next.None? then PollCancel else Leaving(Recording, next.value)
      ensures wrote != Unset ==> mc.endReason == wrote
      ensures StillStopped(old(view)) && Earned(wrote, recordStart) && wrote != ApiRequest && PageThere(seen)
      ensures old(view).shared.reason != Unset ==> next == Some(Cleanup)
      ensures Judged(cfg, track0, recordStart, tracksSpeakers, old(samples), samples, seen, wrote)
      ensures GoesOn(next, wrote, seen)
      ensures next.None? ==> old(clock) - recordStart < 4 * 3600 * 1_000_000_000
    {
      next := PollRequests();
      if next.Some? {
        return next, Unset, None;
      }
      wrote, seen := PollChecksOnce(recordStart);
      next := if wrote == Unset then None else Some(Cleanup);
    }

    /** Poll number `polls`, counting from 0, the log it leaves, and the sleep if the loop goes on. */
    method PollAndLog(recordStart: int, ghost had: nat, ghost polls: nat, ghost log: seq<Poll>)
      returns (next: Option<StateType>, wrote: EndReason, ghost longer: seq<Poll>)
      requires Valid() && GoingOn(recordStart, had, polls, log)
      requires AllSampled(log, samples, had, tracksSpeakers)
      modifies this`clock, this`stops, this`cancelled, this`run, this`view, this`samples, mc
      ensures Valid() && AllSampled(longer, samples, had, tracksSpeakers)
      ensures wrote != Unset ==> mc.endReason == wrote
      ensures StillStopped(old(view)) && (next.Some? ==> Earned(wrote, recordStart))
      ensures old(view).shared.reason != Unset || old(cancelled) ==> next == Some(Cleanup)
      ensures next.None? ==> GoingOn(recordStart, had, polls + 1, longer)
      ensures next.Some? ==> view.loc == Leaving(Recording, next.value) && |log| <= |longer| <= |log| + 1
      ensures next.Some? ==> Ended(cfg, track0, longer, recordStart, next.value, wrote)
    {
      PollsBounded(recordStart, polls, clock);
      next, wrote, longer := PollLogged(recordStart, had, log);
      if next.None? {
        Sleep(Silence.POLL_INTERVAL);
      }
    }

    method PollLogged(recordStart: int, ghost had: nat, ghost log: seq<Poll>)
      returns (next: Option<StateType>, wrote: EndReason, ghost longer: seq<Poll>)
      requires Valid() && view.loc == PollCancel
      requires AllSampled(log, samples, had, tracksSpeakers) && AllQuiet(cfg, track0, log, recordStart)
      requires |samples| == had + Taken(tracksSpeakers, |log|)
      modifies this`clock, this`stops, this`cancelled, this`run, this`view, this`samples, mc
      ensures Valid() && AllSampled(longer, samples, had, tracksSpeakers) && clock >= old(clock)
      ensures wrote != Unset ==> mc.endReason == wrote
      ensures StillStopped(old(view)) && Earned(wrote, recordStart)
      ensures old(view).shared.reason != Unset || old(cancelled) ==> next == Some(Cleanup)
      ensures next.None? ==> wrote == Unset && view.loc == PollCancel && |longer| == |log| + 1
      ensures next.None? ==> AllQuiet(cfg, track0, longer, recordStart)
      ensures next.None? ==> |samples| == had + Taken(tracksSpeakers, |longer|)
      ensures next.None? ==> old(clock) - recordStart < 4 * 3600 * 1_000_000_000 && !old(cancelled)
      ensures next.Some? ==> view.loc == Leaving(Recording, next.value) && |log| <= |longer| <= |log| + 1
      ensures next.Some? ==> Ended(cfg, track0, longer, recordStart, next.value, wrote)
    {
      ghost var before := samples;
      ghost var seen: Option<Poll>;
      next, wrote, seen := PollOnce(recordStart);
      longer := Extend(log, seen);
      LogGrows(cfg, track0, recordStart, log, had, tracksSpeakers, before, samples, seen, wrote);
    }

    /** Recording: the polling loop, and what its end says about the time before. */
    method ExecuteRecording()
      returns (next: StateType, wrote: EndReason, polls: nat, recordStart: int, ghost log: seq<Poll>)
      requires Valid() && view.loc == PollCancel
      modifies this`clock, this`stops, this`cancelled, this`run, this`view, this`samples, mc
      ensures Valid() && view.loc == Leaving(Recording, next)
      ensures polls <= 7201 && polls - 1 <= |log| <= polls
      ensures AllSampled(log, samples, old(|samples|), tracksSpeakers)
      ensures StillStopped(old(view)) && Earned(wrote, recordStart)
      ensures old(view).shared.reason != Unset || old(cancelled) ==> next == Cleanup && polls == 1
      ensures Ended(cfg, track0, log, recordStart, next, wrote) && (wrote != Unset ==> mc.endReason == wrote)
      ensures wrote == NoSpeaker ==> SilentBefore(cfg, log[|log| - 1].checkedAt, log[|log| - 1].seen)
    {
      recordStart := clock;
      next, wrote, polls, log := PollUntilDone(recordStart);
      if wrote == NoSpeaker {
        NoSpeakerEnding(cfg, track0, log, recordStart, next, samples, old(|samples|), tracksSpeakers);
      }
    }

    /** The polling loop. `polls` counts its iterations; `log` keeps those that reached the timeout checks. */
    method PollUntilDone(recordStart: int)
      returns (next: StateType, wrote: EndReason, polls: nat, ghost log: seq<Poll>)
      requires Valid() && view.loc == PollCancel && recordStart == clock
      modifies this`clock, this`stops, this`cancelled, this`run, this`view, this`samples, mc
      ensures Valid() && view.loc == Leaving(Recording, next)
      ensures polls <= 7201 && polls - 1 <= |log| <= polls
      ensures AllSampled(log, samples, old(|samples|), tracksSpeakers)
      ensures StillStopped(old(view)) && Earned(wrote, recordStart)
      ensures old(view).shared.reason != Unset || old(cancelled) ==> next == Cleanup && polls == 1
      ensures Ended(cfg, track0, log, recordStart, next, wrote) && (wrote != Unset ==> mc.endReason == wrote)
    {
      var move: Option<StateType> := None;
      wrote, polls, log := Unset, 0, [];
      while move.None?
        invariant Valid() && polls <= 7201 && (wrote != Unset ==> mc.endReason == wrote)
        invariant AllSampled(log, samples, old(|samples|), tracksSpeakers)
        invariant StillStopped(old(view)) && (move.Some? ==> Earned(wrote, recordStart))
        invariant polls == 0 ==> move.None? && view == old(view) && cancelled == old(cancelled)
        invariant polls > 0 && (old(view).shared.reason != Unset || old(cancelled)) ==>
                    move == Some(Cleanup) && polls == 1
        invariant move.None? ==> GoingOn(recordStart, old(|samples|), polls, log)
        invariant move.Some? ==> view.loc == Leaving(Recording, move.value) && polls - 1 <= |log| <= polls
        invariant move.Some? ==> Ended(cfg, track0, log, recordStart, move.value, wrote)
        decreases 7201 - polls
      {
        move, wrote, log := PollAndLog(recordStart, old(|samples|), polls, log);
        polls := polls + 1;
      }
      next := move.value;
    }

    /** Between two polls: all so far went on, each took its sample and its time. */
    ghost predicate GoingOn(recordStart: int, had: nat, polls: nat, log: seq<Poll>)
      reads this
    {
      && view.loc == PollCancel
      && polls <= 7200
      && |log| == polls
      && (cancelled || clock >= PollTime(recordStart, polls))
      && AllQuiet(cfg, track0, log, recordStart)
      && |samples| == had + Taken(tracksSpeakers, polls)
    }

    // -------------------------------------------------------------- Paused and Resuming

    method PauseRecorder()
      requires Valid() && view.loc == Pausing
      modifies this`run, this`view, recorder
      ensures Valid() && view.loc == HoldCancel && view.shared == old(view).shared
    {
      if recorder != null {
        var delivered: bool := *;
        var _ := recorder.Pause(delivered);   // a failed pause is only logged
      }
      Note(Tick(Ok));
    }

    /** One iteration of the paused loop. */
    method HoldOnce() returns (next: Option<StateType>)
      requires Valid() && view.loc == HoldCancel
      modifies this`clock, this`stops, this`cancelled, this`run, this`view
      modifies mc`endReason, mc`hasError, mc`isPaused, mc`pauseStartTime, mc`totalPauseDuration, mc`requests
      ensures clock >= old(clock) && (old(cancelled) ==> cancelled)
      ensures Valid() && StillStopped(old(view))
      ensures old(view).shared.reason != Unset || old(cancelled) ==> next == Some(Cleanup)
      ensures old(cancelled) ==> mc.endReason == ApiRequest
      ensures view.loc == if next.Some? then Leaving(Paused, next.value) else HoldCancel
      ensures next.Some? ==> next.value == Cleanup || next.value == Resuming
    {
      var gone := cancelled;
      Look(Ok);
      Interfere();
      if gone {
        LeaveWithReason(ApiRequest, Ok);
        return Some(Cleanup);
      }
      next := HoldRequests();
    }

    method HoldRequests() returns (next: Option<StateType>)
      requires Valid() && view.loc == HoldStop
      modifies this`clock, this`stops, this`cancelled, this`run, this`view
      modifies mc`endReason, mc`hasError, mc`isPaused, mc`pauseStartTime, mc`totalPauseDuration, mc`requests
      ensures clock >= old(clock) && (old(cancelled) ==> cancelled)
      ensures Valid() && StillStopped(old(view)) && (old(view).shared.reason != Unset ==> next == Some(Cleanup))
      ensures view.loc == if next.Some? then Leaving(Paused, next.value) else HoldCancel
      ensures next.Some? ==> next.value == Cleanup || next.value == Resuming
    {
      var stop := StopTest();
      if stop {
        return Some(Cleanup);
      }
      Interfere();
      var paused := PauseTest();
      return if !paused then Some(Resuming) else None;
    }

    /**
     Nobody may ever resume or stop the bot, so the loop is followed for `patience` polls. A stop request or
     cancellation ends it at the next poll.
     */
    method ExecutePaused(patience: nat) returns (next: Option<StateType>)
      requires Valid() && view.loc == Pausing
      modifies this`clock, this`stops, this`cancelled, this`run, this`view, recorder
      modifies mc`endReason, mc`hasError, mc`isPaused, mc`pauseStartTime, mc`totalPauseDuration, mc`requests
      ensures Valid() && StillStopped(old(view))
      ensures view.loc == if next.Some? then Leaving(Paused, next.value) else HoldCancel
      ensures patience > 0 && (old(view).shared.reason != Unset || old(cancelled)) ==> next == Some(Cleanup)
      ensures patience > 0 && old(cancelled) ==> mc.endReason == ApiRequest
      ensures next.None? && !cancelled ==> clock >= old(clock) + patience * 500_000_000
    {
      PauseRecorder();
      Interfere();
      next := None;
      for k := 0 to patience
        invariant Valid() && view.loc == HoldCancel && next.None?
        invariant StillStopped(old(view)) && (old(cancelled) ==> cancelled)
        invariant k > 0 ==> old(view).shared.reason == Unset && !old(cancelled)
        invariant cancelled || clock >= old(clock) + k * 500_000_000
      {
        next := HoldOnce();
        if next.Some? {
          return;
        }
        Sleep(Silence.SECOND / 2);
      }
    }

    method ExecuteResuming() returns (next: StateType)
      requires Valid() && view.loc == ResumeCall
      modifies this`clock, this`stops, this`cancelled, this`run, this`view, recorder
      modifies mc`endReason, mc`hasError, mc`isPaused, mc`pauseStartTime, mc`totalPauseDuration, mc`requests
      ensures Valid() && view.loc == Leaving(Resuming, next) && StillStopped(old(view))
    {
      var ok := ResumeRecorder();
      if !ok {
        next := RecorderFailed();
        return;
      }
      return Recording;
    }

    method ResumeRecorder() returns (ok: bool)
      requires Valid() && view.loc == ResumeCall
      modifies this`run, this`view, recorder
      ensures Valid() && view.shared == old(view).shared
      ensures view.loc == if ok then Leaving(Resuming, Recording) else ResumeFailed
    {
      ok := true;
      if recorder != null {
        var delivered: bool := *;
        ok := recorder.Resume(delivered);
      }
      Note(Tick(if ok then Ok else Fail(Internal)));
    }

    // -------------------------------------------------------------- the end

    method ExecuteError() returns (next: StateType)
      requires Valid() && view.loc == Reporting
      modifies this`run, this`view
      ensures Valid() && view.loc == Leaving(Error, next) && StillStopped(old(view))
    {
      Look(Ok);
      return Cleanup;
    }

    method ExecuteCleanup() returns (next: StateType)
      requires Valid() && view.loc == CleaningUp
      modifies this`run, this`view, recorder
      ensures Valid() && view.loc == Leaving(Cleanup, next) && StillStopped(old(view))
      ensures recorder != null ==> !recorder.running
    {
      if recorder != null {
        recorder.Stop();
      }
      Note(Tick(Ok));
      return Terminated;
    }

    /** Execute of the current state. `None` = still paused when patience ran out. */
    method Execute(patience: nat) returns (next: Option<StateType>)
      requires Valid() && view.loc == Entry(current) && current != Terminated
      modifies this`clock, this`stops, this`cancelled, this`run, this`view, this`track0, this`samples, mc, recorder
      ensures Valid() && StillStopped(old(view))
      ensures patience > 0 && old(view).shared.reason != Unset ==>
                next.Some? && (current == Recording || current == Paused ==> next.value == Cleanup)
      ensures next.Some? ==> view.loc == Leaving(current, next.value)
    {
      if PreRecording(current) {
        var n := ExecuteEarly();
        return Some(n);
      }
      if current == Paused {
        next := ExecutePaused(patience);
      } else {
        var n := ExecuteLate();
        next := Some(n);
      }
    }

    method ExecuteEarly() returns (next: StateType)
      requires Valid() && view.loc == Entry(current) && PreRecording(current)
      modifies this`clock, this`stops, this`cancelled, this`run, this`view, this`track0, mc, recorder
      ensures Valid() && view.loc == Leaving(current, next) && StillStopped(old(view))
    {
      match current {
      case Initialization => next := ExecuteInitialization();
      case WaitingRoom => next := ExecuteWaitingRoom();
      case InCall => next := ExecuteInCall();
      }
    }

    method ExecuteLate() returns (next: StateType)
      requires Valid() && view.loc == Entry(current)
      requires !PreRecording(current) && current != Paused && current != Terminated
      modifies this`clock, this`stops, this`cancelled, this`run, this`view, this`samples, mc, recorder
      ensures Valid() && view.loc == Leaving(current, next) && StillStopped(old(view))
      ensures current == Recording && old(view).shared.reason != Unset ==> next == Cleanup
    {
      match current {
      case Recording =>
        var wrote, polls, start;
        ghost var log;
        next, wrote, polls, start, log := ExecuteRecording();
      case Resuming => next := ExecuteResuming();
      case Error => next := ExecuteError();
      case Cleanup => next := ExecuteCleanup();
      }
    }

    /**
     The engine. The source's loop has no bound because pauses may go on for ever; here it is followed
     for at most `rounds` states, and `patience` polls of each pause. Cancelled at the top of its loop it finishes at
     once, and stopped anywhere after five states at most.
     */
    method Run(rounds: nat, patience: nat) returns (finished: bool)
      requires Valid() && view.loc == Head(current)
      modifies this`current, this`clock, this`stops, this`cancelled, this`run, this`view, this`track0, this`samples
      modifies mc, recorder
      ensures Valid()
      ensures rounds > 0 && old(cancelled) ==> finished
      ensures rounds > 5 && patience > 0 && old(view).shared.reason != Unset ==> finished
      ensures finished ==> view.loc.Finished? && current == Terminated
      ensures finished && recorder != null ==> (LegalHistory(recorder.calls) <==> !view.loc.forced)
      ensures finished && recorder != null && !view.loc.forced ==> !recorder.running
      ensures finished && !cancelled ==> !view.loc.forced
    {
      finished := false;
      for round := 0 to rounds
        invariant Valid() && view.loc == Head(current) && StillStopped(old(view))
        invariant round > 0 ==> !old(cancelled)
        invariant round == 0 ==> cancelled == old(cancelled)
        invariant patience > 0 && old(view).shared.reason != Unset ==> StatesLeft(current) + round <= 5
      {
        var progress := RunState(patience);
        if progress.AtEnd? {
          RecorderProtocol(recorder != null, run);
          return true;
        }
        if progress.StillPaused? {
          return false;
        }
      }
    }

    /** One round: the loop's tests, the state, and the assignment of the next one. */
    method RunState(patience: nat) returns (r: Progress)
      requires Valid() && view.loc == Head(current)
      modifies this`current, this`clock, this`stops, this`cancelled, this`run, this`view, this`track0, this`samples
      modifies mc, recorder
      ensures Valid() && StillStopped(old(view))
      ensures old(cancelled) || old(current) == Terminated ==> r.AtEnd?
      ensures r.AtEnd? ==> view.loc.Finished? && current == Terminated
      ensures r.Moved? ==> view.loc == Head(current)
      ensures patience > 0 && old(view).shared.reason != Unset ==>
                !r.StillPaused? && (r.Moved? ==> StatesLeft(current) < StatesLeft(old(current)))
    {
      var finished := AtHead();
      if finished {
        return AtEnd;
      }
      Interfere();
      var next := Execute(patience);
      if next.None? {
        return StillPaused;
      }
      Interfere();
      Assign(next.value);
      if patience > 0 && old(view).shared.reason != Unset {
        FewerStatesLeft(old(current), current);
      }
      return Moved;
    }

    /** The loop's tests: stop at Terminated, or force it when the context is cancelled. */
    method AtHead() returns (finished: bool)
      requires Valid() && view.loc == Head(current)
      modifies this`current, this`clock, this`stops, this`cancelled, this`run, this`view
      modifies mc`endReason, mc`hasError, mc`isPaused, mc`pauseStartTime, mc`totalPauseDuration, mc`requests
      ensures Valid() && StillStopped(old(view)) && (old(cancelled) || old(current) == Terminated ==> finished)
      ensures finished ==> view.loc.Finished? && current == Terminated
      ensures !finished ==> view.loc == Entry(current) && current == old(current) != Terminated
    {
      Interfere();
      finished := current == Terminated || cancelled;
      if finished {
        EndsOver(view);
        Finish();
      } else {
        Look(Ok);
      }
    }

    method Finish()
      requires Valid() && view.loc == Head(current)
      requires Step(view, Tick(Ok)) == view.Goto(Finished(current != Terminated))
      modifies this`current, this`run, this`view
      ensures Valid() && view.loc.Finished? && current == Terminated
    {
      current := Terminated;
      Note(Tick(Ok));
    }

    method Assign(next: StateType)
      requires Valid() && view.loc == Leaving(current, next)
      modifies this`current, this`run, this`view
      ensures Valid() && current == next && view.loc == Head(next) && view.shared == old(view).shared
      ensures Edge(old(current), next)
    {
      InvHolds(recorder != null, run);
      current := next;
      Note(Tick(Ok));
    }

    /** At any time, the total pause duration plus the open pause is the time the session has spent paused. */
    lemma PausesAddUp()
      requires Valid()
      ensures mc.totalPauseDuration + OpenInterval(mc.Pauses(), clock) == TimePaused(mc.requests, clock)
    {
      PausesAccountedFor(mc, clock);
    }

    /**
     Reads the error flag, then the end reason; others may act in between. Asked after an uncancelled run,
     the answer yes means a recording was made.
     */
    method WasRecordingSuccessful() returns (ok: bool)
      requires Valid()
      modifies this`clock, this`stops, this`cancelled, this`run, this`view
      modifies mc`endReason, mc`hasError, mc`isPaused, mc`pauseStartTime, mc`totalPauseDuration, mc`requests
      ensures Valid() && Undisturbed(old(view))
      ensures ok <==> !old(mc.hasError) && mc.endReason.IsNormal()
      ensures ok && old(view.loc.Finished? && !cancelled) ==>
                view.hist.recorded && (recorder != null ==> view.rec.started)
    {
      if mc.hasError {
        return false;
      }
      SuccessReadApart(recorder != null, run, []);
      Interfere();
      ok := mc.endReason.IsNormal();
    }
  }
}

/**
 The bot session as a transition system.

 One machine goroutine drives the state map while HTTP and Redis goroutines stop, pause, resume and
 cancel it. A step is one access to the state they share (`current`, the end reason and error flag,
 `IsPaused`, the context's cancellation), so every interleaving of the original is a run here.
 */
module Session {
  import opened BotTypes

  /** Where the machine goroutine is. */
  datatype Loc =
    | Head(st: StateType)                          // top of the loop in Machine.Run
    | Leaving(from: StateType, next: StateType)    // Execute returned, `current` not yet assigned
    | Launching                                    // Initialization
    | Joining | JoinFailed | JoinRefused           // WaitingRoom
    | EarlyStopTest | EarlyStop | Starting | StartFailed  // InCall
    | PollCancel | PollCancelled | PollStop | PollPause | PollChecks  // Recording
    | Pausing | HoldCancel | HoldCancelled | HoldStop | HoldFlag      // Paused
    | ResumeCall | ResumeFailed                    // Resuming
    | Reporting                                    // Error
    | CleaningUp                                   // Cleanup
    | Finished(forced: bool)                       // Run returned; forced = it skipped the remaining states

  /** What the outside world answers when the machine asks it something. */
  datatype Outcome = Ok | Fail(reason: EndReason)

  datatype Event =
    | Tick(outcome: Outcome)      // the machine goroutine's next access
    | StopRead                    // RequestStop reads `current`
    | StopWrite(i: nat)           // the i-th RequestStop in flight writes its verdict
    | SetPaused(on: bool)
    | Cancel                      // the context is cancelled

  /** The part of MeetingContext that other goroutines touch, and the stop requests in flight. */
  datatype Shared = Shared(
    reason: EndReason,
    hasError: bool,
    paused: bool,
    cancelled: bool,
    stops: seq<bool>)     // RequestStop calls between read and write; true = it read a pre-recording state
  {
    function SetError(r: EndReason): Shared {
      this.(reason := r, hasError := true)
    }
  }

  /** What the recorder's call history amounts to. */
  datatype Phase = Idle | Live | Held | Done | Illegal

  function Next(p: Phase, c: Call): Phase {
    match (p, c)
    case (Idle, Start) => Live
    case (Live, Pause) => Held
    case (Held, Resume) => Live
    case (Idle, Stop) => Done
    case (Live, Stop) => Done
    case (Held, Stop) => Done
    case _ => Illegal
  }

  /** The recorder: `running` is ScreenRecorder.running, `started` that a start has succeeded. */
  datatype Recorder = Recorder(present: bool, running: bool, started: bool, calls: seq<Call>, phase: Phase) {
    function Log(c: Call): Recorder {
      this.(calls := calls + [c], phase := Next(phase, c))
    }
  }

  /** History variables: no step reads them. */
  datatype History = History(
    recorded: bool,       // `current` has been Recording
    executed: nat,        // calls of State.Execute
    flips: nat,           // false-to-true changes of `paused`
    holds: nat)           // decisions of Recording to go to Paused

  datatype Session = Session(loc: Loc, shared: Shared, rec: Recorder, hist: History) {
    function Goto(l: Loc): Session {
      this.(loc := l)
    }

    function Leave(next: StateType): Session {
      this.(loc := Leaving(Current(loc), next))
    }

    function FailWith(r: EndReason, next: StateType): Session {
      this.(shared := shared.SetError(r), loc := Leaving(Current(loc), next))
    }

    function EndWith(r: EndReason): Session {
      this.(shared := shared.(reason := r), loc := Leaving(Current(loc), Cleanup))
    }
  }

  function Initial(hasRecorder: bool): Session {
    Session(Head(Initialization), Shared(Unset, false, false, false, []),
            Recorder(hasRecorder, false, false, [], Idle), History(false, 0, 0, 0))
  }

  /** The value of `Machine.current`, which is what other goroutines read. */
  function Current(loc: Loc): StateType {
    match loc
    case Head(st) => st
    case Leaving(from, _) => from
    case Launching => Initialization
    case Joining | JoinFailed | JoinRefused => WaitingRoom
    case EarlyStopTest | EarlyStop | Starting | StartFailed => InCall
    case PollCancel | PollCancelled | PollStop | PollPause | PollChecks => Recording
    case Pausing | HoldCancel | HoldCancelled | HoldStop | HoldFlag => Paused
    case ResumeCall | ResumeFailed => Resuming
    case Reporting => Error
    case CleaningUp => Cleanup
    case Finished(_) => Terminated
  }

  /** First access of each state's Execute. Terminated is never executed. */
  function Entry(st: StateType): Loc {
    match st
    case Initialization => Launching
    case WaitingRoom => Joining
    case InCall => EarlyStopTest
    case Recording => PollCancel
    case Paused => Pausing
    case Resuming => ResumeCall
    case Cleanup => CleaningUp
    case Error => Reporting
    case Terminated => Finished(false)
  }

  /** Whether the outside world can give answer `o` where the machine now is. */
  predicate CanAnswer(loc: Loc, o: Outcome) {
    match loc
    case Launching => o.Ok? || o.reason in {InvalidMeetingURL, CannotJoinMeeting}
    case Joining => o.Ok? || o.reason in {Internal, BotNotAccepted}
    case JoinRefused => o.Fail? && o.reason in {TimeoutWaiting, BotNotAccepted}
    case Starting => o.Ok? || o.reason == Internal
    case ResumeCall => o.Ok? || o.reason == Internal
    case PollChecks =>
      o.Ok? || o.reason in {RecordingTimeout, BotRemoved, NoSpeaker, NoAttendees, AllParticipantsLeft}
    case Finished(_) => false
    case _ => o.Ok?
  }

  predicate CanStep(s: Session, e: Event) {
    match e
    case Tick(o) => CanAnswer(s.loc, o)
    case StopWrite(i) => i < |s.shared.stops|
    case _ => true
  }

  /** Machine.Run between two states: the loop's tests, and the assignment of `current`. */
  function LoopStep(s: Session): Session
    requires s.loc.Head? || s.loc.Leaving?
  {
    match s.loc
    case Head(st) =>
      if st == Terminated then s.Goto(Finished(false))
      else if s.shared.cancelled then s.Goto(Finished(true))
      else s.(loc := Entry(st), hist := s.hist.(executed := s.hist.executed + 1))
    case Leaving(_, next) =>
      s.(loc := Head(next), hist := s.hist.(recorded := s.hist.recorded || next == Recording))
  }

  function WaitingRoomStep(s: Session, o: Outcome): Session
    requires s.loc.Joining? || s.loc.JoinFailed? || s.loc.JoinRefused?
    requires CanAnswer(s.loc, o)
  {
    if s.loc.Joining? then
      if o.Ok? then s.Leave(InCall)
      else if o.reason == Internal then s.FailWith(Internal, Error)
      else s.Goto(JoinFailed)
    else if s.loc.JoinFailed? then
      if s.shared.reason != Unset then s.Leave(Cleanup) else s.Goto(JoinRefused)
    else s.FailWith(o.reason, Error)
  }

  function InCallStep(s: Session, o: Outcome): Session
    requires s.loc.EarlyStopTest? || s.loc.EarlyStop? || s.loc.Starting? || s.loc.StartFailed?
  {
    if s.loc.EarlyStopTest? then s.Goto(if s.shared.reason != Unset then EarlyStop else Starting)
    else if s.loc.EarlyStop? then s.FailWith(ExitBeforeRecord, Cleanup)
    else if s.loc.StartFailed? then s.FailWith(Internal, Error)
    else if !s.rec.present then s.Leave(Recording)
    else if o.Ok? && !s.rec.running then
      s.Leave(Recording).(rec := s.rec.Log(Start).(running := true, started := true))
    else s.(rec := s.rec.Log(Start), loc := StartFailed)
  }

  function RecordingStep(s: Session, o: Outcome): Session
    requires Current(s.loc) == Recording && !s.loc.Head? && !s.loc.Leaving?
  {
    if s.loc.PollCancel? then s.Goto(if s.shared.cancelled then PollCancelled else PollStop)
    else if s.loc.PollCancelled? then s.EndWith(ApiRequest)
    else if s.loc.PollStop? then
      if s.shared.reason != Unset then s.Leave(Cleanup) else s.Goto(PollPause)
    else if s.loc.PollPause? then
      if s.shared.paused then s.Leave(Paused).(hist := s.hist.(holds := s.hist.holds + 1))
      else s.Goto(PollChecks)
    else if o.Ok? then s.Goto(PollCancel) else s.EndWith(o.reason)
  }

  function PausedStep(s: Session): Session
    requires Current(s.loc) == Paused && !s.loc.Head? && !s.loc.Leaving?
  {
    if s.loc.Pausing? then s.(loc := HoldCancel, rec := if s.rec.present then s.rec.Log(Pause) else s.rec)
    else if s.loc.HoldCancel? then s.Goto(if s.shared.cancelled then HoldCancelled else HoldStop)
    else if s.loc.HoldCancelled? then s.EndWith(ApiRequest)
    else if s.loc.HoldStop? then
      if s.shared.reason != Unset then s.Leave(Cleanup) else s.Goto(HoldFlag)
    else if !s.shared.paused then s.Leave(Resuming) else s.Goto(HoldCancel)
  }

  function ResumingStep(s: Session, o: Outcome): Session
    requires s.loc == ResumeCall || s.loc == ResumeFailed
  {
    if s.loc == ResumeFailed then s.FailWith(Internal, Error)
    else if !s.rec.present then s.Leave(Recording)
    else if o.Ok? then s.Leave(Recording).(rec := s.rec.Log(Resume))
    else s.(loc := ResumeFailed, rec := s.rec.Log(Resume))
  }

  function CleanupStep(s: Session): Session
    requires s.loc == CleaningUp
  {
    s.Leave(Terminated).(rec := if s.rec.present then s.rec.Log(Stop).(running := false) else s.rec)
  }

  /** One access by the machine goroutine. */
  function MachineStep(s: Session, o: Outcome): Session
    requires CanAnswer(s.loc, o)
  {
    if s.loc.Head? || s.loc.Leaving? then LoopStep(s) else
    match Current(s.loc)
    case Initialization => if o.Ok? then s.Leave(WaitingRoom) else s.FailWith(o.reason, Error)
    case WaitingRoom => WaitingRoomStep(s, o)
    case InCall => InCallStep(s, o)
    case Recording => RecordingStep(s, o)
    case Paused => PausedStep(s)
    case Resuming => ResumingStep(s, o)
    case Error => s.Leave(Cleanup)
    case Cleanup => CleanupStep(s)
    case Terminated => s
  }

  /** One access by another goroutine. */
  function OutsideStep(sh: Shared, current: StateType, e: Event): Shared
    requires !e.Tick? && (e.StopWrite? ==> e.i < |sh.stops|)
  {
    match e
    case StopRead => sh.(stops := sh.stops + [PreRecording(current)])
    case StopWrite(i) =>
      var rest := sh.(stops := sh.stops[..i] + sh.stops[i + 1..]);
      if sh.stops[i] then rest.SetError(ExitBeforeRecord) else rest.(reason := ApiRequest)
    case SetPaused(on) => sh.(paused := on)
    case Cancel => sh.(cancelled := true)
  }

  /** One step of the session: an access by the machine or by another goroutine. */
  function Step(s: Session, e: Event): Session
    requires CanStep(s, e)
  {
    if e.Tick? then MachineStep(s, e.outcome) else
    var flip := if e.SetPaused? && e.on && !s.shared.paused then 1 else 0;
    s.(shared := OutsideStep(s.shared, Current(s.loc), e), hist := s.hist.(flips := s.hist.flips + flip))
  }

  /** `es` can happen, in order, from `s`. */
  predicate CanRun(s: Session, es: seq<Event>)
    decreases |es|, 1
  {
    es == [] || LastCanStep(s, es)
  }

  predicate LastCanStep(s: Session, es: seq<Event>)
    requires es != []
    decreases |es|, 0
  {
    CanRun(s, es[..|es| - 1]) && CanStep(After(s, es[..|es| - 1]), es[|es| - 1])
  }

  /** The session after the run `es`. */
  function After(s: Session, es: seq<Event>): Session
    requires CanRun(s, es)
    decreases |es|, 3
  {
    if es == [] then s else AfterLast(s, es)
  }

  function AfterLast(s: Session, es: seq<Event>): Session
    requires es != [] && LastCanStep(s, es)
    decreases |es|, 2
  {
    Step(After(s, es[..|es| - 1]), es[|es| - 1])
  }

  /** What `Machine.WasRecordingSuccessful` answers. */
  predicate Successful(s: Session) {
    !s.shared.hasError && s.shared.reason.IsNormal()
  }

  lemma RunLast(s: Session, es: seq<Event>)
    requires es != [] && CanRun(s, es)
    ensures CanRun(s, es[..|es| - 1]) && CanStep(After(s, es[..|es| - 1]), es[|es| - 1])
    ensures After(s, es) == Step(After(s, es[..|es| - 1]), es[|es| - 1])
  {
  }

  lemma RunSnoc(s: Session, es: seq<Event>, e: Event)
    requires CanRun(s, es) && CanStep(After(s, es), e)
    ensures CanRun(s, es + [e]) && After(s, es + [e]) == Step(After(s, es), e)
  {
    assert (es + [e])[..|es|] == es;
  }

  lemma {:induction false} RunConcat(s: Session, es: seq<Event>, fs: seq<Event>)
    requires CanRun(s, es) && CanRun(After(s, es), fs)
    ensures CanRun(s, es + fs) && After(s, es + fs) == After(After(s, es), fs)
    decreases |fs|
  {
    if fs == [] {
      assert es + fs == es;
    } else {
      var init, last := fs[..|fs| - 1], fs[|fs| - 1];
      RunConcat(s, es, init);
      assert es + fs == (es + init) + [last];
      RunSnoc(s, es + init, last);
    }
  }

  // ---------------------------------------------------------------- recorder protocol

  function PhaseOf(calls: seq<Call>): Phase {
    if calls == [] then Idle else Next(PhaseOf(calls[..|calls| - 1]), calls[|calls| - 1])
  }

  lemma PhaseSnoc(calls: seq<Call>, c: Call)
    ensures PhaseOf(calls + [c]) == Next(PhaseOf(calls), c)
  {
    assert (calls + [c])[..|calls|] == calls;
  }

  function Cycles(n: nat): seq<Call> {
    if n == 0 then [] else Cycles(n - 1) + [Pause, Resume]
  }

  /** The three legal shapes of a finished recorder history. */
  ghost predicate LegalHistory(calls: seq<Call>) {
    || calls == [Stop]
    || exists n: nat :: calls == [Start] + Cycles(n) + [Stop] || calls == [Start] + Cycles(n) + [Pause, Stop]
  }

  /** The shapes of an unfinished history, phase by phase. */
  lemma {:induction false} OpenHistory(calls: seq<Call>)
    ensures PhaseOf(calls) == Idle ==> calls == []
    ensures PhaseOf(calls) == Live ==> exists n: nat :: calls == [Start] + Cycles(n)
    ensures PhaseOf(calls) == Held ==> exists n: nat :: calls == [Start] + Cycles(n) + [Pause]
  {
    if calls != [] {
      var init, last := calls[..|calls| - 1], calls[|calls| - 1];
      assert calls == init + [last];
      OpenHistory(init);
      if PhaseOf(init) == Idle && last == Start {
        assert calls == [Start] + Cycles(0);
      } else if PhaseOf(init) == Held && last == Resume {
        var n: nat :| init == [Start] + Cycles(n) + [Pause];
        assert calls == [Start] + Cycles(n + 1);
      }
    }
  }

  lemma FinishedHistory(calls: seq<Call>)
    requires PhaseOf(calls) == Done
    ensures LegalHistory(calls)
  {
    var init, last := calls[..|calls| - 1], calls[|calls| - 1];
    assert calls == init + [last];
    OpenHistory(init);
    if PhaseOf(init) == Live {
      var n: nat :| init == [Start] + Cycles(n);
      assert calls == [Start] + Cycles(n) + [Stop];
    } else if PhaseOf(init) == Held {
      var n: nat :| init == [Start] + Cycles(n) + [Pause];
      assert calls == [Start] + Cycles(n) + [Pause, Stop];
    }
  }

  // ---------------------------------------------------------------- invariants

  /** The transitions the real state map can return. */
  predicate Edge(from: StateType, next: StateType) {
    match from
    case Initialization => next == WaitingRoom || next == Error
    case WaitingRoom => next == InCall || next == Cleanup || next == Error
    case InCall => next == Recording || next == Cleanup || next == Error
    case Recording => next == Paused || next == Cleanup
    case Paused => next == Resuming || next == Cleanup
    case Resuming => next == Recording || next == Error
    case Error => next == Cleanup
    case Cleanup => next == Terminated
    case Terminated => false
  }

  predicate WellPlaced(loc: Loc) {
    match loc
    case Leaving(from, next) => Edge(from, next)
    case _ => true
  }

  /** Phase `p` is possible for the recorder when the machine is at `loc`. */
  predicate Fits(loc: Loc, p: Phase) {
    match loc
    case Head(st) => (
      match st
      case Initialization | WaitingRoom | InCall => p == Idle
      case Recording | Paused => p == Live
      case Resuming => p == Held
      case Error => p == Idle || p == Live
      case Cleanup => p == Idle || p == Live || p == Held
      case Terminated => p == Done)
    case Leaving(from, next) => (
      match from
      case Initialization | WaitingRoom => p == Idle
      case InCall => if next == Cleanup then p == Idle else p == Live
      case Recording | Resuming => p == Live
      case Paused => p == Held
      case Error => p == Idle || p == Live
      case Cleanup | Terminated => p == Done)
    case Launching | Joining | JoinFailed | JoinRefused | EarlyStopTest | EarlyStop | Starting => p == Idle
    case PollCancel | PollCancelled | PollStop | PollPause | PollChecks => p == Live
    case StartFailed | Pausing | ResumeFailed => p == Live
    case HoldCancel | HoldCancelled | HoldStop | HoldFlag | ResumeCall => p == Held
    case Reporting => p == Idle || p == Live
    case CleaningUp => p == Idle || p == Live || p == Held
    case Finished(forced) => if forced then p == Idle || p == Live || p == Held else p == Done
  }

  /** The calls so far fit the machine's place, and `running` is what they say it is. */
  predicate RecorderInv(loc: Loc, r: Recorder) {
    && (r.present ==> Fits(loc, r.phase))
    && (!r.present ==> r.phase == Idle && !r.running && !r.started)
    && (r.running <==> r.started && (r.phase == Live || r.phase == Held))
    && (r.started ==> r.phase != Idle)
  }

  predicate InMeeting(st: StateType) {
    st == Recording || st == Paused || st == Resuming
  }

  /** Recording was entered only after a recorder start succeeded, or with no recorder at all. */
  predicate RecordedInv(loc: Loc, r: Recorder, recorded: bool) {
    && (recorded ==> !r.present || r.started)
    && (recorded ==> !PreRecording(Current(loc)))
    && (InMeeting(Current(loc)) ==> recorded)
    && (loc == Leaving(InCall, Recording) ==> !r.present || r.started)
  }

  /** The state about to be entered, or in progress. */
  function Heading(loc: Loc): StateType {
    if loc.Leaving? then loc.next else Current(loc)
  }

  /** A stop request in flight that did not read a pre-recording state. */
  predicate LateStop(stops: seq<bool>) {
    false in stops
  }

  /** End reason and error flag, before the run is forced to its end by cancellation. */
  predicate ReasonInv(loc: Loc, sh: Shared, recorded: bool) {
    && (sh.hasError ==> sh.reason != Unset)
    && (loc == Finished(true) ==> sh.cancelled)
    && (loc != Finished(true) ==>
          && (Heading(loc) == Error ==> sh.hasError)
          && (Heading(loc) == Cleanup || Heading(loc) == Terminated ==> sh.reason != Unset)
          && (!recorded && (sh.reason != Unset || LateStop(sh.stops)) ==> sh.hasError))
  }

  /** How many states can have been executed before `st` is, after `holds` decisions to pause. */
  function BudgetBefore(st: StateType, holds: nat): int {
    match st
    case Initialization => 0
    case WaitingRoom => 1
    case InCall => 2
    case Recording => 3 + 3 * holds
    case Paused => 1 + 3 * holds
    case Resuming => 2 + 3 * holds
    case Error => 3 + 3 * holds
    case Cleanup => 4 + 3 * holds
    case Terminated => 5 + 3 * holds
  }

  function Budget(loc: Loc, holds: nat): int {
    match loc
    case Head(st) => BudgetBefore(st, holds)
    case Leaving(_, next) => BudgetBefore(next, holds)
    case Finished(_) => BudgetBefore(Terminated, holds)
    case _ => BudgetBefore(Current(loc), holds) + 1
  }

  /** A pending pause that Recording can still act on. */
  function Owed(loc: Loc, paused: bool): nat {
    if paused && (PreRecording(Heading(loc)) || Heading(loc) == Recording || Heading(loc) == Resuming) then 1 else 0
  }

  predicate CountInv(loc: Loc, paused: bool, h: History) {
    && h.executed <= Budget(loc, h.holds)
    && h.holds + Owed(loc, paused) <= h.flips
    && (Current(loc) == Paused || Current(loc) == Resuming || Heading(loc) == Paused ==> h.holds >= 1)
  }

  predicate Inv(s: Session) {
    && WellPlaced(s.loc)
    && RecorderInv(s.loc, s.rec)
    && RecordedInv(s.loc, s.rec, s.hist.recorded)
    && ReasonInv(s.loc, s.shared, s.hist.recorded)
    && CountInv(s.loc, s.shared.paused, s.hist)
  }

  lemma EntryKeepsRecorder(st: StateType, r: Recorder)
    requires RecorderInv(Head(st), r) && st != Terminated
    ensures RecorderInv(Entry(st), r)
  {
  }

  lemma EntryKeepsReason(st: StateType, r: Recorder, sh: Shared, recorded: bool)
    requires RecordedInv(Head(st), r, recorded) && ReasonInv(Head(st), sh, recorded) && st != Terminated
    ensures WellPlaced(Entry(st)) && RecordedInv(Entry(st), r, recorded) && ReasonInv(Entry(st), sh, recorded)
  {
  }

  lemma EntryKeepsCount(st: StateType, paused: bool, h: History)
    requires CountInv(Head(st), paused, h) && st != Terminated
    ensures CountInv(Entry(st), paused, h.(executed := h.executed + 1))
  {
  }

  lemma HeadKeeps(s: Session)
    requires Inv(s) && s.loc.Head?
    ensures Inv(LoopStep(s))
  {
    var st := s.loc.st;
    if st != Terminated && !s.shared.cancelled {
      EntryKeepsRecorder(st, s.rec);
      EntryKeepsReason(st, s.rec, s.shared, s.hist.recorded);
      EntryKeepsCount(st, s.shared.paused, s.hist);
    }
  }

  lemma LeavingKeeps(s: Session)
    requires Inv(s) && s.loc.Leaving?
    ensures Inv(LoopStep(s))
  {
  }

  lemma WaitingRoomKeeps(s: Session, o: Outcome)
    requires Inv(s) && (s.loc.Joining? || s.loc.JoinFailed? || s.loc.JoinRefused?) && CanAnswer(s.loc, o)
    ensures Inv(WaitingRoomStep(s, o))
  {
  }

  lemma InCallKeeps(s: Session, o: Outcome)
    requires Inv(s) && (s.loc.EarlyStopTest? || s.loc.EarlyStop? || s.loc.Starting? || s.loc.StartFailed?)
    ensures Inv(InCallStep(s, o))
  {
  }

  lemma RecordingKeeps(s: Session, o: Outcome)
    requires Inv(s) && Current(s.loc) == Recording && !s.loc.Head? && !s.loc.Leaving? && CanAnswer(s.loc, o)
    ensures Inv(RecordingStep(s, o))
  {
  }

  lemma PausingKeeps(s: Session)
    requires Inv(s) && s.loc.Pausing?
    ensures Inv(PausedStep(s))
  {
  }

  lemma HoldCancelKeeps(s: Session)
    requires Inv(s) && (s.loc.HoldCancel? || s.loc.HoldCancelled?)
    ensures Inv(PausedStep(s))
  {
  }

  lemma HoldKeeps(s: Session)
    requires Inv(s) && (s.loc.HoldStop? || s.loc.HoldFlag?)
    ensures Inv(PausedStep(s))
  {
  }

  lemma ResumingKeeps(s: Session, o: Outcome)
    requires Inv(s) && (s.loc.ResumeCall? || s.loc.ResumeFailed?)
    ensures Inv(ResumingStep(s, o))
  {
  }

  lemma CleanupKeeps(s: Session)
    requires Inv(s) && s.loc.CleaningUp?
    ensures Inv(CleanupStep(s))
  {
  }

  lemma MachineKeeps(s: Session, o: Outcome)
    requires Inv(s) && CanAnswer(s.loc, o)
    ensures Inv(MachineStep(s, o))
  {
    if s.loc.Head? {
      HeadKeeps(s);
    } else if s.loc.Leaving? {
      LeavingKeeps(s);
    } else {
      match Current(s.loc)
      case WaitingRoom => WaitingRoomKeeps(s, o);
      case InCall => InCallKeeps(s, o);
      case Recording => RecordingKeeps(s, o);
      case Paused =>
        if s.loc.Pausing? {
          PausingKeeps(s);
        } else if s.loc.HoldCancel? || s.loc.HoldCancelled? {
          HoldCancelKeeps(s);
        } else {
          HoldKeeps(s);
        }
      case Resuming => ResumingKeeps(s, o);
      case Cleanup => CleanupKeeps(s);
      case _ =>
    }
  }

  lemma OutsideKeeps(s: Session, e: Event)
    requires Inv(s) && CanStep(s, e) && !e.Tick?
    ensures Inv(Step(s, e))
  {
  }

  lemma InvStep(s: Session, e: Event)
    requires Inv(s) && CanStep(s, e)
    ensures Inv(Step(s, e))
  {
    if e.Tick? {
      MachineKeeps(s, e.outcome);
    } else {
      OutsideKeeps(s, e);
    }
  }

  lemma {:induction false} InvHolds(hasRecorder: bool, es: seq<Event>)
    requires CanRun(Initial(hasRecorder), es)
    ensures Inv(After(Initial(hasRecorder), es))
  {
    if es != [] {
      InvHolds(hasRecorder, es[..|es| - 1]);
      InvStep(After(Initial(hasRecorder), es[..|es| - 1]), es[|es| - 1]);
    }
  }

  predicate Logged(r: Recorder, r': Recorder, c: Call) {
    r.present && r'.calls == r.calls + [c] && r'.phase == Next(r.phase, c)
  }

  /** The recorder's history moves by logged calls only. */
  lemma CallsStep(s: Session, e: Event)
    requires CanStep(s, e)
    ensures var r, r' := s.rec, Step(s, e).rec;
            && r'.present == r.present
            && ((r'.calls == r.calls && r'.phase == r.phase) || exists c :: Logged(r, r', c))
  {
    var r, r' := s.rec, Step(s, e).rec;
    if e.Tick? && r.present {
      match s.loc
      case Starting => assert Logged(r, r', Start);
      case Pausing => assert Logged(r, r', Pause);
      case ResumeCall => assert Logged(r, r', Resume);
      case CleaningUp => assert Logged(r, r', Stop);
      case _ =>
    }
  }

  lemma {:induction false} CallsHold(hasRecorder: bool, es: seq<Event>)
    requires CanRun(Initial(hasRecorder), es)
    ensures var r := After(Initial(hasRecorder), es).rec;
            r.present == hasRecorder && r.phase == PhaseOf(r.calls) && (!hasRecorder ==> r.calls == [])
  {
    if es != [] {
      CallsHold(hasRecorder, es[..|es| - 1]);
      var s, e := After(Initial(hasRecorder), es[..|es| - 1]), es[|es| - 1];
      CallsStep(s, e);
      if c :| Logged(s.rec, Step(s, e).rec, c) {
        PhaseSnoc(s.rec.calls, c);
      }
    }
  }
}

# Meeting bot backend: verified model

A Dafny model of the concurrent core of a meeting-recording service, with proofs about all its runs. The
service creates bots on request, dispatches them to workers over a Redis stream, and each bot joins a
meeting, records it and reports back. Six parts are modelled:

* **The bot session.** `Session` is a transition system whose steps are single accesses to shared state, so
  every interleaving of the state machine with stop, pause and resume requests and with cancellation is one
  of its runs; a stop request is two steps. `SessionTheorems` holds what all runs guarantee, `SessionEndings` how
  and why they end. `Machine` is
  the engine and the nine states as methods over a `MeetingContext` and a `ScreenRecorder`; each method is
  proved to follow `Session` under interference. `Silence` gives the meaning of the timers over any poll
  history, `Speakers` that of the speaker manager, and `Attendance` connects the two.
* **Bot creation.** `Creation` interleaves any number of requests at each statement of the idempotency
  middleware, its table, the creation handler, the job stream and the Redis dedup entries. `CreationBots`,
  `CreationReplays`, `CreationSweeps` and `CreationRetries` hold what never goes wrong, `CreationWorks` what
  does work, `Service` the server's methods,
  proved to follow `Creation` up to what the client is sent, and `Idempotency` the repository and the capturing
  writer they use.
* **Job dispatch.** `Dispatch` has the stream, `DispatchRuns` any number of controllers in one consumer group,
  and `Controller` the loop and the handler of one of them, proved to follow `DispatchRuns`. `Pipeline` joins
  creation and dispatch into one system, from request to worker.
* **Webhook circuit breaker** (`Breaker`), **rate limiter** (`RateLimit`) and **API-key cache** (`KeyCache`,
  `KeyEncoding`), each a transition system of all interleavings and methods proved to follow it.
* **Retry with backoff** (`Retry`) and the **Meet URL normaliser** (`MeetUrl`, `MeetUrlQuirks`).

Network, browser, SQL and Redis answers are nondeterministic; time is a parameter or a clock that never
runs backwards. `dafny verify dfyconfig.toml` checks the project.

## Where a promise fails

* `Machine.Run` logs "forcing cleanup" on a cancelled context but goes straight to Terminated, so Cleanup
  does not run (internal/usecase/bot/machine.go:46-53). `RecorderLeftRunning` says exactly when this leaves
  the recorder's `running` flag set without a Stop, and `WhenSuccessCanBeTrusted` exactly when the success
  report can then mislead. The ffmpeg process itself is started with the same context
  (internal/infra/recorder/recorder.go:93), so cancellation kills it, unfinalised.
* `AllParticipantsLeft` is meant for participants who have left (internal/usecase/bot/states/recording.go:195-198),
  but the speaker manager never forgets a name: `AllParticipantsLeftExactly` says when it is decided,
  `AllLeftMeansNoEvents` that nobody was ever seen then, `AllLeftReached` that it does happen.
* Delays are meant to be capped, and the first one is not (internal/pkg/retry/retry.go:63); they all are exactly
  if the initial delay is within the cap, see `CappedFromTheStart`.
* Replays are meant to be the answer of the first request for the row's 24 hours; a handler that outlives its
  row can answer into another request's row. `SafeSweepExactly` gives the exact condition and
  `UnsafeSweepReached` the runs that fail it.
* A repetition is recognised by its body alone: the hash leaves out method and path
  (internal/api/http/middleware/idempotency.go:50-51), which the repository's comment allows for
  (internal/infra/storage/postgres/idempotency_repo.go:45-46), so two endpoints given the same key and body share
  one row. `SameCommandExactly` says when every replay is of the same command, `SharedRowExample` shows one that
  is not.
* The Meet parser is said to reject other domains (internal/infra/meeting/meet/url_parser.go:55); the code looks
  for the host anywhere in a token. `OtherHostAccepted` and `ForeignLinkAccepted` say exactly which links to
  other hosts are accepted, `ForeignLinkExample` is one.
* Parsing a printed link again is not always the identity: see `ReparseExactly` and `ReparseCanChange`.

Where only a comment differs the model follows the code: the alone-in-meeting check uses the no-one-joined
timeout (internal/usecase/bot/states/recording.go:209); `SenderOptions.MaxRetries` is unused, three attempts
being fixed (internal/infra/webhook/sender.go:85); any answer below 500 that is not a 2xx ends a delivery, not
only a 4xx (internal/infra/webhook/sender.go:119-125); the rate counter lives 65s, not 60s
(internal/api/http/middleware/rate_limit.go:17-18,50).

## Model

| member | source | states |
|---|---|---|
| Session.Step | internal/usecase/bot/machine.go:41-89 | one access of a session: the machine's next read or write, or half a stop request, a pause request or a cancellation; the transition system of all the session theorems |
| Session.LoopStep | internal/usecase/bot/machine.go:45-83 | the engine between two states: a cancelled context goes straight to the end, without Cleanup |
| Session.RecordingStep | internal/usecase/bot/states/recording.go:42-105 | the order of the tests of a poll: cancellation, stop, pause, then the checks |
| Session.PausedStep | internal/usecase/bot/states/paused.go:27-48 | pause the recorder once, then at every poll wait for cancellation, stop or resume, in this order; what this comes to over runs is `SessionEndings.CancelEndsTheRun` and `CancelledPollEndsWithReason` |
| Session.OutsideStep | internal/usecase/bot/machine.go:109-125 | what other goroutines can do; a stop request is a read of the current state and a later write that trusts it |
| Session.InvHolds | internal/usecase/bot/machine.go:41-89 | in every reachable session, whatever interleaves: the recorder's phase fits the machine's place, `running` is what the calls say, recording was entered only with a started recorder, an early end reason implies the error flag, and the executed states are within budget |
| Session.CallsHold | internal/usecase/bot/states/registry.go:27-58 | the recorder's history changes only by the four calls the real states make, and its phase is that of its history |
| Session.FinishedHistory | internal/usecase/bot/machine.go:41-89 | a history the protocol automaton accepts is Stop, or Start, any number of Pause Resume pairs, an optional Pause, and Stop |
| Session.RunConcat | internal/usecase/bot/machine.go:41-89 | runs compose: continuing a run is running on from where it ended |
| SessionTheorems.RecorderProtocol | internal/usecase/bot/states/cleanup.go:31-37 | every finished run, under any stop, pause and resume requests, has a legal recorder history, Stop being its last call, if and only if it was not forced to its end by cancellation, and then the recorder is not running |
| SessionTheorems.RecorderLeftRunning | internal/usecase/bot/machine.go:46-53 | for all finished runs: the recorder's `running` flag is left set exactly if the run was forced to its end by cancellation after a successful start, and Stop was called exactly if the run was not forced |
| SessionTheorems.CancelledRunLeavesRecorderRunning | internal/usecase/bot/machine.go:46-53 | a concrete cancelled run that ends with the `running` flag set and no Stop, so cleanup is not guaranteed under cancellation |
| SessionTheorems.EntryConditions | internal/usecase/bot/states/in_call.go:48-63 | Error is entered only with the error flag set, Cleanup only with an end reason, Recording only with the recorder running or absent |
| SessionTheorems.NeverCleared | internal/usecase/bot/types.go:164-201 | from any state and over any run the error flag, a set end reason and cancellation are never undone |
| SessionTheorems.SuccessfulMeansRecorded | internal/usecase/bot/machine.go:127-138 | at every moment of an uncancelled run with racing stop requests, a normal end reason without error means recording was entered with a started recorder |
| SessionTheorems.SuccessReadApart | internal/usecase/bot/machine.go:131-138 | after an uncancelled run the answer is right although flag and reason are read separately and requests still arrive in between |
| SessionTheorems.WhenSuccessCanBeTrusted | internal/usecase/bot/machine.go:45-53 | for every run about to end, cancelled or not: the success report can be trusted from then on, whatever requests still arrive, if and only if it is not the case that cancellation caught the machine in a state up to InCall with no error set |
| SessionTheorems.EndOfRun | internal/usecase/bot/machine.go:45-53 | every finished run has ended at the top of the loop, at Terminated or cancelled, and only requests came after |
| SessionTheorems.TrustOnceOver | internal/usecase/bot/machine.go:131-138 | for any finished run: the report can be trusted against requests still arriving if and only if recording was entered or the error flag is set |
| SessionTheorems.CancelledRunReportsSuccess | internal/usecase/bot/machine.go:109-138 | a concrete run, cancelled and then stopped, that is reported successful and never recorded |
| SessionTheorems.SuccessExactly | internal/usecase/bot/machine.go:127-138 | a run that was not forced to its end is reported successful if and only if the error flag is not set, and then it is recorded |
| SessionTheorems.CalmRunSucceeds | internal/usecase/bot/machine.go:127-138 | a finished run in which nothing fails and nobody stops the bot before recording is recorded and reported successful |
| SessionTheorems.StopEndsTheRun | internal/usecase/bot/types.go:195-201 | from any reachable state with an end reason the machine makes at most 14 more accesses, whatever the others do |
| SessionTheorems.NeverStuck | internal/usecase/bot/machine.go:45-83 | a session that is not over always has a next machine access |
| SessionTheorems.ExecutedStates | internal/usecase/bot/machine.go:45-83 | every run executes at most 3P + 5 states, P being the number of changes of the pause flag from false to true |
| SessionTheorems.ExecutedStatesReached | internal/usecase/bot/states/paused.go:35-75 | for every P some run executes exactly 3P + 5 states, so the bound is exact |
| SessionEndings.CancelEndsTheRun | internal/usecase/bot/machine.go:45-53 | from every reachable session whose context is cancelled the machine makes at most 7 more accesses, whatever the others do, paused or not |
| SessionEndings.CancelledPollEndsWithReason | internal/usecase/bot/states/paused.go:36-39 | a session cancelled by the time a poll of Recording or Paused begins ends with an end reason, whatever the others do |
| SessionEndings.ReasonsAreCaused | internal/usecase/bot/types.go:164-205 | in every run the end reason is one the outside world reported, or ExitBeforeRecord after a stop request, or ApiRequest after a stop request or cancellation |
| SessionEndings.StopRequest | internal/usecase/bot/machine.go:109-125 | a stop request left undisturbed, in any session: before recording it means ExitBeforeRecord with the error flag, from Recording on ApiRequest and no change of the flag |
| SessionEndings.StoppedBeforeRecording | internal/usecase/bot/machine.go:116-120 | a run in which nothing failed and that ended normally without recording was stopped: it has the error flag and ExitBeforeRecord, or ApiRequest if a stop request read a later state |
| SessionEndings.StoppedInTime | internal/usecase/bot/states/in_call.go:28-36 | a bot with an end reason before InCall has looked for one never records and never starts the recorder, whatever the others do |
| SessionEndings.FailuresAreReported | internal/usecase/bot/states/waiting_room.go:54-68 | a failed launch or a refused join ends its state with just that reason, the error flag, and Error next |
| SessionEndings.FailedJoin | internal/usecase/bot/states/waiting_room.go:54-68 | a join that fails leads to Cleanup, with nothing reported, if the bot was stopped meanwhile, and otherwise is reported |
| SessionEndings.RecorderFailuresAreReported | internal/usecase/bot/states/in_call.go:48-52 | a recorder that cannot be started or resumed is an internal error, and Error is next |
| SessionEndings.RecordingEndsWith | internal/usecase/bot/states/recording.go:54-102 | what ends a recording from within is its reason, a normal one, the error flag is not touched, and Cleanup is next |
| Silence.SilentSinceMeaning | internal/usecase/bot/states/recording.go:115-148 | over any poll history the silence timer is set exactly while the last poll is silent and someone has joined, to the time of the poll that began that silence |
| Silence.SilenceTimer | internal/usecase/bot/states/recording.go:141-147 | the timer shows x if and only if the silence reaching up to the last poll began at a poll taken at x |
| Silence.JoinedMeaning | internal/usecase/bot/states/recording.go:123-131 | FirstUserJoined holds exactly if the join callback fired or some poll saw a name other than the bot's |
| Silence.LastSpeakerMeaning | internal/usecase/bot/states/recording.go:141-143 | over any poll history LastSpeakerTime is that of the latest poll that heard somebody, and untouched if none did |
| Silence.CountIsAny | internal/usecase/bot/states/recording.go:122-140 | the counting loop and the searching loop agree on whether there is another name |
| Silence.NoSpeakerExactly | internal/usecase/bot/states/recording.go:155-175 | NoSpeaker is decided if and only if the silence timeout is configured, 30 seconds have passed since the start, and the silence since its onset has lasted the timeout in seconds |
| Silence.NoSpeakerMeansSilence | internal/usecase/bot/states/recording.go:155-175 | with polls in time order, NoSpeaker means that no poll of the last SilenceTimeout seconds heard anybody |
| Silence.NoAttendeesExactly | internal/usecase/bot/states/recording.go:181-193 | NoAttendees is decided if and only if its timeout is configured and over and nobody has joined |
| Silence.AllParticipantsLeftExactly | internal/usecase/bot/states/recording.go:199-220 | AllParticipantsLeft is decided if and only if the last poll lists nobody else, 30 seconds have passed since the start, and the silence has lasted the no-one-joined timeout, or 60 seconds if none is configured, but not the silence timeout |
| Silence.NoAttendeesNeedsNoCallback | internal/usecase/bot/states/recording.go:181-193 | NoAttendees is decided only if the join callback never fired and no poll ever saw another name |
| Silence.AllParticipantsLeftMeansNobodySeen | internal/usecase/bot/states/recording.go:199-220 | with a speaker manager, which never forgets a name, AllParticipantsLeft is decided only in sessions where nobody but the bot was ever seen |
| Attendance.NeverForgets | internal/infra/speaker/manager.go:48-58 | over any run the names known to the speaker manager only grow |
| Attendance.AttendeesNeverDecrease | internal/usecase/bot/states/recording.go:119-128 | fed from the speaker manager, the attendee count is that of the names ever seen other than the bot's and the empty one, and never goes down from poll to poll |
| Attendance.AllLeftMeansNoEvents | internal/usecase/bot/states/recording.go:199-220 | fed from the speaker manager, AllParticipantsLeft is decided only if no poll came after any event about anybody but the bot |
| Attendance.AllLeftReached | internal/usecase/bot/states/recording.go:199-220 | and it is decided: a concrete session in which the join callback fired and the speaker manager never had an event |
| Attendance.NoSpeakerMeansNobodySpeaks | internal/usecase/bot/states/recording.go:155-175 | fed from the speaker manager, NoSpeaker means that at every poll of the last SilenceTimeout seconds the latest event about anybody else, if any, was that they fell silent |
| MeetingContexts.Toggle | internal/usecase/bot/types.go:207-218 | the effect of SetPaused on the pause fields |
| MeetingContexts.MeetingContext.SetPaused | internal/usecase/bot/types.go:207-218 | the setter does what the replayed specification says and returns the previous flag |
| MeetingContexts.MeetingContext.SetError | internal/usecase/bot/types.go:180-186 | sets reason and flag together |
| MeetingContexts.CountOthers | internal/usecase/bot/states/recording.go:121-128 | the counting loop counts the names that are neither empty nor the bot's |
| MeetingContexts.AnyActive | internal/usecase/bot/states/recording.go:134-140 | the searching loop finds such a name if and only if there is one |
| MeetingContexts.UpdateAttendees | internal/usecase/bot/states/recording.go:115-148 | one poll's update in place of the four tracking fields is exactly one observation of the history theorems |
| MeetingContexts.PauseAccounting | internal/usecase/bot/types.go:207-218 | for every sequence of requests, repeats included, the recorded total plus the open pause is the total time the flag has been set |
| MeetingContexts.TotalIsBounded | internal/usecase/bot/types.go:207-218 | with non-decreasing times the total never shrinks and never exceeds the time since the first request |
| MeetingContexts.PausesAccountedFor | internal/usecase/bot/types.go:207-218 | so of a context: its total plus the pause still open is the time its calls have kept it paused |
| Recorders.ScreenRecorder.Start | internal/infra/recorder/recorder.go:72-102 | starts exactly if it is not running and the process could be spawned |
| Recorders.ScreenRecorder.Stop | internal/infra/recorder/recorder.go:105-130 | never fails and leaves the recorder not running |
| Recorders.ScreenRecorder.Pause | internal/infra/recorder/recorder.go:133-140 | fails only if running and the signal is not delivered; the call is in the history |
| Recorders.ScreenRecorder.Resume | internal/infra/recorder/recorder.go:143-150 | likewise |
| Machines.PollsBounded | internal/usecase/bot/states/recording.go:14-16 | a poll that passes the 4h guard is one of the first 7200 |
| Machines.LogGrows | internal/usecase/bot/states/recording.go:84-102 | if the polls so far found no reason to leave, a reason found at the next one is the one decided |
| Machines.Machine.RequestStopRead | internal/usecase/bot/machine.go:112-115 | first half of a stop request, as a step of the session |
| Machines.Machine.RequestStopWrite | internal/usecase/bot/machine.go:116-124 | second half: error with ExitBeforeRecord or end reason ApiRequest, by what was read |
| Machines.Machine.PauseOrResume | internal/app/botworker.go:236-303 | pause and resume as a step of the session, at any time |
| Machines.Machine.Interfere | internal/app/botworker.go:205-319 | any number of accesses of other goroutines leave the machine's place and the recorder alone and clear nothing |
| Machines.Machine.ExecuteInitialization | internal/usecase/bot/states/initialization.go:34-75 | runs to the state it returns, leaving for Error only with the error set |
| Machines.Machine.ExecuteWaitingRoom | internal/usecase/bot/states/waiting_room.go:23-76 | classifies the outcome of the join: stop request, timeout, refusal; the join callback may have fired whatever the outcome |
| Machines.Machine.ExecuteInCall | internal/usecase/bot/states/in_call.go:24-64 | early stop, or the only recorder start, at which the start of the recording is noted |
| Machines.Machine.ExecuteRecording | internal/usecase/bot/states/recording.go:36-106 | the polling loop ends after at most 7201 polls, with the first if it begins cancelled or stopped; every poll that reaches the timeout checks takes one speaker snapshot and judges all taken so far, in time order; every poll but the last found no reason to leave; the recording ends with NoSpeaker, NoAttendees or AllParticipantsLeft if and only if that is what the checks gave at the last poll; with RecordingTimeout only 4 * 3600 seconds or more after its start, with BotRemoved only when the page has gone, with ApiRequest only when cancelled; and NoSpeaker means that no poll of the last SilenceTimeout heard anybody |
| Machines.NoSpeakerEnding | internal/usecase/bot/states/recording.go:84-88 | what ending with NoSpeaker says about the samples taken, for any log of polls that ends so |
| Machines.Machine.PollOnce | internal/usecase/bot/states/recording.go:42-102 | one poll, its tests in order and others acting in between: it goes on exactly if it passed all checks, and not after 4 * 3600 seconds; it leaves for Cleanup with ApiRequest if and only if it began cancelled, and for Cleanup if it began stopped; it gives RecordingTimeout only 4 * 3600 seconds or more after the start; a poll that did not reach the timeout checks leaves with none of their three reasons; the reason it leaves with is the end reason |
| Machines.Machine.Survey | internal/usecase/bot/states/recording.go:54-102 | the checks of a poll that was neither cancelled, stopped nor paused: removal, the 4 hours, written as a number, then the three timeouts over all snapshots so far |
| Machines.Machine.PollAndLog | internal/usecase/bot/states/recording.go:42-105 | poll, log and the two seconds of sleep unless cancelled; a poll that goes on is one of the first 7200 |
| Machines.Machine.ExecutePaused | internal/usecase/bot/states/paused.go:23-49 | the paused loop refines the session's steps, under any interference; begun cancelled it leaves for Cleanup with ApiRequest, begun stopped for Cleanup, both at its first poll; going on for n polls takes n half seconds at least |
| Machines.Machine.HoldOnce | internal/usecase/bot/states/paused.go:35-48 | one poll of a pause: one that begins cancelled leaves for Cleanup with ApiRequest, one that begins stopped for Cleanup, and none for anything but Cleanup or Resuming |
| Machines.Machine.ExecuteResuming | internal/usecase/bot/states/paused.go:60-76 | resumes into Recording, or fails into Error |
| Machines.Machine.ExecuteError | internal/usecase/bot/states/error.go:22-43 | on to Cleanup |
| Machines.Machine.ExecuteCleanup | internal/usecase/bot/states/cleanup.go:24-73 | leaves the recorder stopped |
| Machines.Machine.Execute | internal/usecase/bot/states/registry.go:27-58 | the current state's Execute, wherever it leads, is a run of the session |
| Machines.Machine.Run | internal/usecase/bot/machine.go:41-89 | the engine follows the transition system with others acting between any two accesses to shared state, also between the return of a state and the assignment of the next; begun cancelled it finishes at once, begun with an end reason within six states, a pause included; when it finishes, the calls the recorder received are a legal history and it is stopped exactly if the run was not forced to its end, as without cancellation it is not |
| Machines.Machine.PausesAddUp | internal/usecase/bot/types.go:207-218 | at any time of a session, the total pause duration plus the open pause is the time the requests it received have kept it paused |
| Machines.Machine.WasRecordingSuccessful | internal/usecase/bot/machine.go:131-138 | two reads with others acting in between; after an uncancelled run yes means a recording was made |
| Speakers.Manager.Push | internal/infra/speaker/manager.go:48-69 | updates the two sets and offers the event to every subscriber, as a step of the transition system; nothing happens for an empty name |
| Speakers.Manager.Subscribe | internal/infra/speaker/manager.go:75-96 | registers a new empty channel of the given size, or of 64 |
| Speakers.Manager.Unsubscribe | internal/infra/speaker/manager.go:85-95 | removes that channel, keeps the order of the others, and closes it |
| Speakers.Manager.Receive | internal/infra/speaker/manager.go:75-79 | the consumer gets what has been waiting longest in its channel |
| Speakers.Manager.StreamOf | internal/infra/speaker/manager.go:62-68 | for the manager in any state its methods lead to: what a consumer received and has waiting is exactly, and in order, what was pushed while it was subscribed less what met a full buffer |
| Speakers.Manager.SnapshotNames | internal/infra/speaker/manager.go:99-126 | lists each set exactly, without repetition |
| Speakers.NamesMeaning | internal/infra/speaker/manager.go:48-58 | over all runs a name is active if and only if its latest event is active, and known if and only if it had an event |
| Speakers.ActiveAreKnown | internal/infra/speaker/manager.go:48-58 | active names are always among the known ones |
| Speakers.RegisteredMeaning | internal/infra/speaker/manager.go:81-93 | a channel is registered if and only if it was handed out and its own cancel was not called; others' calls do not matter |
| Speakers.StreamMeaning | internal/infra/speaker/manager.go:59-68 | over all runs a subscriber's stream is exactly, and in order, the events sent while it was registered less those that met its buffer full |
| Speakers.KeptMeaning | internal/infra/speaker/manager.go:59-68 | these are an in-order subsequence of the events sent, and kept plus lost is sent |
| Speakers.LosslessWhenNeverFull | internal/infra/speaker/manager.go:62-68 | nothing is missing if and only if no event met a full buffer |
| Breakers.Sender.Send | internal/infra/webhook/sender.go:69-129 | with other deliveries using the breaker between any two accesses: turned away, without a request and with nothing recorded, if and only if by the events so far there are as many failures in a row as the threshold and the latest is less than the reset timeout ago; otherwise what it meets decides result and number of requests, and exactly the failures it meets are recorded, each with its time, and then its success |
| Breakers.Sender.Deliver | internal/infra/webhook/sender.go:84-129 | a delivery that was let in: what it records of the attempts it meets |
| Breakers.Sender.TryOnce | internal/infra/webhook/sender.go:84-127 | one attempt and what is recorded of it |
| Breakers.BreakerMeaning | internal/infra/webhook/sender.go:131-163 | over all runs and from the events alone: the count is the number of failures in a row, the stamp the time of the latest failure, and the breaker open if and only if the row has reached the threshold; a success ends the row, and so does a delivery that comes when the reset timeout has passed |
| Breakers.TurnedAwayExactly | internal/infra/webhook/sender.go:69-77 | over all runs a delivery that comes may make no attempt if and only if there have been as many failures in a row as the threshold and the latest is less than the reset timeout ago; else it may make three |
| Breakers.Sender.Attempt | internal/infra/webhook/sender.go:84-128 | the retry loop, as a run of the transition system |
| Breakers.Sender.IsCircuitOpen | internal/infra/webhook/sender.go:131-145 | asks, and closes an open breaker whose reset timeout has passed |
| Breakers.Sender.RecordFailure | internal/infra/webhook/sender.go:147-156 | counts, stamps, and opens at the threshold; `BreakerMeaning` says what count and stamp mean |
| Breakers.Sender.RecordSuccess | internal/infra/webhook/sender.go:158-163 | resets count and breaker |
| Breakers.FateMeaning | internal/infra/webhook/sender.go:84-128 | at most three requests, a further one only after transport errors and 5xx answers; delivered if and only if the one after the failures is answered by a 2xx; exhausted if and only if all three fail |
| Breakers.FailuresBounded | internal/infra/webhook/sender.go:131-163 | with at most n deliveries at once, in every reachable state the breaker is open if and only if the threshold is reached, and failures never exceed the threshold minus one plus 3n |
| Breakers.BoundReached | internal/infra/webhook/sender.go:84-163 | for every threshold and n some run reaches that bound |
| Creation.Step | internal/api/http/middleware/idempotency.go:50-86 | one access of one of any number of requests: the table statements, the handler's accesses, crashes, sweeps, Redis expiry; a store may also carry out a statement and report an error |
| Creation.BeginStep | internal/infra/storage/postgres/idempotency_repo.go:52-67 | INSERT of the idempotency row decides who comes first |
| Creation.SelectStep | internal/api/http/middleware/idempotency.go:58-78 | what a later request is answered: conflict, too early, or replay |
| Creation.InsertStep | internal/infra/storage/postgres/bot_repo_v2.go:67-109 | a bot is inserted only if neither unique index is violated |
| Creation.SameDedup | migrations/008_extend_bots_v2.up.sql:34-41 | the partial unique index on dedup hashes; SameKey beside it is the one on idempotency keys |
| Creation.DedupKeyInjective | internal/api/http/v2/bots.go:475-477 | hashes being of one length, the Redis name determines tenant and hash |
| CreationBots.InvHolds | internal/api/http/v2/bots.go:126-225 | in every reachable system: both unique indexes hold, each bot is what its creator asked for and was enqueued at most once, every dedup entry names a bot that claims exactly its hash |
| CreationBots.OneBotPerKey | migrations/008_extend_bots_v2.up.sql:34-36 | over all interleavings, sweeps and expiries: at most one bot and one job per tenant and idempotency key |
| CreationBots.OneBotPerDedup | migrations/008_extend_bots_v2.up.sql:39-41 | likewise per tenant and dedup hash among bots that do not allow multiple |
| CreationBots.CreatedOnce | internal/api/http/v2/bots.go:183-187 | two requests told that they created a bot under one key are the same request |
| CreationBots.DedupHitIsExact | internal/api/http/v2/bots.go:480-491 | a request answered from Redis gets the one bot of its tenant that claims its hash, and every such bot is that one |
| CreationBots.SecondInsertFails | internal/api/http/v2/bots.go:183-187 | the database as backstop: an insert for a taken key or hash is answered 500 and adds neither bot nor job |
| CreationWorks.DuplicateIsAnswered | internal/api/http/v2/bots.go:131-139 | duplicates are found: once a request that does not allow multiple bots was told Created(b), its SET having gone through, and as long as Redis keeps that entry, whatever else happens, every such request of the tenant with that dedup hash whose GET is answered is told Existing(b) |
| CreationWorks.DuplicateRequest | internal/api/http/v2/bots.go:131-139 | a duplicate under a fresh key, arriving while the entry is there, is told Existing(b) at its third event, and adds neither bot nor job |
| CreationWorks.UnreadEntryIsNone | internal/api/http/v2/bots.go:480-491 | a dedup entry that cannot be read counts as none: the request goes on to the INSERT and nothing has changed |
| CreationWorks.EntryHolds | internal/api/http/v2/bots.go:223-225 | over any continuation a dedup entry goes on naming the same bot unless Redis drops it |
| CreationWorks.FreshRequestCreates | internal/api/http/v2/bots.go:100-225 | from every reachable system, a request with a fresh key and no bot or entry in its way, served undisturbed, is told Created; the bot is as asked for, its job is in the stream unless it is scheduled, its dedup entry is set unless it allows multiple, and a 201 is stored under its key for 86400 seconds |
| CreationWorks.ServerErrorMeansTaken | internal/api/http/v2/bots.go:183-220 | in every run a request is told 500 only if a store failed it, or a bot of its tenant has its key, or its dedup hash without either allowing multiple |
| CreationWorks.FailedMeansTrouble | internal/api/http/middleware/idempotency.go:50-56 | in every run the middleware gives up on a request only if a store failed it or rows were swept |
| CreationReplays.InvHolds | internal/infra/storage/postgres/idempotency_repo.go:47-91 | in every reachable system each row belongs to a request that came first with that tenant, key and body, and so does whatever others were told from it |
| CreationReplays.AnswersMatchTheBody | internal/api/http/middleware/idempotency.go:58-71 | with no assumption on sweeps: whoever is told of a conflict asked with another body than the request it is told of, whoever is replayed to or told that it is too early asked with the same one |
| CreationReplays.RowsAreFixed | internal/infra/storage/postgres/idempotency_repo.go:95-106 | while a row lives, its body hash, expiry and owner never change |
| CreationReplays.SafeHolds | internal/api/http/middleware/idempotency.go:50-86 | if no sweep takes the row of a handler at work: each such handler has its row, unanswered, and every stored response is its owner's answer |
| CreationReplays.ReplayIsTheAnswer | internal/api/http/middleware/idempotency.go:73-78 | in such runs a replay has the status and the JSONB-normalised body of the answer that the first request with this key and body gave |
| CreationReplays.OneHandlerPerKey | internal/api/http/middleware/idempotency.go:81-84 | in such runs at most one handler is at work per tenant and key |
| CreationReplays.ResponseIsFinal | internal/infra/storage/postgres/idempotency_repo.go:95-106 | in such runs a row's response is written at most once |
| CreationSweeps.SafeSweepExactly | internal/infra/storage/postgres/idempotency_repo.go:109-115 | a sweep is followed by faithful replays only, in all continuations up to the next sweep, if and only if no expired row belongs to a handler at work |
| CreationSweeps.UnsafeSweepReached | internal/infra/storage/postgres/idempotency_repo.go:109-115 | the condition can fail: for any request with a key, a handler at work for more than a day |
| CreationSweeps.RetryIsAnswered | internal/api/http/middleware/idempotency.go:58-78 | if nobody else acts, a repeated request whose row lives is over after its arrival and two accesses: 409 for another body, 409 while in flight, else the first answer |
| CreationRetries.RetryUnderAnySchedule | internal/api/http/middleware/idempotency.go:58-78 | whatever others do until the row expires, a request that finds a row of its key is over after two accesses of its own; unless in these events a store failed it or it crashed it is told 409 for another body, 409 or a replay for the same one; and in runs with safe sweeps a replay is the answer of the row's owner |
| CreationRetries.SameCommandExactly | internal/api/http/middleware/idempotency.go:50-51 | for any set of requests that clients may send: in all runs with safe sweeps every replay goes back to a request for the same command, if and only if no two of them share tenant, key and body hash and ask for different commands |
| CreationRetries.SharedRowExample | internal/api/http/middleware/idempotency.go:50-51 | two concrete requests that share a row and ask for different commands, and a run in which one is told the other's answer |
| Services.Service.Reserve | internal/infra/storage/postgres/idempotency_repo.go:52-67 | BeginRequest's INSERT on the shared table, with database errors |
| Services.Service.LookUp | internal/infra/storage/postgres/idempotency_repo.go:69-91 | BeginRequest's SELECT; a replay is what the row reports |
| Services.Service.InsertBot | internal/infra/storage/postgres/bot_repo_v2.go:67-109 | a returned id means that the row was appended as asked and clashed with none |
| Services.Service.HandleCreate | internal/api/http/v2/bots.go:100-225 | dedup check, insert, enqueue, lock, in this order and with others acting between any two, is a run of the transition system; 400 exactly for an invalid body |
| Services.Service.Middleware | internal/api/http/middleware/idempotency.go:27-88 | handler at once without a key; with one only for the request that comes first; the client is sent what the request ends with |
| Services.Service.RunCaptured | internal/api/http/middleware/idempotency.go:81-86 | what the handler writes goes to the client and, as captured, into the row |
| Services.Service.Serve | internal/api/http/middleware/idempotency.go:27-88 | every request comes to an end; the status is 201 for a bot created, 200 for one that exists, 400 exactly for an invalid body, 500 otherwise, 409 for a conflict or too early, and that of the row for a replay; a bot reported as created was made from this very request, one reported as existing claims its hash, a conflict is over another body; and while stores do not fail it, 500 means that its key or dedup hash is taken, or rows were swept |
| Idempotency.IdempotencyRepo.TryInsert | internal/infra/storage/postgres/idempotency_repo.go:52-67 | the INSERT: a row comes back exactly if there was none, and only then is one added |
| Idempotency.IdempotencyRepo.Find | internal/infra/storage/postgres/idempotency_repo.go:69-91 | the SELECT: what the row says, status 0 without a response and no body for null; nothing if it has gone meanwhile |
| Idempotency.IdempotencyRepo.CompleteRequest | internal/infra/storage/postgres/idempotency_repo.go:95-106 | stores status and normalised body, null for an empty one; fails exactly if the body is not JSON |
| Idempotency.IdempotencyRepo.SweepExpired | internal/infra/storage/postgres/idempotency_repo.go:109-115 | keeps exactly the rows that are not past their expiry |
| Idempotency.ReportAfterComplete | internal/infra/storage/postgres/idempotency_repo.go:69-106 | storing then reporting a response gives back its status and normalised body, none for null |
| Idempotency.RowLivesADay | internal/infra/storage/postgres/idempotency_repo.go:109-115 | a row outlives the sweeps up to 86400 seconds after its INSERT and none later |
| Idempotency.CapturingWriter.WriteHeader | internal/api/http/middleware/idempotency.go:100-104 | the captured status is the one the client got if and only if this is the first call or repeats the status sent |
| Idempotency.CapturingWriter.Write | internal/api/http/middleware/idempotency.go:106-112 | the captured body stays the one the client got, with status 200 by default |
| Idempotency.CapturingWriter.Respond | internal/api/http/middleware/idempotency.go:93-112 | a handler's status and body are captured as they go out |
| Dispatch.GroupKeeps | internal/infra/queue/redis_stream.go:136-183 | adding, delivering and acknowledging keep every message in exactly one of undelivered, pending, acknowledged |
| Dispatch.JobStream.Enqueue | internal/infra/queue/redis_stream.go:57-81 | appends the job and returns its position |
| Dispatch.JobStream.ReadGroup | internal/infra/queue/redis_stream.go:143-149 | the next message never delivered becomes pending |
| Dispatch.JobStream.Ack | internal/infra/queue/redis_stream.go:174-183 | moves a pending message to the acknowledged ones |
| Controllers.Controller.ReadOne | internal/infra/queue/redis_stream.go:136-171 | with others acting: either the loop holds the next message together with the well-formed job it carries, and this exactly if one waits and the call is answered, or it has nothing and is about to return its token; every path, malformed messages and lost replies included, is a run of the transition system |
| Controllers.Controller.Run | internal/app/controller.go:124-170 | the loop follows the transition system with producers, other controllers and its own handlers acting at every access; live handlers never exceed MaxParallel, and on every exit the tokens left are those of live handlers |
| Controllers.Controller.TakeJob | internal/app/controller.go:146-168 | with a token: start a handler that takes it over, or give it back; the loop ends only after a failed read |
| Controllers.Controller.HandleJob | internal/app/controller.go:176-229 | the handler comes to its end and gives its token back; after a clean exit the message is acknowledged if the acknowledgement works, and after any other it stays pending |
| DispatchRuns.InvHolds | internal/app/controller.go:124-229 | any number of controllers in one group, all interleavings: the partition, the token count, one owner per message, workers and acknowledgements earned |
| DispatchRuns.NothingIsLost | internal/infra/queue/redis_stream.go:136-183 | each message added is undelivered, pending or acknowledged, and only one of these |
| DispatchRuns.AckedIsEarned | internal/app/controller.go:172-229 | a message starts at most one worker, after delivery; acknowledged means malformed or a clean exit; after an unclean exit it stays pending |
| DispatchRuns.CleanExitIsAcked | internal/app/controller.go:222-228 | a clean exit whose acknowledgement goes through is acknowledged and frees one slot |
| DispatchRuns.FailedExitStaysPending | internal/app/controller.go:211-220 | after any other exit the message is pending and the slot free |
| DispatchRuns.DropIsAcked | internal/infra/queue/redis_stream.go:150-171 | a message dropped as malformed is malformed, and acknowledged if the acknowledgement goes through, without a worker |
| DispatchRuns.JobIsDone | internal/app/controller.go:124-229 | from every reachable system: a job that waits, taken by a controller with a slot to spare, is read, worked on once and acknowledged in five events, and the slot is free again |
| DispatchRuns.MalformedIsDropped | internal/infra/queue/redis_stream.go:150-171 | likewise a malformed message is read and acknowledged in four, and starts no worker |
| DispatchRuns.OneHandlerPerMessage | internal/infra/queue/redis_stream.go:143-149 | no two controllers handle the same message |
| DispatchRuns.SlotsRespected | internal/app/controller.go:134-169 | live handlers never exceed the slots, a message is read only with a slot to spare, and a controller out of its loop holds the tokens of its live handlers |
| DispatchRuns.DeliveredInOrder | internal/infra/queue/redis_stream.go:143-149 | whoever reads, messages are delivered in the order they were added, each once |
| Pipeline.ApiPart | internal/api/http/v2/bots.go:209-220 | creation and dispatch as one system: what the API sees of any run is a run of bot creation |
| Pipeline.WorkPart | internal/app/controller.go:146-168 | and what the controllers see of it is a run of dispatch, in which the API's jobs are produced |
| Pipeline.OneMessagePerBot | internal/api/http/v2/bots.go:209-220 | a bot's job is in the stream at most once |
| Pipeline.OneWorkerPerKey | internal/app/controller.go:165-168 | from request to worker, over all interleavings: the jobs under one tenant and idempotency key, or one tenant and dedup hash, are one message, and it starts at most one worker |
| Pipeline.WorkersAreAskedFor | internal/app/controller.go:165-168 | every API message carries the job of a bot, and that bot is what its creator asked for |
| RateLimits.Limiter.Handle | internal/api/http/middleware/rate_limit.go:25-66 | one request, with others using the counters between any two accesses: let through unchecked if and only if there is no limit, or the INCR is not answered or comes later than 200 ms; else admitted exactly if it is among the first `limit` requests of its minute, with the limit less its number remaining, or rejected with the seconds to the next minute of the clock |
| RateLimits.Limiter.Increment | internal/api/http/middleware/rate_limit.go:39-46 | the INCR answers the number of requests of this window so far, as a step of the transition system |
| RateLimits.Limiter.CountRequest | internal/api/http/middleware/rate_limit.go:39-51 | INCR, and the EXPIRE of whoever was first: its number in the window, and if that is one and the EXPIRE works, the counter has its expiry |
| RateLimits.CounterLives | internal/api/http/middleware/rate_limit.go:17-18 | a counter given its expiry goes on counting for 65 seconds and then starts anew |
| RateLimits.RetryAfterMeaning | internal/api/http/middleware/rate_limit.go:54-55 | the hint is in 1 to 60 and points at the start of the next minute window |
| RateLimits.ExactlyTheLimit | internal/api/http/middleware/rate_limit.go:33-65 | over all interleavings, of n requests in a minute window exactly min(n, limit) are admitted, the 65s expiry outliving the window and the 200ms call bound |
| RateLimits.AtMostTwiceTheLimit | internal/api/http/middleware/rate_limit.go:33-65 | any span of 60 seconds admits at most twice the limit |
| RateLimits.TwiceTheLimitReached | internal/api/http/middleware/rate_limit.go:33-65 | for every limit some run admits exactly twice the limit within a minute |
| KeyCache.Resolver.Resolve | internal/api/http/middleware/auth.go:95-131 | with lookups, stores, revocations and expiry by others between any two accesses: whoever is let through with a key gets its row, or what the cache makes of it, and not beyond the staleness bound; nobody is turned away whose key is neither revoked nor expired when the call ends; and if the cache answers it was read from or filled |
| KeyCache.Resolver.Get | internal/api/http/middleware/auth.go:99-115 | a hit is an entry that lives and decodes |
| KeyCache.Resolver.Find | internal/infra/storage/postgres/api_key_repo.go:101-129 | the row of the key with this digest, if it is neither revoked nor expired |
| KeyCache.Resolver.Put | internal/api/http/middleware/auth.go:124-129 | the entry holds the encoded row and lives five minutes from now |
| KeyCache.Resolver.FromTable | internal/api/http/middleware/auth.go:117-130 | after a miss: the row that the lookup found valid, within the staleness bound, and a row whenever the key is neither revoked nor expired at the end |
| KeyCache.Resolver.StoreAndAdmit | internal/api/http/middleware/auth.go:117-131 | what was found is stored, if the cache answers, and its bearer let in, within the gap |
| KeyCache.Resolver.Revoke | internal/infra/storage/postgres/api_key_repo.go:143-153 | by id: sets the time of revocation of exactly the rows with that id and none yet, and reports whether there was one |
| KeyCache.HitReadsBack | internal/api/http/middleware/auth.go:99-128 | a hit returns the row that was cached if and only if the entry lives, no field holds a pipe and the rate is not negative |
| KeyCache.AcceptsAreFresh | internal/api/http/middleware/auth.go:95-131 | over all interleavings each accepted request goes back to a lookup that found the key valid, less than 300 seconds plus the gap earlier; so a revoked or expired key is rejected from that bound on |
| KeyCache.StalenessReached | internal/api/http/middleware/auth.go:124-129 | a request can still be accepted in the last second before that bound |
| KeyEncoding.FormatInt32 | internal/api/http/middleware/auth.go:147-159 | the loop over the 12-byte buffer stays inside it and writes the decimal digits |
| KeyEncoding.ParseInt32 | internal/api/http/middleware/auth.go:135-145 | 32-bit wrap-around arithmetic digit by digit, an error for any other character |
| KeyEncoding.ParseDoesNotWrap | internal/api/http/middleware/auth.go:135-145 | a digit string whose value fits 32 bits is parsed to that value, no prefix wrapping |
| KeyEncoding.DigitsMeaning | internal/api/http/middleware/auth.go:147-159 | the formatted digits denote the number |
| KeyEncoding.NumberRoundTrip | internal/api/http/middleware/auth.go:135-159 | formatting then parsing returns the number if and only if it is not negative; negative ones come back as 0 |
| KeyEncoding.RoundTrip | internal/api/http/middleware/auth.go:101-127 | a cached row decodes to itself if and only if id, tenant and prefix hold no pipe and the rate is not negative |
| Retry.Do | internal/pkg/retry/retry.go:48-88 | positive options are used as given, the others being 3 attempts, 1 s, 30 s and factor 2; between one and MaxAttempts calls, each but the last having failed, retryably and not interrupted; nil if and only if the last call succeeded, its error otherwise; the delays slept are the specified ones |
| Retry.DelayClosedForm | internal/pkg/retry/retry.go:80-85 | with a whole multiplier m, delay k is min(Initial m^(k-1), Max), except the first, which is Initial |
| Retry.CappedFromTheStart | internal/pkg/retry/retry.go:62-85 | all delays are the capped powers if and only if the initial delay does not exceed the cap |
| Retry.DelaysCapped | internal/pkg/retry/retry.go:80-85 | for any multiplier every delay after the first is at most Max and none is negative |
| MeetUrls.ParseURL | internal/infra/meeting/meet/url_parser.go:59-101 | the rewriting steps and the token loop compute the specified normalisation, errors included |
| MeetUrls.ContainsMeaning | internal/infra/meeting/meet/url_parser.go:80 | the substring test |
| MeetUrls.FieldsArePieces | internal/infra/meeting/meet/url_parser.go:79 | tokens are pieces of the text without white space |
| MeetUrls.LeftmostMatch | internal/infra/meeting/meet/url_parser.go:89 | the pattern search returns the leftmost match, and fails only if there is none anywhere |
| MeetUrls.AcceptedIsCanonical | internal/infra/meeting/meet/url_parser.go:93-100 | every accepted input prints as the base, a 3-4-3 lower-case code and nothing or a query without white space |
| MeetUrls.CanonicalMeaning | internal/infra/meeting/meet/url_parser.go:41 | these links position by position |
| MeetUrls.ParseCanonical | internal/infra/meeting/meet/url_parser.go:59-101 | parsing a canonical link gives the same link with its query unescaped |
| MeetUrlQuirks.PaddingIgnored | internal/infra/meeting/meet/url_parser.go:62 | white space around an input makes no difference |
| MeetUrlQuirks.QuotesIgnored | internal/infra/meeting/meet/url_parser.go:66-69 | for every input that is not blank and not itself in quotes, double quotes around it make no difference, white space inside them included |
| MeetUrlQuirks.QuotedNothing | internal/infra/meeting/meet/url_parser.go:62-69 | around a blank input they turn the rejection as empty into one for lack of a host |
| MeetUrlQuirks.SchemeMakesNoDifference | internal/infra/meeting/meet/url_parser.go:72-75 | for every text, the scheme added to a bare host changes nothing in what is then found |
| MeetUrlQuirks.SchemeOptional | internal/infra/meeting/meet/url_parser.go:72-75 | a link without its scheme parses as the link |
| MeetUrlQuirks.UnescapeAppend | internal/infra/meeting/meet/url_parser.go:71 | unescaping works piece by piece, as long as no escape spans two pieces |
| MeetUrlQuirks.EscapeRoundTrip | internal/infra/meeting/meet/url_parser.go:70-71 | unescaping undoes escaping for every text without backslash |
| MeetUrlQuirks.EscapesIgnored | internal/infra/meeting/meet/url_parser.go:70-71 | a link with its ? = & escaped parses as the link |
| MeetUrlQuirks.PastedLink | internal/infra/meeting/meet/url_parser.go:62-71 | for every code, a link padded with blanks, tabs and line ends, in quotes and with its ? = & escaped parses as the link |
| MeetUrlQuirks.FieldsAppend | internal/infra/meeting/meet/url_parser.go:79 | the tokens of a text followed by white space and more are those of the text, then those of the rest |
| MeetUrlQuirks.TextIgnored | internal/infra/meeting/meet/url_parser.go:62-100 | for every input: if trimming, unquoting and unescaping leave a link, at the beginning or after white space and text in which no token mentions the host, and followed by nothing or by white space and anything, that link is what is parsed |
| MeetUrlQuirks.PlainTextIgnored | internal/infra/meeting/meet/url_parser.go:62-100 | so of inputs without quotes around them and without escapes, on the input as it is |
| MeetUrlQuirks.Rejections | internal/infra/meeting/meet/url_parser.go:62-100 | for every input: rejected as empty if and only if it is all white space, for lack of a host if and only if no token of the rewritten text mentions it, for lack of a code if and only if the first token that does has no match anywhere, and accepted otherwise |
| MeetUrlQuirks.OtherHostAccepted | internal/infra/meeting/meet/url_parser.go:77-92 | the domain rule: for every input whose first token with the host is an https link that does not begin with the Meet base, the input is accepted if and only if host, slash and code, up to the end or a query, occur later in that token |
| MeetUrlQuirks.ForeignLinkAccepted | internal/infra/meeting/meet/url_parser.go:77-92 | for every plain https link: accepted without beginning with the Meet base if and only if there is such a later match; and links to other hosts are rejected exactly where there is none |
| MeetUrlQuirks.ForeignLinkExample | internal/infra/meeting/meet/url_parser.go:77-92 | a concrete link to another host that is accepted and printed as a Meet link |
| MeetUrlQuirks.PrefixIgnored | internal/infra/meeting/meet/url_parser.go:89-96 | whatever stands before the host of a link, up to white space, makes no difference, if it holds no question mark and no escape and does not put the link in quotes: no scheme, www, or any other host |
| MeetUrlQuirks.WwwCollapsed | internal/infra/meeting/meet/url_parser.go:89-96 | the www form of a link parses as the link |
| MeetUrls.ReparseExactly | internal/infra/meeting/meet/url_parser.go:59-101 | parsing an accepted link again returns it unchanged if and only if it holds no escape of ? = & |
| MeetUrls.ReparseUnchanged | internal/infra/meeting/meet/url_parser.go:71 | parsing is idempotent for every input without two adjacent backslashes |
| MeetUrls.ReparseCanChange | internal/infra/meeting/meet/url_parser.go:71 | for every code and each of ? = & an input with two adjacent backslashes for which it is not |

## Left out

- Machines.Machine.Run: follows the loop for a given number of states, because pauses can go on for ever; the theorems about all runs are those of `Session`, which has no bound.
- Machines.Machine.ExecutePaused: follows the waiting loop for a given number of polls, because nobody need ever resume.
- Machines.Machine.Execute: an error returned by a state, and a state missing from the map, are not modelled; the real states never return an error and the real map is complete (internal/usecase/bot/machine.go:59-80).
- Machines.Machine.ExecuteRecording: one clock reading serves the three timeout checks of a poll, where the code reads the clock for each.
- Controllers.Controller.Run: follows the loop for a given number of rounds; `DispatchRuns` has no bound.
- Controllers.Controller.HandleJob: opening the log file and spawning the process are one outcome with the worker's exit; the map of running commands is not modelled.
- Session.Step: `Machine.current` is read and written by several goroutines without a lock; the model takes each such access as atomic.
- Session.OutsideStep: pause and resume requests act at any time, where the HTTP handlers first look at the state; all theorems hold for the larger set of runs.
- Recorders.ScreenRecorder.Stop: waiting for the process is assumed to return, also when it is suspended.
- Speakers.Manager.Push: push, subscribe and cancel are atomic, so a push racing a cancel (a send on a closed channel) is not modelled.
- Creation.Step: interleavings are on values; update in place is shown by `Service`, one request at a time with arbitrary accesses of others. Loss of bots by tenant deletion is not modelled, nor the outbox event, nor the promotion of scheduled bots.
- Creation.EnqueueStep: a command takes effect at most once; a Redis client that repeats a command after a network error could add a job twice.
- Creation.DedupKeyInjective: SHA-256 stays opaque: requests carry their hashes, and nothing is assumed about bodies or meeting URLs that share one.
- CreationReplays.ReplayIsTheAnswer: how replies are printed and how JSONB normalises them are parameters; a first request whose answer was not stored is answered 409 to its repeats until the row is swept.
- Idempotency.CapturingWriter.WriteHeader: a handler that writes a second, different header makes capture and client differ; the contract says so exactly.
- Pipeline.OneWorkerPerKey: the v1 API puts jobs of its own into the same stream; its bots are not part of this model.
- Breakers.Sender.Send: the sleeps between attempts are not modelled, and each answer carries the time at which its failure is recorded.
- RateLimits.ExactlyTheLimit: a fixed limit and a Redis that answers; when it fails a request is let through, as `Limiter.Handle` says, and is not in the log; an INCR that takes effect although its answer comes too late is not modelled.
- KeyCache.AcceptsAreFresh: for one key at a time, any key, with the gap from lookup to store and answer bounded by a parameter.
- Retry.Do: delays are exact reals truncated to nanoseconds; float rounding and overflow are not modelled.
- MeetUrls.ParseURL: strings are code points; invalid UTF-8 is not modelled.
- Playwright, Chromium, ffmpeg arguments, injected scripts, S3, the chat command, Teams and Zoom URLs, configuration, loggers, health, usage, alerts, the v1 handlers: foreign calls or single-branch plumbing.

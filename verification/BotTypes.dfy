/** The two enumerations of the bot session: its nine states and the reasons a meeting can end. */
module BotTypes {

  datatype StateType =
    | Initialization
    | WaitingRoom
    | InCall
    | Recording
    | Paused
    | Resuming
    | Cleanup
    | Error
    | Terminated

  /** `Unset` is the empty end reason, the value of a context nobody has stopped yet. */
  datatype EndReason =
    | Unset
    | BotRemoved
    | NoAttendees
    | NoSpeaker
    | AllParticipantsLeft
    | RecordingTimeout
    | ApiRequest
    | ExitBeforeRecord
    | BotRemovedTooEarly
    | BotNotAccepted
    | CannotJoinMeeting
    | TimeoutWaiting
    | InvalidMeetingURL
    | StreamingSetupFailed
    | LoginRequired
    | Internal
  {
    /** The reasons that count as a successful recording. `ExitBeforeRecord` is not one of them. */
    predicate IsNormal() {
      match this
      case BotRemoved | NoAttendees | NoSpeaker | AllParticipantsLeft | RecordingTimeout | ApiRequest => true
      case _ => false
    }
  }

  /** The states in which a stop request over the API means "leave before recording". */
  predicate PreRecording(st: StateType) {
    st == Initialization || st == WaitingRoom || st == InCall
  }

  /** Calls made on the recorder. */
  datatype Call = Start | Pause | Resume | Stop
}

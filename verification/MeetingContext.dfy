/** The shared runtime state of one meeting session, updated in place by its setters. */
module MeetingContexts {
  import opened BotTypes
  import opened Options
  import Silence

  /** The pause fields: whether paused, since when, and the total of the pauses already over. */
  datatype PauseClock = PauseClock(paused: bool, since: int, total: int)

  /** The effect of SetPaused(on) at time `now`. Repeating a request changes nothing. */
  function Toggle(p: PauseClock, on: bool, now: int): PauseClock {
    if on && !p.paused then PauseClock(true, now, p.total)
    else if !on && p.paused then PauseClock(false, p.since, p.total + (now - p.since))
    else p
  }

  /** One call of SetPaused. */
  datatype Request = Request(on: bool, at: int)

  function Replay(rs: seq<Request>): PauseClock
    decreases |rs|, 1
  {
    if rs == [] then PauseClock(false, 0, 0) else ReplayLast(rs)
  }

  function ReplayLast(rs: seq<Request>): PauseClock
    requires rs != []
    decreases |rs|, 0
  {
    Toggle(Replay(rs[..|rs| - 1]), rs[|rs| - 1].on, rs[|rs| - 1].at)
  }

  lemma ReplaySnoc(rs: seq<Request>, r: Request)
    ensures Replay(rs + [r]) == Toggle(Replay(rs), r.on, r.at)
  {
    assert (rs + [r])[..|rs|] == rs;
  }

  predicate InOrder(rs: seq<Request>) {
    forall i, j :: 0 <= i <= j < |rs| ==> rs[i].at <= rs[j].at
  }

  class MeetingContext {
    var endReason: EndReason
    var hasError: bool
    var isPaused: bool
    var pauseStartTime: int
    var totalPauseDuration: int
    var startTime: int
    var attendeesCount: nat
    var firstUserJoined: bool
    var lastSpeakerTime: Option<int>
    var noSpeakerDetectedTime: Option<int>
    ghost var requests: seq<Request>    // every call of SetPaused

    constructor ()
      ensures endReason == Unset && !hasError
      ensures Pauses() == PauseClock(false, 0, 0)
      ensures Tracking() == Silence.Track(0, false, None, None)
      ensures requests == []
    {
      endReason, hasError := Unset, false;
      isPaused, pauseStartTime, totalPauseDuration := false, 0, 0;
      startTime := 0;
      attendeesCount, firstUserJoined := 0, false;
      lastSpeakerTime, noSpeakerDetectedTime := None, None;
      requests := [];
    }

    ghost function Pauses(): PauseClock
      reads this
    {
      PauseClock(isPaused, pauseStartTime, totalPauseDuration)
    }

    /** The pause fields are the replay of the calls received. */
    ghost predicate Accounted()
      reads this
    {
      Pauses() == Replay(requests)
    }

    function Tracking(): Silence.Track
      reads this
    {
      Silence.Track(attendeesCount, firstUserJoined, lastSpeakerTime, noSpeakerDetectedTime)
    }

    method SetEndReason(reason: EndReason)
      modifies this`endReason
      ensures endReason == reason
    {
      endReason := reason;
    }

    method SetError(reason: EndReason)
      modifies this`endReason, this`hasError
      ensures endReason == reason && hasError
    {
      endReason := reason;
      hasError := true;
    }

    method ShouldStop() returns (stop: bool)
      ensures stop <==> endReason != Unset
    {
      stop := endReason != Unset;
    }

    method SetPaused(on: bool, now: int) returns (prev: bool)
      modifies this`isPaused, this`pauseStartTime, this`totalPauseDuration, this`requests
      ensures prev == old(isPaused) && isPaused == on && requests == old(requests) + [Request(on, now)]
      ensures Pauses() == Toggle(old(Pauses()), on, now)
      ensures old(Accounted()) ==> Accounted()
    {
      ReplaySnoc(requests, Request(on, now));
      requests := requests + [Request(on, now)];
      prev := isPaused;
      isPaused := on;
      if on && !prev {
        pauseStartTime := now;
      } else if !on && prev {
        totalPauseDuration := totalPauseDuration + (now - pauseStartTime);
      }
    }
  }

  method CountOthers(names: seq<string>, botName: string) returns (count: nat)
    ensures count == Silence.CountOthers(names, botName)
  {
    count := 0;
    for i := 0 to |names|
      invariant count == Silence.CountOthers(names[..i], botName)
    {
      assert names[..i + 1][..i] == names[..i];
      if names[i] != "" && names[i] != botName {
        count := count + 1;
      }
    }
    assert names[..|names|] == names;
  }

  method AnyActive(names: seq<string>, botName: string) returns (found: bool)
    ensures found <==> Silence.AnyOther(names, botName)
  {
    found := false;
    for i := 0 to |names|
      invariant !found && forall k :: 0 <= k < i ==> !Silence.IsOther(names[k], botName)
    {
      if names[i] != "" && names[i] != botName {
        return true;
      }
    }
  }

  /** One poll's bookkeeping of who is in the meeting and who speaks. */
  method UpdateAttendees(mc: MeetingContext, botName: string, active: seq<string>, all: seq<string>, now: int)
    modifies mc`attendeesCount, mc`firstUserJoined, mc`lastSpeakerTime, mc`noSpeakerDetectedTime
    ensures mc.Tracking() == Silence.Observe(old(mc.Tracking()), Silence.Sample(now, active, all), botName)
  {
    var others := CountOthers(all, botName);
    mc.attendeesCount := others;
    if others > 0 {
      mc.firstUserJoined := true;
    }
    var hasActive := AnyActive(active, botName);
    if hasActive {
      mc.lastSpeakerTime := Some(now);
      mc.noSpeakerDetectedTime := None;
    } else if mc.noSpeakerDetectedTime.None? && mc.firstUserJoined {
      mc.noSpeakerDetectedTime := Some(now);
    }
  }

  // ---------------------------------------------------------------- pause accounting

  /** The flag between two requests is what the earlier one asked for. */
  predicate PausedAfter(rs: seq<Request>, i: nat)
    requires i < |rs|
  {
    rs[i].on
  }

  /** How long, of the time up to `t`, the flag was set: gap by gap between requests. */
  function TimePaused(rs: seq<Request>, t: int): int {
    if rs == [] then 0
    else
      var last := |rs| - 1;
      TimePaused(rs[..last], rs[last].at) + if PausedAfter(rs, last) then t - rs[last].at else 0
  }

  /** The pause still open at `t`. */
  function OpenInterval(p: PauseClock, t: int): int {
    if p.paused then t - p.since else 0
  }

  /** For any requests, repeats included, the recorded total plus the open pause is the time spent paused. */
  lemma {:induction false} PauseAccounting(rs: seq<Request>, t: int)
    ensures Replay(rs).total + OpenInterval(Replay(rs), t) == TimePaused(rs, t)
    ensures Replay(rs).paused <==> rs != [] && PausedAfter(rs, |rs| - 1)
  {
    if rs != [] {
      var init, last := rs[..|rs| - 1], rs[|rs| - 1];
      PauseAccounting(init, last.at);
      PauseAccounting(init, t);
    }
  }

  /** With requests in time order the total never exceeds the time since the first one and never shrinks. */
  lemma {:induction false} TotalIsBounded(rs: seq<Request>, t: int)
    requires InOrder(rs) && rs != [] && rs[|rs| - 1].at <= t
    ensures 0 <= Replay(rs[..|rs| - 1]).total <= Replay(rs).total
    ensures 0 <= TimePaused(rs, t) <= t - rs[0].at
  {
    var init, last := rs[..|rs| - 1], rs[|rs| - 1];
    PauseAccounting(rs, t);
    PauseAccounting(init, last.at);
    if init != [] {
      assert init[|init| - 1] == rs[|rs| - 2];
      TotalIsBounded(init, last.at);
      OpenPauseStart(init);
    }
  }

  /** An open pause began at one of the requests, so not later than the last. */
  lemma {:induction false} OpenPauseStart(rs: seq<Request>)
    requires InOrder(rs) && rs != []
    ensures Replay(rs).paused ==> Replay(rs).since <= rs[|rs| - 1].at
    ensures Replay(rs[..|rs| - 1]).paused ==> Replay(rs[..|rs| - 1]).since <= rs[|rs| - 1].at
  {
    var init := rs[..|rs| - 1];
    if init != [] {
      OpenPauseStart(init);
      assert init[|init| - 1] == rs[|rs| - 2];
    }
  }

  /** So of a context: its total plus the pause still open is the time that it has been paused by its calls. */
  lemma PausesAccountedFor(mc: MeetingContext, now: int)
    requires mc.Accounted()
    ensures mc.totalPauseDuration + OpenInterval(mc.Pauses(), now) == TimePaused(mc.requests, now)
  {
    PauseAccounting(mc.requests, now);
  }
}

/**
 Attendee and silence tracking of the recording state: what the poll loop remembers of the speaker
 snapshots it has taken, and when it decides to leave. All times are in nanoseconds.
 */
module Silence {
  import opened BotTypes
  import opened Options

  const SECOND: int := 1_000_000_000
  const POLL_INTERVAL: int := 2 * SECOND
  const MAX_RECORDING: int := 4 * 3600 * SECOND
  const FIRST_USER_GRACE: int := 30 * SECOND

  /** Timeouts are in seconds, as configured. */
  datatype Config = Config(botName: string, silenceTimeout: int, nooneJoinedTimeout: int)

  /** One snapshot of the speaker manager and the time it was looked at. */
  datatype Sample = Sample(now: int, active: seq<string>, all: seq<string>)

  /** The tracking fields of MeetingContext. `None` is Go's zero time. */
  datatype Track = Track(attendees: nat, joined: bool, lastSpeaker: Option<int>, silentSince: Option<int>)

  predicate IsOther(name: string, botName: string) {
    name != "" && name != botName
  }

  function CountOthers(names: seq<string>, botName: string): nat {
    if names == [] then 0
    else CountOthers(names[..|names| - 1], botName) + if IsOther(names[|names| - 1], botName) then 1 else 0
  }

  predicate AnyOther(names: seq<string>, botName: string) {
    exists i :: 0 <= i < |names| && IsOther(names[i], botName)
  }

  lemma {:induction false} CountIsAny(names: seq<string>, botName: string)
    ensures CountOthers(names, botName) > 0 <==> AnyOther(names, botName)
  {
    if names != [] {
      var init := names[..|names| - 1];
      CountIsAny(init, botName);
      if i :| 0 <= i < |names| && IsOther(names[i], botName) {
        assert i < |init| ==> IsOther(init[i], botName);
      }
      if i :| 0 <= i < |init| && IsOther(init[i], botName) {
        assert IsOther(names[i], botName);
      }
    }
  }

  /** The effect of one poll on the tracking fields. */
  function Observe(t: Track, s: Sample, botName: string): Track {
    var others := CountOthers(s.all, botName);
    var joined := t.joined || others > 0;
    if AnyOther(s.active, botName) then Track(others, joined, Some(s.now), None)
    else if t.silentSince.None? && joined then Track(others, joined, t.lastSpeaker, Some(s.now))
    else Track(others, joined, t.lastSpeaker, t.silentSince)
  }

  /** The tracking fields after the polls `h`, oldest first. */
  function TrackOf(t: Track, h: seq<Sample>, botName: string): Track
    decreases |h|, 1
  {
    if h == [] then t else TrackLast(t, h, botName)
  }

  function TrackLast(t: Track, h: seq<Sample>, botName: string): Track
    requires h != []
    decreases |h|, 0
  {
    Observe(TrackOf(t, h[..|h| - 1], botName), h[|h| - 1], botName)
  }

  lemma TrackSnoc(t: Track, h: seq<Sample>, s: Sample, botName: string)
    ensures TrackOf(t, h + [s], botName) == Observe(TrackOf(t, h, botName), s, botName)
  {
    assert (h + [s])[..|h|] == h;
  }

  // ---------------------------------------------------------------- the three timeouts

  predicate NoSpeakerFires(cfg: Config, t: Track, recordStart: int, now: int) {
    && cfg.silenceTimeout > 0
    && t.joined
    && t.silentSince.Some?
    && now - t.silentSince.value >= cfg.silenceTimeout * SECOND
    && now - recordStart >= FIRST_USER_GRACE
  }

  predicate NoOneJoinedFires(cfg: Config, t: Track, recordStart: int, now: int) {
    && cfg.nooneJoinedTimeout > 0
    && !t.joined
    && now - recordStart >= cfg.nooneJoinedTimeout * SECOND
  }

  function AloneTimeout(cfg: Config): int {
    if cfg.nooneJoinedTimeout <= 0 then 60 * SECOND else cfg.nooneJoinedTimeout * SECOND
  }

  predicate AloneFires(cfg: Config, t: Track, recordStart: int, now: int) {
    && t.joined
    && t.attendees == 0
    && now - recordStart >= FIRST_USER_GRACE
    && t.silentSince.Some?
    && now - t.silentSince.value >= AloneTimeout(cfg)
  }

  /** The end reason the three checks settle on, in their order; `Unset` = keep polling. */
  function Verdict(cfg: Config, t: Track, recordStart: int, now: int): EndReason {
    if NoSpeakerFires(cfg, t, recordStart, now) then NoSpeaker
    else if NoOneJoinedFires(cfg, t, recordStart, now) then NoAttendees
    else if AloneFires(cfg, t, recordStart, now) then AllParticipantsLeft
    else Unset
  }

  // ---------------------------------------------------------------- what the timer means

  predicate Silent(s: Sample, botName: string) {
    !AnyOther(s.active, botName)
  }

  /** Someone is known to have joined by poll `i`: the join callback said so, or a poll up to `i` saw them. */
  predicate JoinedBy(h: seq<Sample>, i: int, callback: bool, botName: string) {
    callback || exists k :: 0 <= k <= i && k < |h| && AnyOther(h[k].all, botName)
  }

  /** Poll `i` is silent and comes after someone joined. */
  predicate Counts(h: seq<Sample>, i: int, callback: bool, botName: string)
    requires 0 <= i < |h|
  {
    Silent(h[i], botName) && JoinedBy(h, i, callback, botName)
  }

  /** The current silence began at poll `i`: it and all later polls count, the one before it does not. */
  predicate Onset(h: seq<Sample>, i: int, callback: bool, botName: string) {
    && 0 <= i < |h|
    && (forall k :: i <= k < |h| ==> Counts(h, k, callback, botName))
    && (i > 0 ==> !Counts(h, i - 1, callback, botName))
  }

  /** A context in which no poll has been made yet. */
  predicate Unpolled(t: Track) {
    t.silentSince.None?
  }

  lemma {:induction false} JoinedMeaning(t: Track, h: seq<Sample>, botName: string)
    ensures TrackOf(t, h, botName).joined <==> JoinedBy(h, |h| - 1, t.joined, botName)
  {
    if h != [] {
      var init, s := h[..|h| - 1], h[|h| - 1];
      JoinedMeaning(t, init, botName);
      CountIsAny(s.all, botName);
      if k :| 0 <= k < |h| && AnyOther(h[k].all, botName) {
        assert k < |init| ==> AnyOther(init[k].all, botName);
      }
      if k :| 0 <= k < |init| && AnyOther(init[k].all, botName) {
        assert AnyOther(h[k].all, botName);
      }
    }
  }

  /** LastSpeakerTime is the time of the latest poll that heard somebody, and untouched if none did. */
  lemma {:induction false} LastSpeakerMeaning(t: Track, h: seq<Sample>, botName: string) returns (i: int)
    ensures -1 <= i < |h|
    ensures forall k :: i < k < |h| ==> Silent(h[k], botName)
    ensures i >= 0 ==> !Silent(h[i], botName) && TrackOf(t, h, botName).lastSpeaker == Some(h[i].now)
    ensures i < 0 ==> TrackOf(t, h, botName).lastSpeaker == t.lastSpeaker
  {
    i := -1;
    if h != [] {
      if !Silent(h[|h| - 1], botName) {
        return |h| - 1;
      }
      i := LastSpeakerMeaning(t, h[..|h| - 1], botName);
      assert forall k :: 0 <= k < |h| - 1 ==> h[..|h| - 1][k] == h[k];
    }
  }

  lemma CountsPrefix(h: seq<Sample>, s: Sample, i: int, callback: bool, botName: string)
    requires 0 <= i < |h|
    ensures Counts(h + [s], i, callback, botName) <==> Counts(h, i, callback, botName)
  {
    var g := h + [s];
    if k :| 0 <= k <= i && AnyOther(g[k].all, botName) {
      assert AnyOther(h[k].all, botName);
    }
    if k :| 0 <= k <= i && AnyOther(h[k].all, botName) {
      assert AnyOther(g[k].all, botName);
    }
  }

  /** One more counting poll prolongs the silence, or starts one. */
  lemma OnsetGrows(h: seq<Sample>, s: Sample, i: int, callback: bool, botName: string)
    requires Counts(h + [s], |h|, callback, botName)
    requires Onset(h, i, callback, botName) || (i == |h| && (h != [] ==> !Counts(h, |h| - 1, callback, botName)))
    ensures Onset(h + [s], i, callback, botName)
  {
    forall k | 0 <= k < |h|
      ensures Counts(h + [s], k, callback, botName) <==> Counts(h, k, callback, botName)
    {
      CountsPrefix(h, s, k, callback, botName);
    }
  }

  lemma CountsNow(t: Track, h: seq<Sample>, botName: string)
    requires h != []
    ensures Counts(h, |h| - 1, t.joined, botName) <==>
            Silent(h[|h| - 1], botName) && TrackOf(t, h, botName).joined
  {
    JoinedMeaning(t, h, botName);
  }

  /** What the timer shows after the polls `h`, `i` being the one that began the silence, if there is one. */
  predicate TimerShows(t: Track, h: seq<Sample>, botName: string, i: int) {
    var since := TrackOf(t, h, botName).silentSince;
    && (since.Some? <==> h != [] && Counts(h, |h| - 1, t.joined, botName))
    && (since.Some? ==> Onset(h, i, t.joined, botName) && since.value == h[i].now)
  }

  lemma TimerStep(t: Track, h: seq<Sample>, s: Sample, botName: string, i: int) returns (j: int)
    requires TimerShows(t, h, botName, i)
    ensures TimerShows(t, h + [s], botName, j)
  {
    TrackSnoc(t, h, s, botName);
    CountsNow(t, h + [s], botName);
    j := i;
    if Counts(h + [s], |h|, t.joined, botName) {
      j := if TrackOf(t, h, botName).silentSince.None? then |h| else i;
      OnsetGrows(h, s, j, t.joined, botName);
    }
  }

  /** The timer is set exactly while the last poll counts, to the time of the poll that began the silence. */
  lemma {:induction false} SilentSinceMeaning(t: Track, h: seq<Sample>, botName: string) returns (i: int)
    requires Unpolled(t)
    ensures var since := TrackOf(t, h, botName).silentSince;
            && (since.Some? <==> h != [] && Counts(h, |h| - 1, t.joined, botName))
            && (since.Some? ==> Onset(h, i, t.joined, botName) && since.value == h[i].now)
  {
    i := 0;
    if h != [] {
      assert h == h[..|h| - 1] + [h[|h| - 1]];
      i := SilentSinceMeaning(t, h[..|h| - 1], botName);
      i := TimerStep(t, h[..|h| - 1], h[|h| - 1], botName, i);
    }
  }

  lemma OnsetUnique(h: seq<Sample>, i: int, j: int, callback: bool, botName: string)
    requires Onset(h, i, callback, botName) && Onset(h, j, callback, botName)
    ensures i == j
  {
  }

  /**
   The timer against its definition, over any history: it shows time `x` exactly if the silence that
   reaches up to the last poll began at a poll taken at `x`.
   */
  lemma SilenceTimer(t: Track, h: seq<Sample>, botName: string, x: int)
    requires Unpolled(t)
    ensures TrackOf(t, h, botName).silentSince == Some(x) <==>
            exists i :: Onset(h, i, t.joined, botName) && h[i].now == x
  {
    var i := SilentSinceMeaning(t, h, botName);
    if j :| Onset(h, j, t.joined, botName) && h[j].now == x {
      assert Counts(h, |h| - 1, t.joined, botName);
      OnsetUnique(h, i, j, t.joined, botName);
    }
  }

  /** The silence that reaches up to the last poll has lasted `d`. */
  ghost predicate SilentFor(h: seq<Sample>, callback: bool, botName: string, now: int, d: int) {
    exists i :: Onset(h, i, callback, botName) && now - h[i].now >= d
  }

  lemma SilentForMeaning(t: Track, h: seq<Sample>, botName: string, now: int, d: int)
    requires Unpolled(t)
    ensures var since := TrackOf(t, h, botName).silentSince;
            SilentFor(h, t.joined, botName, now, d) <==> since.Some? && now - since.value >= d
  {
    var i := SilentSinceMeaning(t, h, botName);
    if j :| Onset(h, j, t.joined, botName) && now - h[j].now >= d {
      assert Counts(h, |h| - 1, t.joined, botName);
      OnsetUnique(h, i, j, t.joined, botName);
    }
  }

  /** NoSpeaker is decided exactly when the silence since its onset has lasted the timeout and the grace is over. */
  lemma NoSpeakerExactly(cfg: Config, t: Track, h: seq<Sample>, recordStart: int, now: int)
    requires Unpolled(t)
    ensures Verdict(cfg, TrackOf(t, h, cfg.botName), recordStart, now) == NoSpeaker <==>
            && cfg.silenceTimeout > 0
            && now - recordStart >= 30 * 1_000_000_000
            && SilentFor(h, t.joined, cfg.botName, now, cfg.silenceTimeout * 1_000_000_000)
  {
    SilentForMeaning(t, h, cfg.botName, now, cfg.silenceTimeout * SECOND);
    if h != [] {
      CountsNow(t, h, cfg.botName);
    }
    var _ := SilentSinceMeaning(t, h, cfg.botName);
  }

  predicate InOrder(h: seq<Sample>) {
    forall i, j :: 0 <= i <= j < |h| ==> h[i].now <= h[j].now
  }

  /** So no poll of the last `silenceTimeout` seconds heard anybody. */
  lemma NoSpeakerMeansSilence(cfg: Config, t: Track, h: seq<Sample>, recordStart: int, now: int, k: int)
    requires Unpolled(t) && InOrder(h) && 0 <= k < |h|
    requires Verdict(cfg, TrackOf(t, h, cfg.botName), recordStart, now) == NoSpeaker
    requires h[k].now > now - cfg.silenceTimeout * 1_000_000_000
    ensures Silent(h[k], cfg.botName)
  {
    NoSpeakerExactly(cfg, t, h, recordStart, now);
    var i :| Onset(h, i, t.joined, cfg.botName) && now - h[i].now >= cfg.silenceTimeout * SECOND;
    assert h[i].now < h[k].now;
    assert Counts(h, k, t.joined, cfg.botName);
  }

  // ---------------------------------------------------------------- what the other two timeouts mean

  /** NoAttendees is decided exactly when the timeout has passed since the recording began and nobody has joined. */
  lemma NoAttendeesExactly(cfg: Config, t: Track, h: seq<Sample>, recordStart: int, now: int)
    ensures Verdict(cfg, TrackOf(t, h, cfg.botName), recordStart, now) == NoAttendees <==>
            && cfg.nooneJoinedTimeout > 0
            && now - recordStart >= cfg.nooneJoinedTimeout * 1_000_000_000
            && !JoinedBy(h, |h| - 1, t.joined, cfg.botName)
  {
    JoinedMeaning(t, h, cfg.botName);
  }

  /**
   AllParticipantsLeft is decided exactly when the last poll lists nobody else, the grace is over, and the
   silence has lasted long enough for this check but not for the previous one.
   */
  lemma AllParticipantsLeftExactly(cfg: Config, t: Track, h: seq<Sample>, recordStart: int, now: int)
    requires Unpolled(t) && h != []
    ensures Verdict(cfg, TrackOf(t, h, cfg.botName), recordStart, now) == AllParticipantsLeft <==>
            && !AnyOther(h[|h| - 1].all, cfg.botName)
            && now - recordStart >= 30 * 1_000_000_000
            && SilentFor(h, t.joined, cfg.botName, now,
                         (if cfg.nooneJoinedTimeout > 0 then cfg.nooneJoinedTimeout else 60) * 1_000_000_000)
            && (cfg.silenceTimeout > 0 ==>
                  !SilentFor(h, t.joined, cfg.botName, now, cfg.silenceTimeout * 1_000_000_000))
  {
    SilentForMeaning(t, h, cfg.botName, now, AloneTimeout(cfg));
    SilentForMeaning(t, h, cfg.botName, now, cfg.silenceTimeout * SECOND);
    CountIsAny(h[|h| - 1].all, cfg.botName);
    CountsNow(t, h, cfg.botName);
    var _ := SilentSinceMeaning(t, h, cfg.botName);
  }

  /** Once the join callback has fired nobody is reported missing: NoAttendees cannot be decided. */
  lemma NoAttendeesNeedsNoCallback(cfg: Config, t: Track, h: seq<Sample>, recordStart: int, now: int)
    requires Verdict(cfg, TrackOf(t, h, cfg.botName), recordStart, now) == NoAttendees
    ensures !t.joined && forall k :: 0 <= k < |h| ==> !AnyOther(h[k].all, cfg.botName)
  {
    JoinedMeaning(t, h, cfg.botName);
    assert JoinedBy(h, |h| - 1, t.joined, cfg.botName) <== exists k :: 0 <= k < |h| && AnyOther(h[k].all, cfg.botName);
  }

  /** The speaker manager only ever adds names to the list of participants. */
  predicate Cumulative(h: seq<Sample>) {
    forall i, j, n :: 0 <= i <= j < |h| && n in h[i].all ==> n in h[j].all
  }

  lemma SeenStaysSeen(h: seq<Sample>, k: int, botName: string)
    requires Cumulative(h) && 0 <= k < |h| && AnyOther(h[k].all, botName)
    ensures AnyOther(h[|h| - 1].all, botName)
  {
    var i :| 0 <= i < |h[k].all| && IsOther(h[k].all[i], botName);
    var last := h[|h| - 1].all;
    assert h[k].all[i] in last;
    var j :| 0 <= j < |last| && last[j] == h[k].all[i];
    assert IsOther(last[j], botName);
  }

  /**
   With such a list AllParticipantsLeft never means that participants left: it is decided only in
   sessions where nobody but the bot was ever seen, so only because the join callback counted as a join.
   */
  lemma AllParticipantsLeftMeansNobodySeen(cfg: Config, t: Track, h: seq<Sample>, recordStart: int, now: int)
    requires h != [] && Cumulative(h)
    requires Verdict(cfg, TrackOf(t, h, cfg.botName), recordStart, now) == AllParticipantsLeft
    ensures t.joined && forall k :: 0 <= k < |h| ==> !AnyOther(h[k].all, cfg.botName)
  {
    CountIsAny(h[|h| - 1].all, cfg.botName);
    forall k | 0 <= k < |h| && AnyOther(h[k].all, cfg.botName)
      ensures AnyOther(h[|h| - 1].all, cfg.botName)
    {
      SeenStaysSeen(h, k, cfg.botName);
    }
    JoinedMeaning(t, h, cfg.botName);
  }
}

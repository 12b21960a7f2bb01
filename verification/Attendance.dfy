/** The recording state's timers fed from the speaker manager: what its end reasons say about speaker events. */
module Attendance {
  import opened BotTypes
  import opened Options
  import Silence
  import Speakers

  /** `list` is a snapshot of the set `names`. */
  predicate Lists(list: seq<string>, names: set<string>) {
    (set n | n in list) == names && |list| == |names|
  }

  /** Poll number i looked at the manager after the first `ks[i]` of its operations. */
  ghost predicate Snapshots(ops: seq<Speakers.Op>, ks: seq<nat>, h: seq<Silence.Sample>) {
    && Speakers.CanRun(ops)
    && |ks| == |h|
    && (forall i, j :: 0 <= i <= j < |ks| ==> ks[i] <= ks[j] <= |ops|)
    && (forall i :: 0 <= i < |h| ==> Looked(ops, ks[i], h[i]))
  }

  ghost predicate Looked(ops: seq<Speakers.Op>, k: nat, s: Silence.Sample) {
    && k <= |ops|
    && Speakers.CanRun(ops[..k])
    && Lists(s.all, Speakers.After(ops[..k]).all)
    && Lists(s.active, Speakers.After(ops[..k]).active)
  }

  /** The manager never forgets a name. */
  lemma {:induction false} NeverForgets(ops: seq<Speakers.Op>, k: nat)
    requires Speakers.CanRun(ops) && k <= |ops|
    ensures Speakers.CanRun(ops[..k]) && Speakers.After(ops[..k]).all <= Speakers.After(ops).all
  {
    if k < |ops| {
      var init := ops[..|ops| - 1];
      NeverForgets(init, k);
      assert init[..k] == ops[..k];
    } else {
      assert ops[..k] == ops;
    }
  }

  lemma KnownLater(ops: seq<Speakers.Op>, ks: seq<nat>, h: seq<Silence.Sample>, i: int, j: int)
    requires Snapshots(ops, ks, h) && 0 <= i <= j < |h|
    ensures forall n :: n in h[i].all ==> n in h[j].all
  {
    assert Looked(ops, ks[i], h[i]) && Looked(ops, ks[j], h[j]);
    NeverForgets(ops[..ks[j]], ks[i]);
    assert ops[..ks[j]][..ks[i]] == ops[..ks[i]];
    var earlier, later := set n | n in h[i].all, set n | n in h[j].all;
    assert earlier <= later;
    forall n | n in h[i].all
      ensures n in h[j].all
    {
      assert n in earlier && n in later;
    }
  }

  lemma SnapshotsAreCumulative(ops: seq<Speakers.Op>, ks: seq<nat>, h: seq<Silence.Sample>)
    requires Snapshots(ops, ks, h)
    ensures Silence.Cumulative(h)
  {
    forall i, j, n | 0 <= i <= j < |h| && n in h[i].all
      ensures n in h[j].all
    {
      KnownLater(ops, ks, h, i, j);
    }
  }

  function Others(list: seq<string>, botName: string): set<string> {
    set n | n in list && Silence.IsOther(n, botName)
  }

  predicate Distinct(list: seq<string>) {
    forall i, j :: 0 <= i < j < |list| ==> list[i] != list[j]
  }

  /** A list as long as its set has no repetition. */
  lemma {:induction false} NoRepetition(list: seq<string>)
    ensures |(set n | n in list)| <= |list|
    ensures |(set n | n in list)| == |list| ==> Distinct(list)
  {
    if list != [] {
      var init, last := list[..|list| - 1], list[|list| - 1];
      NoRepetition(init);
      assert list == init + [last];
      assert (set n | n in list) == (set n | n in init) + {last};
    }
  }

  lemma {:induction false} CountIsCardinality(list: seq<string>, botName: string)
    requires Distinct(list)
    ensures Silence.CountOthers(list, botName) == |Others(list, botName)|
  {
    if list != [] {
      var init, last := list[..|list| - 1], list[|list| - 1];
      CountIsCardinality(init, botName);
      assert list == init + [last];
      assert last !in init;
      assert Others(list, botName) ==
             Others(init, botName) + if Silence.IsOther(last, botName) then {last} else {};
    }
  }

  lemma SubsetCardinality(a: set<string>, b: set<string>)
    requires a <= b
    ensures |a| <= |b|
  {
    assert b == a + (b - a);
  }

  lemma AttendeesAreNames(ops: seq<Speakers.Op>, k: nat, s: Silence.Sample, t: Silence.Track, botName: string)
    requires Looked(ops, k, s)
    ensures Silence.Observe(t, s, botName).attendees == |Others(s.all, botName)|
    ensures Others(s.all, botName) == Speakers.After(ops[..k]).all - {"", botName}
  {
    assert forall n :: n in (set m | m in s.all) <==> n in s.all;
    NoRepetition(s.all);
    CountIsCardinality(s.all, botName);
  }

  /** The attendee count is that of the names ever seen, so from poll to poll it never goes down. */
  lemma AttendeesNeverDecrease(ops: seq<Speakers.Op>, ks: seq<nat>, h: seq<Silence.Sample>, t: Silence.Track,
                               botName: string, i: nat, j: nat)
    requires Snapshots(ops, ks, h) && i <= j < |h|
    ensures Silence.TrackOf(t, h[..i + 1], botName).attendees <= Silence.TrackOf(t, h[..j + 1], botName).attendees
    ensures ks[i] <= |ops| && Speakers.CanRun(ops[..ks[i]])
    ensures Silence.TrackOf(t, h[..i + 1], botName).attendees == |Speakers.After(ops[..ks[i]]).all - {"", botName}|
  {
    assert Looked(ops, ks[i], h[i]) && Looked(ops, ks[j], h[j]);
    assert h[..i + 1] == h[..i] + [h[i]] && h[..j + 1] == h[..j] + [h[j]];
    Silence.TrackSnoc(t, h[..i], h[i], botName);
    Silence.TrackSnoc(t, h[..j], h[j], botName);
    AttendeesAreNames(ops, ks[i], h[i], Silence.TrackOf(t, h[..i], botName), botName);
    AttendeesAreNames(ops, ks[j], h[j], Silence.TrackOf(t, h[..j], botName), botName);
    KnownLater(ops, ks, h, i, j);
    SubsetCardinality(Others(h[i].all, botName), Others(h[j].all, botName));
  }

  /** AllParticipantsLeft, fed from the manager, is decided only if it never had an event about anybody else. */
  lemma AllLeftMeansNoEvents(ops: seq<Speakers.Op>, ks: seq<nat>, h: seq<Silence.Sample>, cfg: Silence.Config,
                             t: Silence.Track, recordStart: int, now: int, k: nat, name: string)
    requires Snapshots(ops, ks, h) && k < |h| && name != "" && name != cfg.botName
    requires Silence.Verdict(cfg, Silence.TrackOf(t, h, cfg.botName), recordStart, now) == AllParticipantsLeft
    ensures t.joined && Speakers.Latest(ops[..ks[k]], name) == None
  {
    SnapshotsAreCumulative(ops, ks, h);
    Silence.AllParticipantsLeftMeansNobodySeen(cfg, t, h, recordStart, now);
    assert Looked(ops, ks[k], h[k]);
    Speakers.NamesMeaning(ops[..ks[k]], name);
    assert !Silence.AnyOther(h[k].all, cfg.botName);
    InList(h[k].all, name, cfg.botName);
    assert name in (set n | n in h[k].all) <==> name in h[k].all;
  }

  /** It is decided all the same: the join callback fired, the manager never saw anybody, and two minutes passed. */
  lemma AllLeftReached()
    ensures var cfg, t := Silence.Config("bot", 600, 120), Silence.Track(0, true, None, None);
            var h := [Silence.Sample(0, [], [])];
            && Snapshots([], [0], h)
            && Silence.Verdict(cfg, Silence.TrackOf(t, h, "bot"), 0, 120 * 1_000_000_000) == AllParticipantsLeft
  {
    var h := [Silence.Sample(0, [], [])];
    assert Speakers.After([]) == Speakers.EMPTY;
    assert Looked([], 0, h[0]);
    var t := Silence.Track(0, true, None, None);
    assert h == [] + [h[0]];
    Silence.TrackSnoc(t, [], h[0], "bot");
  }

  lemma InList(list: seq<string>, name: string, botName: string)
    requires Silence.IsOther(name, botName) && !Silence.AnyOther(list, botName)
    ensures name !in list
  {
  }

  /**
   NoSpeaker, fed from the manager: at every poll of the last `silenceTimeout` seconds, the latest event about
   anybody else, if there was one, had been that they fell silent.
   */
  lemma NoSpeakerMeansNobodySpeaks(ops: seq<Speakers.Op>, ks: seq<nat>, h: seq<Silence.Sample>, cfg: Silence.Config,
                                   t: Silence.Track, recordStart: int, now: int, k: nat, name: string)
    requires Snapshots(ops, ks, h) && Silence.Unpolled(t) && Silence.InOrder(h)
    requires Silence.Verdict(cfg, Silence.TrackOf(t, h, cfg.botName), recordStart, now) == NoSpeaker
    requires k < |h| && h[k].now > now - cfg.silenceTimeout * 1_000_000_000 && name != "" && name != cfg.botName
    ensures Speakers.Latest(ops[..ks[k]], name) != Some(true)
  {
    Silence.NoSpeakerMeansSilence(cfg, t, h, recordStart, now, k);
    assert Looked(ops, ks[k], h[k]);
    Speakers.NamesMeaning(ops[..ks[k]], name);
    InList(h[k].active, name, cfg.botName);
    assert name in (set n | n in h[k].active) <==> name in h[k].active;
  }
}

/** What a repeated request is told, under any schedule, and when it is told about the same command. */
module CreationRetries {
  import opened Idempotency
  import opened Creation
  import opened CreationReplays
  import opened CreationSweeps
  import opened CreationWorks

  // ---------------------------------------------------------------- under any schedule

  /** How often request `i` makes an access. */
  function Accesses(fs: seq<Event>, i: nat): nat {
    if fs == [] then 0
    else Accesses(fs[..|fs| - 1], i) + if fs[|fs| - 1].Advance? && fs[|fs| - 1].i == i then 1 else 0
  }

  /** Where request `i` can be that found a row with this body hash and owner, after events `fs`. */
  predicate Told409OrReplay(p: Proc, i: nat, hash: string, owner: nat, fs: seq<Event>) {
    if p.stage.Beginning? then Accesses(fs, i) == 0
    else if p.stage.Selecting? then Accesses(fs, i) == 1
    else
      && Accesses(fs, i) <= 2
      && Outcomes(p, i, hash, owner, fs)
  }

  /** How it can end: failing if a store has refused it, crashing, or told by the comparison of the bodies. */
  predicate Outcomes(p: Proc, i: nat, hash: string, owner: nat, fs: seq<Event>) {
    || (p.stage.Failed? && HadTrouble(fs, i))
    || (p.stage.Crashed? && Crash(i) in fs)
    || (p.req.hash != hash && p.stage == Conflicted(owner))
    || (p.req.hash == hash && p.stage == TooEarly(owner))
    || (p.req.hash == hash && p.stage.Replayed? && p.stage.source == owner)
  }

  /** The row of the request's key is still the same but for its response. */
  predicate SameRow(s: System, k: Key, row: Row) {
    k in s.idem && s.idem[k] == row.(response := s.idem[k].response)
  }

  predicate Late(s: System, i: nat, row: Row, fs: seq<Event>) {
    && i < |s.procs|
    && s.procs[i].req.key != ""
    && SameRow(s, KeyOf(s.procs[i].req), row)
    && Told409OrReplay(s.procs[i], i, row.hash, row.owner, fs)
  }

  lemma RowStays(s: System, e: Event, c: Codec, k: Key)
    requires CanStep(s, e) && k in s.idem && s.now <= s.idem[k].expires
    ensures k in Step(s, e, c).idem && s.now <= Step(s, e, c).now
  {
  }

  lemma HistoryGrows(fs: seq<Event>, e: Event, i: nat)
    ensures Accesses(fs + [e], i) == Accesses(fs, i) + if e.Advance? && e.i == i then 1 else 0
    ensures HadTrouble(fs, i) ==> HadTrouble(fs + [e], i)
    ensures e.Advance? && e.i == i && e.o != Done ==> HadTrouble(fs + [e], i)
    ensures Crash(i) in fs || e == Crash(i) ==> Crash(i) in fs + [e]
  {
    assert (fs + [e])[..|fs|] == fs;
    assert e in fs + [e];
  }

  lemma OwnAccess(s: System, i: nat, o: Outcome, c: Codec, row: Row, fs: seq<Event>)
    requires Late(s, i, row, fs) && CanStep(s, Advance(i, o))
    ensures Late(AdvanceStep(s, i, o, c), i, row, fs + [Advance(i, o)])
  {
    HistoryGrows(fs, Advance(i, o), i);
  }

  lemma OthersAccess(s: System, e: Event, c: Codec, i: nat, row: Row, fs: seq<Event>)
    requires Late(s, i, row, fs) && CanStep(s, e) && !(e.Advance? && e.i == i) && s.now <= row.expires
    ensures Late(Step(s, e, c), i, row, fs + [e])
  {
    var k := KeyOf(s.procs[i].req);
    HistoryGrows(fs, e, i);
    RowStays(s, e, c, k);
    RowsAreFixed(s, e, c, k);
    if e.Advance? {
      AdvanceOnlyMoves(s, e.i, e.o, c);
    }
  }

  lemma {:induction false} StaysLate(es: seq<Event>, fs: seq<Event>, i: nat, c: Codec)
    requires CanRun(es, c) && CanRun(es + fs, c) && i < |After(es, c).procs|
    requires var p := After(es, c).procs[i];
             p.stage.Beginning? && p.req.key != "" && KeyOf(p.req) in After(es, c).idem
    requires After(es + fs, c).now <= After(es, c).idem[KeyOf(After(es, c).procs[i].req)].expires
    ensures var s := After(es, c);
            var k := KeyOf(s.procs[i].req);
            && Late(After(es + fs, c), i, s.idem[k], fs)
            && s.now <= After(es + fs, c).now
            && After(es + fs, c).procs[i].req == s.procs[i].req
  {
    var s := After(es, c);
    var row := s.idem[KeyOf(s.procs[i].req)];
    if fs == [] {
      assert es + fs == es;
    } else {
      var init, e := fs[..|fs| - 1], fs[|fs| - 1];
      assert fs == init + [e];
      assert (es + fs)[..|es + fs| - 1] == es + init;
      RunLast(es + fs, c);
      var t := After(es + init, c);
      NowGrows(t, e, c);
      StaysLate(es, init, i, c);
      if e.Advance? {
        AdvanceOnlyMoves(t, e.i, e.o, c);
      }
      if e.Advance? && e.i == i {
        OwnAccess(t, i, e.o, c, row, init);
      } else {
        OthersAccess(t, e, c, i, row, init);
      }
    }
  }

  lemma NowGrows(s: System, e: Event, c: Codec)
    requires CanStep(s, e)
    ensures s.now <= Step(s, e, c).now
  {
  }

  /**
   A request that finds a row of its key, whatever others do until the row expires: it is over after two
   accesses, and unless a store failed one of them or it crashed it was told 409 for another body, and 409 or a
   replay for the same body; and in runs with safe sweeps a replay is the answer of the row's owner.
   */
  lemma RetryUnderAnySchedule(es: seq<Event>, fs: seq<Event>, i: nat, c: Codec)
    requires CanRun(es, c) && CanRun(es + fs, c) && i < |After(es, c).procs|
    requires var p := After(es, c).procs[i];
             p.stage.Beginning? && p.req.key != "" && KeyOf(p.req) in After(es, c).idem
    requires After(es + fs, c).now <= After(es, c).idem[KeyOf(After(es, c).procs[i].req)].expires
    ensures var row := After(es, c).idem[KeyOf(After(es, c).procs[i].req)];
            var t := After(es + fs, c);
            && i < |t.procs| && Accesses(fs, i) <= 2
            && (Accesses(fs, i) == 2 ==> IsOver(t.procs[i].stage))
            && (IsOver(t.procs[i].stage) ==> Outcomes(t.procs[i], i, row.hash, row.owner, fs))
            && (Safe(es + fs, c) && t.procs[i].stage.Replayed? ==>
                  Repeats(t.procs, c, row.owner, t.procs[i].stage.status, t.procs[i].stage.body))
  {
    StaysLate(es, fs, i, c);
    var t := After(es + fs, c);
    if Safe(es + fs, c) {
      SafeHolds(es + fs, c);
      assert ReplaySaid(t.procs, c, t.procs[i]);
    }
  }

  // ---------------------------------------------------------------- the same command

  /** All requests that arrive are among `requests`. */
  predicate From(requests: iset<Request>, es: seq<Event>) {
    forall n :: 0 <= n < |es| && es[n].Arrive? ==> es[n].req in requests
  }

  /** What a request asks for; its dedup hash also tells the minute it arrived in, which a repetition need not share. */
  function Asked(r: Request): Command {
    if r.cmd.Create? then r.cmd.(dedup := "") else r.cmd
  }

  /** Every replay goes back to a request for the same command. */
  ghost predicate SameCommand(s: System) {
    forall i :: 0 <= i < |s.procs| && s.procs[i].stage.Replayed? && s.procs[i].stage.source < |s.procs| ==>
      Asked(s.procs[s.procs[i].stage.source].req) == Asked(s.procs[i].req)
  }

  /** A body hash and a key determine the command. */
  ghost predicate HashDeterminesCommand(requests: iset<Request>) {
    forall a, b :: a in requests && b in requests && Clash(a, b) ==> Asked(a) == Asked(b)
  }

  /** Two requests that share a row and count as repetitions of each other. */
  predicate Clash(a: Request, b: Request) {
    a.key != "" && KeyOf(a) == KeyOf(b) && a.hash == b.hash
  }

  ghost predicate Requested(s: System, requests: iset<Request>) {
    forall i :: 0 <= i < |s.procs| ==> s.procs[i].req in requests
  }

  lemma {:induction false} RequestsComeFrom(es: seq<Event>, requests: iset<Request>, c: Codec)
    requires CanRun(es, c) && From(requests, es)
    ensures Requested(After(es, c), requests)
  {
    if es != [] {
      var init, e := es[..|es| - 1], es[|es| - 1];
      RunLast(es, c);
      assert From(requests, init);
      RequestsComeFrom(init, requests, c);
      if e.Advance? {
        AdvanceOnlyMoves(After(init, c), e.i, e.o, c);
      }
    }
  }

  lemma DeterminedMeansSame(es: seq<Event>, requests: iset<Request>, c: Codec)
    requires CanRun(es, c) && From(requests, es) && HashDeterminesCommand(requests)
    ensures SameCommand(After(es, c))
  {
    CreationReplays.InvHolds(es, c);
    RequestsComeFrom(es, requests, c);
    var s := After(es, c);
    forall i | 0 <= i < |s.procs| && s.procs[i].stage.Replayed? && s.procs[i].stage.source < |s.procs|
      ensures Asked(s.procs[s.procs[i].stage.source].req) == Asked(s.procs[i].req)
    {
      assert Told(s.procs, s.procs[i]);
      assert Clash(s.procs[s.procs[i].stage.source].req, s.procs[i].req);
    }
  }

  lemma StoreAnswer(s: System, c: Codec)
    requires |s.procs| == 1 && s.procs[0].stage.Completing? && Storable(c)
    requires KeyOf(s.procs[0].req) in s.idem
    ensures var k, t := KeyOf(s.procs[0].req), AdvanceStep(s, 0, Done, c);
            && |t.procs| == 1 && t.procs[0].req == s.procs[0].req
            && k in t.idem
            && t.idem[k].hash == s.idem[k].hash && t.idem[k].owner == s.idem[k].owner
            && t.idem[k].response.Some? && t.idem[k].response.value.status != 0
  {
  }

  /** Left to itself with stores that refuse, it gets its answer and stores it. */
  lemma AnswerFirst(a: Request, c: Codec) returns (es: seq<Event>)
    requires a.key != "" && CanStep(BEGIN, Arrive(a)) && Storable(c)
    ensures CanRun([] + es, c) && NoSweeps(es) && From(iset{a}, es)
    ensures var s := After([] + es, c);
            && |s.procs| == 1 && s.procs[0].req == a
            && KeyOf(a) in s.idem
            && s.idem[KeyOf(a)].hash == a.hash && s.idem[KeyOf(a)].owner == 0
            && s.idem[KeyOf(a)].response.Some? && s.idem[KeyOf(a)].response.value.status != 0
  {
    var begun := ReserveFirst(a, c);
    var driven := Drive([], begun, 0, c);
    StoreAnswer(After([] + driven, c), c);
    es := Go([], driven, Advance(0, Done), c);
    NoMoreArrivals(begun, es, iset{a});
  }

  lemma NoMoreArrivals(begun: seq<Event>, es: seq<Event>, requests: iset<Request>)
    requires From(requests, begun) && begun <= es && forall n :: |begun| <= n < |es| ==> es[n].Advance?
    ensures From(requests, es)
  {
  }

  lemma MixedReplay(a: Request, b: Request, c: Codec) returns (es: seq<Event>)
    requires Clash(a, b) && Asked(a) != Asked(b) && Storable(c)
    requires CanStep(BEGIN, Arrive(a)) && CanStep(BEGIN, Arrive(b))
    ensures CanRun(es, c) && Safe(es, c) && From(iset{a, b}, es) && !SameCommand(After(es, c))
  {
    var first := AnswerFirst(a, c);
    es := Repeat([], first, b, c);
    assert [] + es == es;
    StaysSafe([], es, c);
    var t := After(es, c);
    assert t.procs[1].stage.Replayed? && t.procs[1].stage.source == 0;
    assert t.procs[0].req == a && t.procs[1].req == b;
  }

  /**
   The hash covers the body alone, not method and path. For any set of requests that clients may send: in all
   runs with safe sweeps every replay goes back to a request for the same command, if and only if no two of
   them share tenant, key and body hash and ask for different commands.
   */
  lemma SameCommandExactly(requests: iset<Request>, c: Codec)
    requires Storable(c) && forall a :: a in requests ==> CanStep(BEGIN, Arrive(a))
    ensures HashDeterminesCommand(requests) <==>
            forall es :: CanRun(es, c) && Safe(es, c) && From(requests, es) ==> SameCommand(After(es, c))
  {
    if HashDeterminesCommand(requests) {
      forall es | CanRun(es, c) && Safe(es, c) && From(requests, es)
        ensures SameCommand(After(es, c))
      {
        DeterminedMeansSame(es, requests, c);
      }
    } else {
      var a, b :| a in requests && b in requests && Clash(a, b) && Asked(a) != Asked(b);
      var es := MixedReplay(a, b, c);
      assert From(requests, es);
    }
  }

  /** Two such requests: the same body and key, once to start a bot at once and once to schedule it. */
  lemma SharedRowExample(c: Codec, dedup: string)
    requires Storable(c) && |dedup| == HASH_LENGTH
    ensures var a := Request("tenant", "key", "hash", Create(true, false, dedup));
            var b := Request("tenant", "key", "hash", Create(true, true, dedup));
            exists es :: CanRun(es, c) && Safe(es, c) && From(iset{a, b}, es) && !SameCommand(After(es, c))
  {
    var a := Request("tenant", "key", "hash", Create(true, false, dedup));
    var b := Request("tenant", "key", "hash", Create(true, true, dedup));
    var es := MixedReplay(a, b, c);
  }
}

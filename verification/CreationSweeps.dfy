/** Exactly when deleting expired idempotency rows is harmless, and what a retry gets. */
module CreationSweeps {
  import opened Options
  import opened Idempotency
  import opened Creation
  import opened CreationReplays
  import CreationBots

  /** Every reply of the handler can be stored. */
  ghost predicate Storable(c: Codec) {
    forall r: Reply :: BodyColumn(c.render(r), c.norm).Some?
  }

  predicate NoSweeps(ext: seq<Event>) {
    forall n :: 0 <= n < |ext| ==> !ext[n].SweepRows?
  }

  lemma Go(base: seq<Event>, ext: seq<Event>, e: Event, c: Codec) returns (longer: seq<Event>)
    requires CanRun(base + ext, c) && CanStep(After(base + ext, c), e) && NoSweeps(ext) && !e.SweepRows?
    ensures longer == ext + [e] && NoSweeps(longer)
    ensures CanRun(base + longer, c) && After(base + longer, c) == Step(After(base + ext, c), e, c)
  {
    RunSnoc(base + ext, e, c);
    longer := ext + [e];
    assert base + longer == base + ext + [e];
  }

  /** A request whose row exists, until it is over; its stores answer. */
  lemma Repeat(base: seq<Event>, ext: seq<Event>, req: Request, c: Codec) returns (longer: seq<Event>)
    requires CanRun(base + ext, c) && NoSweeps(ext) && CanStep(After(base + ext, c), Arrive(req))
    requires req.key != "" && KeyOf(req) in After(base + ext, c).idem
    ensures CanRun(base + longer, c) && NoSweeps(longer)
    ensures var n := |After(base + ext, c).procs|;
            longer == ext + [Arrive(req), Advance(n, Done), Advance(n, Done)]
    ensures var s := After(base + ext, c);
            After(base + longer, c) ==
            SelectStep(s.(procs := s.procs + [Proc(req, Selecting, false, None)]), |s.procs|, Done)
  {
    var s := After(base + ext, c);
    var n := |s.procs|;
    longer := Go(base, ext, Arrive(req), c);
    assert After(base + longer, c).procs[n] == Proc(req, Beginning, false, None);
    longer := Go(base, longer, Advance(n, Done), c);
    assert After(base + longer, c).procs == s.procs + [Proc(req, Selecting, false, None)];
    longer := Go(base, longer, Advance(n, Done), c);
  }

  /** A request that comes first, with a body that the handler rejects, until it has its answer. */
  lemma ComeFirst(base: seq<Event>, ext: seq<Event>, req: Request, c: Codec) returns (longer: seq<Event>)
    requires CanRun(base + ext, c) && NoSweeps(ext)
    requires req.cmd == Invalid && req.key != "" && KeyOf(req) !in After(base + ext, c).idem
    ensures CanRun(base + longer, c) && NoSweeps(longer)
    ensures var s := After(base + ext, c);
            After(base + longer, c) ==
            s.(procs := s.procs + [Proc(req, Completing(BadRequest), true, None)],
               idem := Insert(s.idem, KeyOf(req), req.hash, s.now, |s.procs|))
  {
    var s := After(base + ext, c);
    var n := |s.procs|;
    longer := Go(base, ext, Arrive(req), c);
    assert After(base + longer, c).procs[n] == Proc(req, Beginning, false, None);
    longer := Go(base, longer, Advance(n, Done), c);
    assert After(base + longer, c).procs == s.procs + [Proc(req, Completing(BadRequest), true, None)];
  }

  function Rank(st: Stage): nat {
    if st.Checking? || st.Enqueuing? then 2 else if st.Inserting? || st.Locking? then 1 else 0
  }

  /** With stores that refuse, a handler at work comes to its answer and leaves the rows alone. */
  lemma Drive(base: seq<Event>, ext: seq<Event>, i: nat, c: Codec) returns (longer: seq<Event>)
    requires CanRun(base + ext, c) && NoSweeps(ext) && i < |After(base + ext, c).procs|
    requires var p := After(base + ext, c).procs[i]; p.first && Active(p.stage)
    ensures CanRun(base + longer, c) && NoSweeps(longer)
    ensures var s, t := After(base + ext, c), After(base + longer, c);
            && t.idem == s.idem
            && OnlyMoved(s, t, i)
            && t.procs[i].stage.Completing?
    ensures ext <= longer && forall n :: |ext| <= n < |longer| ==> longer[n].Advance?
    decreases Rank(After(base + ext, c).procs[i].stage)
  {
    longer := ext;
    var s := After(base + ext, c);
    if !s.procs[i].stage.Completing? {
      CreationBots.InvHolds(base + ext, c);
      assert CreationBots.ProcInv(s.bots, s.jobs, s.procs[i], i);
      longer := Go(base, ext, Advance(i, Refused), c);
      DriveStep(s, i, c);
      longer := Drive(base, longer, i, c);
    }
  }

  lemma DriveStep(s: System, i: nat, c: Codec)
    requires CanStep(s, Advance(i, Refused)) && s.procs[i].first && InHandler(s.procs[i].stage)
    ensures var t := AdvanceStep(s, i, Refused, c);
            && t.idem == s.idem
            && OnlyMoved(s, t, i)
            && Active(t.procs[i].stage)
            && Rank(t.procs[i].stage) < Rank(s.procs[i].stage)
  {
  }

  /** The handler of request `i` answers into the row that request `n` has reserved. */
  lemma AnswersIntoRow(s: System, i: nat, n: nat, c: Codec)
    requires Storable(c) && i < n < |s.procs| && s.procs[i].stage.Completing? && s.procs[n].stage.Completing?
    requires var k := KeyOf(s.procs[i].req); k in s.idem && s.idem[k].owner == n
    ensures var k, t := KeyOf(s.procs[i].req), AdvanceStep(s, i, Done, c);
            && k in t.idem && t.idem[k].hash == s.idem[k].hash && t.idem[k].owner == n
            && t.idem[k].response.Some? && t.idem[k].response.value.status != 0
            && n < |t.procs| && t.procs[n].stage.Completing?
  {
  }

  /** A handler whose row is gone can answer into the row of another request, */
  lemma Overwrite(base: seq<Event>, i: nat, c: Codec) returns (ext: seq<Event>, req: Request)
    requires CanRun(base, c) && Storable(c) && i < |After(base, c).procs|
    requires var p := After(base, c).procs[i]; p.first && Active(p.stage) && KeyOf(p.req) !in After(base, c).idem
    requires After(base, c).procs[i].req.key != ""
    ensures NoSweeps(ext) && CanRun(base + ext, c)
    ensures var t := After(base + ext, c);
            && req.key != "" && req.cmd == Invalid && KeyOf(req) in t.idem
            && t.idem[KeyOf(req)].response.Some?
            && t.idem[KeyOf(req)].response.value.status != 0
            && t.idem[KeyOf(req)].hash == req.hash
            && t.idem[KeyOf(req)].owner < |t.procs|
            && t.procs[t.idem[KeyOf(req)].owner].stage.Completing?
  {
    assert base + [] == base;
    ext := Drive(base, [], i, c);
    var p := After(base + ext, c).procs[i];
    req := Request(p.req.tenant, p.req.key, p.req.hash + "0", Invalid);
    var n := |After(base + ext, c).procs|;
    ext := ComeFirst(base, ext, req, c);
    AnswersIntoRow(After(base + ext, c), i, n, c);
    ext := Go(base, ext, Advance(i, Done), c);
  }

  /** which is then replayed to a repetition of the latter. */
  lemma Misreplay(base: seq<Event>, i: nat, c: Codec) returns (ext: seq<Event>)
    requires CanRun(base, c) && Storable(c) && i < |After(base, c).procs|
    requires var p := After(base, c).procs[i]; p.first && Active(p.stage) && KeyOf(p.req) !in After(base, c).idem
    requires After(base, c).procs[i].req.key != ""
    ensures NoSweeps(ext) && CanRun(base + ext, c) && !Faithful(After(base + ext, c), c)
  {
    var req;
    ext, req := Overwrite(base, i, c);
    var n := |After(base + ext, c).procs|;
    ext := Repeat(base, ext, req, c);
    var v := After(base + ext, c);
    assert !ReplaySaid(v.procs, c, v.procs[n]);
  }

  lemma {:induction false} StaysSafe(es: seq<Event>, ext: seq<Event>, c: Codec)
    requires CanRun(es, c) && Safe(es, c) && CanRun(es + ext, c) && NoSweeps(ext)
    ensures Safe(es + ext, c)
  {
    var all := es + ext;
    if ext == [] {
      assert all == es;
    } else {
      RunLast(all, c);
      assert all[..|all| - 1] == es + ext[..|ext| - 1];
      StaysSafe(es, ext[..|ext| - 1], c);
    }
  }

  /**
   Deleting the expired rows is harmless exactly if none of them belongs to a handler still at work: if
   one does, some continuation replays to a client an answer that its own first request never gave.
   */
  lemma SafeSweepExactly(es: seq<Event>, c: Codec)
    requires CanRun(es, c) && Safe(es, c) && Storable(c)
    ensures CanRun(es + [SweepRows], c)
    ensures SweepIsSafe(After(es, c)) <==>
            forall ext :: NoSweeps(ext) && CanRun(es + [SweepRows] + ext, c) ==>
              Faithful(After(es + [SweepRows] + ext, c), c)
  {
    RunSnoc(es, SweepRows, c);
    var s, base := After(es, c), es + [SweepRows];
    SafeHolds(es, c);
    if SweepIsSafe(s) {
      forall ext | NoSweeps(ext) && CanRun(base + ext, c)
        ensures Faithful(After(base + ext, c), c)
      {
        assert base[..|base| - 1] == es;
        StaysSafe(base, ext, c);
        SafeHolds(base + ext, c);
      }
    } else {
      var k :| k in s.idem && s.idem[k].expires < s.now && s.idem[k].owner < |s.procs| &&
               Active(s.procs[s.idem[k].owner].stage);
      assert Reserved(s.procs, k, s.idem[k].hash, s.idem[k].owner);
      var ext := Misreplay(base, s.idem[k].owner, c);
    }
  }

  /** The system once the first request has reserved its row. */
  function Reserving(req: Request): System {
    System(0, Insert(map[], KeyOf(req), req.hash, 0, 0), [], multiset{}, map[],
           [Entry(Proc(req, Beginning, true, None))])
  }

  lemma FirstSteps(req: Request, c: Codec)
    requires req.key != "" && CanStep(BEGIN, Arrive(req))
    ensures var s := Step(BEGIN, Arrive(req), c);
            CanStep(s, Advance(0, Done)) && Step(s, Advance(0, Done), c) == Reserving(req)
    ensures Active(Reserving(req).procs[0].stage) && Reserving(req).procs[0].first
    ensures Reserving(req).procs[0].req == req
  {
  }

  lemma TwoEvents(e: Event, f: Event, c: Codec)
    requires CanStep(BEGIN, e) && CanStep(Step(BEGIN, e, c), f)
    ensures CanRun([e, f], c) && After([e, f], c) == Step(Step(BEGIN, e, c), f, c)
  {
    var none: seq<Event> := [];
    RunSnoc(none, e, c);
    assert none + [e] == [e];
    RunSnoc([e], f, c);
    assert [e] + [f] == [e, f];
  }

  lemma ReserveFirst(req: Request, c: Codec) returns (es: seq<Event>)
    requires req.key != "" && CanStep(BEGIN, Arrive(req))
    ensures es == [Arrive(req), Advance(0, Done)]
    ensures CanRun([] + es, c) && After([] + es, c) == Reserving(req)
    ensures Active(Reserving(req).procs[0].stage) && Reserving(req).procs[0].first
    ensures Reserving(req).procs[0].req == req
  {
    FirstSteps(req, c);
    TwoEvents(Arrive(req), Advance(0, Done), c);
    es := [Arrive(req), Advance(0, Done)];
    assert [] + es == es;
  }

  lemma ReservingIsUnsafe(req: Request, now: int)
    requires Active(Reserving(req).procs[0].stage) && now > DAY
    ensures !SweepIsSafe(Reserving(req).(now := now))
  {
    var s := Reserving(req).(now := now);
    assert KeyOf(req) in s.idem && s.idem[KeyOf(req)].owner == 0;
  }

  /** The guard can fail: a handler that takes longer than a day, for any request with a key. */
  lemma UnsafeSweepReached(req: Request, c: Codec)
    requires req.key != "" && CanStep(BEGIN, Arrive(req))
    ensures var es := [Arrive(req), Advance(0, Done), Wait(DAY + 1)];
            CanRun(es, c) && Safe(es, c) && !SweepIsSafe(After(es, c))
  {
    var begun := ReserveFirst(req, c);
    var es := Go([], begun, Wait(DAY + 1), c);
    ReservingIsUnsafe(req, DAY + 1);
    assert [] + es == es == [Arrive(req), Advance(0, Done), Wait(DAY + 1)];
    StaysSafe([], es, c);
  }

  /** If nobody else acts, a repeated request whose row lives is over after its arrival and two accesses. */
  lemma RetryIsAnswered(es: seq<Event>, req: Request, c: Codec) returns (ext: seq<Event>)
    requires CanRun(es, c) && Safe(es, c) && CanStep(After(es, c), Arrive(req))
    requires req.key != "" && KeyOf(req) in After(es, c).idem
    ensures NoSweeps(ext) && CanRun(es + ext, c) && |After(es + ext, c).procs| == |After(es, c).procs| + 1
    ensures var n := |After(es, c).procs|; ext == [Arrive(req), Advance(n, Done), Advance(n, Done)]
    ensures var t := After(es + ext, c);
            var row, st := After(es, c).idem[KeyOf(req)], t.procs[|t.procs| - 1].stage;
            && t.idem == After(es, c).idem
            && (row.hash != req.hash ==> st == Conflicted(row.owner))
            && (row.hash == req.hash && row.response.None? ==> st == TooEarly(row.owner))
            && (row.hash == req.hash && row.response.Some? ==>
                  st.Replayed? && Repeats(t.procs, c, row.owner, st.status, st.body))
  {
    assert es + [] == es;
    ext := Repeat(es, [], req, c);
    StaysSafe(es, ext, c);
    SafeHolds(es, c);
    SafeHolds(es + ext, c);
    var s, t := After(es, c), After(es + ext, c);
    var row, n := s.idem[KeyOf(req)], |s.procs|;
    assert RowSaid(s.procs, c, row);
    assert ReplaySaid(t.procs, c, t.procs[n]);
  }
}

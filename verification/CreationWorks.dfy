/** What is meant to happen does: requests are served, and dedup entries are found. */
module CreationWorks {
  import opened Options
  import opened Idempotency
  import opened Creation
  import opened CreationBots
  import CreationReplays
  import CreationSweeps

  // ---------------------------------------------------------------- dedup entries

  /** The entry for this tenant and dedup hash names bot `b`. */
  predicate Locked(s: System, tenant: string, dedup: string, b: nat) {
    var name := "dedup:" + tenant + ":" + dedup;
    name in s.dedup && s.dedup[name] == b
  }

  /** A SET of the same entry can only name the same bot. */
  lemma SameEntry(s: System, i: nat, b: nat, tenant: string, dedup: string)
    requires CreationBots.Inv(s) && i < |s.procs| && s.procs[i].stage.Locking? && s.procs[i].req.cmd.Create?
    requires Locked(s, tenant, dedup, b) && |dedup| == HASH_LENGTH
    requires DedupKey(s.procs[i].req.tenant, s.procs[i].req.cmd.dedup) == DedupKey(tenant, dedup)
    ensures s.procs[i].stage.id == b
  {
    var p, id := s.procs[i], s.procs[i].stage.id;
    var name := DedupKey(tenant, dedup);
    assert ProcInv(s.bots, s.jobs, p, i);
    assert BotInv(s.procs, s.jobs, s.bots[id], id);
    assert DedupInv(s.bots, name, s.dedup[name]);
    DedupKeyInjective(p.req.tenant, p.req.cmd.dedup, tenant, dedup);
    DedupKeyInjective(s.bots[b].tenant, s.bots[b].dedup, tenant, dedup);
    assert SameDedup(s.bots[b], s.bots[id]);
  }

  /** An entry goes only when Redis drops it. */
  lemma EntryStays(s: System, e: Event, c: Codec, tenant: string, dedup: string, b: nat)
    requires CreationBots.Inv(s) && CanStep(s, e) && Locked(s, tenant, dedup, b) && |dedup| == HASH_LENGTH
    requires e != Forget("dedup:" + tenant + ":" + dedup)
    ensures Locked(Step(s, e, c), tenant, dedup, b)
  {
    if e.Advance? && s.procs[e.i].stage.Locking? {
      var p := s.procs[e.i];
      assert ProcInv(s.bots, s.jobs, p, e.i);
      if DedupKey(p.req.tenant, p.req.cmd.dedup) == DedupKey(tenant, dedup) {
        SameEntry(s, e.i, b, tenant, dedup);
      }
    } else if e.Advance? {
      OtherAccessKeepsEntries(s, e.i, e.o, c);
    }
  }

  lemma OtherAccessKeepsEntries(s: System, i: nat, o: Outcome, c: Codec)
    requires CanStep(s, Advance(i, o)) && !s.procs[i].stage.Locking?
    ensures AdvanceStep(s, i, o, c).dedup == s.dedup
  {
  }

  lemma {:induction false} EntryHolds(es: seq<Event>, fs: seq<Event>, c: Codec, tenant: string, dedup: string, b: nat)
    requires CanRun(es, c) && CanRun(es + fs, c) && Locked(After(es, c), tenant, dedup, b) && |dedup| == HASH_LENGTH
    requires Forget("dedup:" + tenant + ":" + dedup) !in fs
    ensures Locked(After(es + fs, c), tenant, dedup, b)
  {
    if fs == [] {
      assert es + fs == es;
    } else {
      var init, e := fs[..|fs| - 1], fs[|fs| - 1];
      assert fs == init + [e];
      assert (es + fs)[..|es + fs| - 1] == es + init;
      RunLast(es + fs, c);
      EntryHolds(es, init, c, tenant, dedup, b);
      CreationBots.InvHolds(es + init, c);
      EntryStays(After(es + init, c), e, c, tenant, dedup, b);
    }
  }

  /** The request is answered at this access. */
  predicate AnsweredBy(s: System, t: System, i: nat, r: Reply)
    requires i < |s.procs| && i < |t.procs|
  {
    !HasReply(s.procs[i].stage) && HasReply(t.procs[i].stage) && t.procs[i].stage.reply == r
  }

  /** The access that answers Created to a request that does not allow multiple bots writes the entry, if it works. */
  lemma CreatedIsLocked(es: seq<Event>, i: nat, o: Outcome, b: nat, c: Codec)
    requires CanRun(es, c) && CanStep(After(es, c), Advance(i, o)) && o != Refused
    requires var req := After(es, c).procs[i].req; req.cmd.Create? && !req.cmd.allowMultiple
    requires i < |Step(After(es, c), Advance(i, o), c).procs|
    requires AnsweredBy(After(es, c), Step(After(es, c), Advance(i, o), c), i, Created(b))
    ensures var req := After(es, c).procs[i].req;
            Locked(Step(After(es, c), Advance(i, o), c), req.tenant, req.cmd.dedup, b)
  {
    CreationBots.InvHolds(es, c);
    var s := After(es, c);
    assert ProcInv(s.bots, s.jobs, s.procs[i], i);
    OnlyLockingCreates(s, i, o, b, c);
  }

  lemma OnlyLockingCreates(s: System, i: nat, o: Outcome, b: nat, c: Codec)
    requires CanStep(s, Advance(i, o)) && s.procs[i].req.cmd.Create? && !s.procs[i].req.cmd.allowMultiple
    requires i < |AdvanceStep(s, i, o, c).procs| && AnsweredBy(s, AdvanceStep(s, i, o, c), i, Created(b))
    ensures s.procs[i].stage == Locking(b)
  {
  }

  /**
   Duplicates are answered: once a request that does not allow multiple bots has been told that it created bot `b`,
   its SET having gone through, and as long as Redis does not drop that entry, whatever else happens, every request of
   the same tenant with the same dedup hash and the same wish is told, if its GET is answered, that `b` exists.
   */
  lemma DuplicateIsAnswered(es: seq<Event>, i: nat, o: Outcome, b: nat, fs: seq<Event>, j: nat, c: Codec)
    requires CanRun(es, c) && CanStep(After(es, c), Advance(i, o)) && o != Refused
    requires var req := After(es, c).procs[i].req; req.cmd.Create? && !req.cmd.allowMultiple
    requires i < |Step(After(es, c), Advance(i, o), c).procs|
    requires AnsweredBy(After(es, c), Step(After(es, c), Advance(i, o), c), i, Created(b))
    requires CanRun(es + [Advance(i, o)] + fs, c)
    requires var req := After(es, c).procs[i].req; Forget("dedup:" + req.tenant + ":" + req.cmd.dedup) !in fs
    requires j < |After(es + [Advance(i, o)] + fs, c).procs|
    requires var req, p := After(es, c).procs[i].req, After(es + [Advance(i, o)] + fs, c).procs[j];
             p.stage.Checking? && p.req.cmd.Create? && p.req.tenant == req.tenant && p.req.cmd.dedup == req.cmd.dedup
    ensures var s := After(es + [Advance(i, o)] + fs, c);
            && CanStep(s, Advance(j, Done))
            && j < |Step(s, Advance(j, Done), c).procs|
            && AnsweredBy(s, Step(s, Advance(j, Done), c), j, Existing(b))
  {
    var req := After(es, c).procs[i].req;
    CreationBots.InvHolds(es, c);
    assert ProcInv(After(es, c).bots, After(es, c).jobs, After(es, c).procs[i], i);
    CreatedIsLocked(es, i, o, b, c);
    RunSnoc(es, Advance(i, o), c);
    EntryHolds(es + [Advance(i, o)], fs, c, req.tenant, req.cmd.dedup, b);
  }

  /** A dedup entry that cannot be read counts as none: the request goes on to the INSERT, and nothing has changed. */
  lemma UnreadEntryIsNone(s: System, i: nat, o: Outcome, c: Codec)
    requires CanStep(s, Advance(i, o)) && s.procs[i].stage.Checking? && o != Done
    ensures var t := Step(s, Advance(i, o), c);
            t == s.(procs := t.procs) && t.procs == s.procs[i := s.procs[i].(stage := Inserting)]
  {
  }

  // ---------------------------------------------------------------- a request left to itself

  /** A request whose key, if it has one, is free. */
  predicate IsFresh(s: System, req: Request) {
    req.key == "" || KeyOf(req) !in s.idem
  }

  /** The rows after it has reserved its own. */
  function ReservedRows(s: System, req: Request): Table {
    if req.key == "" then s.idem
    else s.idem[(req.tenant, req.key) := Row(req.hash, None, s.now + 86_400, |s.procs|)]
  }

  /** The request on its way, at this stage and with this bot. */
  function OnItsWay(req: Request, stage: Stage, bot: Option<nat>): Proc {
    Proc(req, stage, req.key != "", bot)
  }

  lemma OneMore(base: seq<Event>, ext: seq<Event>, e: Event, c: Codec) returns (longer: seq<Event>)
    requires CanRun(base + ext, c) && CanStep(After(base + ext, c), e)
    ensures longer == ext + [e]
    ensures CanRun(base + longer, c) && After(base + longer, c) == Step(After(base + ext, c), e, c)
  {
    RunSnoc(base + ext, e, c);
    longer := ext + [e];
    assert base + longer == base + ext + [e];
  }

  lemma EnterSteps(s: System, req: Request, c: Codec)
    requires CanStep(s, Arrive(req)) && req.cmd.Create? && IsFresh(s, req)
    ensures var u, n := Step(s, Arrive(req), c), |s.procs|;
            && CanStep(u, Advance(n, Done))
            && var stage := if req.cmd.allowMultiple then Inserting else Checking;
               Step(u, Advance(n, Done), c) ==
               s.(idem := ReservedRows(s, req), procs := s.procs + [OnItsWay(req, stage, None)])
  {
    var u, n := Step(s, Arrive(req), c), |s.procs|;
    assert u.procs[n] == Proc(req, Beginning, false, None);
    var stage := if req.cmd.allowMultiple then Inserting else Checking;
    assert u.procs[n := OnItsWay(req, stage, None)] == s.procs + [OnItsWay(req, stage, None)];
  }

  /** Into the handler. */
  lemma Enter(es: seq<Event>, req: Request, c: Codec) returns (ext: seq<Event>)
    requires CanRun(es, c) && CanStep(After(es, c), Arrive(req)) && req.cmd.Create? && IsFresh(After(es, c), req)
    ensures ext == [Arrive(req), Advance(|After(es, c).procs|, Done)] && CanRun(es + ext, c)
    ensures var s := After(es, c);
            var stage := if req.cmd.allowMultiple then Inserting else Checking;
            After(es + ext, c) == s.(idem := ReservedRows(s, req), procs := s.procs + [OnItsWay(req, stage, None)])
  {
    var s := After(es, c);
    assert es + [] == es;
    EnterSteps(s, req, c);
    ext := OneMore(es, [], Arrive(req), c);
    ext := OneMore(es, ext, Advance(|s.procs|, Done), c);
  }

  /** A duplicate that arrives while the entry is there: it is told so at its third event. */
  lemma DuplicateRequest(es: seq<Event>, req: Request, b: nat, c: Codec) returns (ext: seq<Event>)
    requires CanRun(es, c) && CanStep(After(es, c), Arrive(req)) && IsFresh(After(es, c), req)
    requires req.cmd.Create? && !req.cmd.allowMultiple && Locked(After(es, c), req.tenant, req.cmd.dedup, b)
    ensures var n := |After(es, c).procs|;
            && ext == [Arrive(req), Advance(n, Done), Advance(n, Done)]
            && CanRun(es + ext, c)
            && n < |After(es + ext, c).procs|
            && Says(After(es + ext, c), n, Existing(b))
            && After(es + ext, c).bots == After(es, c).bots && After(es + ext, c).jobs == After(es, c).jobs
  {
    ext := Enter(es, req, c);
    ext := OneMore(es, ext, Advance(|After(es, c).procs|, Done), c);
  }

  /** The bot that a request asks for. */
  function AskedBot(req: Request, creator: nat): Bot
    requires req.cmd.Create?
  {
    Bot(req.tenant, req.key, if req.cmd.allowMultiple then "" else req.cmd.dedup, req.cmd.allowMultiple, creator)
  }

  /** A bot of the same tenant that holds the key of a request, or its dedup hash if neither allows multiple bots. */
  predicate Holds(bot: Bot, req: Request)
    requires req.cmd.Create?
  {
    && bot.tenant == req.tenant
    && (|| (req.key != "" && bot.key == req.key)
        || (!req.cmd.allowMultiple && !bot.allowMultiple && req.cmd.dedup != "" && bot.dedup == req.cmd.dedup))
  }

  /** Nothing stands in its way: no bot with its key or dedup hash, and no dedup entry. */
  predicate IsClear(s: System, req: Request)
    requires req.cmd.Create?
  {
    && (forall k :: 0 <= k < |s.bots| ==> !Holds(s.bots[k], req))
    && (!req.cmd.allowMultiple ==> "dedup:" + req.tenant + ":" + req.cmd.dedup !in s.dedup)
  }

  /** System `s` with a new request at this stage, and what it has left in the tables so far. */
  function Served(s: System, req: Request, stage: Stage, bot: Option<nat>, made: System): System {
    made.(now := s.now, idem := ReservedRows(s, req), procs := s.procs + [OnItsWay(req, stage, bot)])
  }

  function AnswerStage(req: Request, b: nat): Stage {
    if req.key == "" then Answered(Created(b)) else Completing(Created(b))
  }

  function AfterJob(req: Request, b: nat): Stage
    requires req.cmd.Create?
  {
    if req.cmd.allowMultiple then AnswerStage(req, b) else Locking(b)
  }

  lemma CheckPasses(s: System, req: Request, c: Codec)
    requires req.cmd.Create? && !req.cmd.allowMultiple && IsClear(s, req)
    ensures var n, u := |s.procs|, Served(s, req, Checking, None, s);
            CanStep(u, Advance(n, Done)) && Step(u, Advance(n, Done), c) == Served(s, req, Inserting, None, s)
  {
    var n, u := |s.procs|, Served(s, req, Checking, None, s);
    assert u.procs[n := OnItsWay(req, Inserting, None)] == s.procs + [OnItsWay(req, Inserting, None)];
  }

  lemma InsertPasses(s: System, req: Request, c: Codec)
    requires req.cmd.Create? && IsClear(s, req)
    ensures var n, b, u := |s.procs|, |s.bots|, Served(s, req, Inserting, None, s);
            var stage := if req.cmd.scheduled then AfterJob(req, b) else Enqueuing(b);
            && CanStep(u, Advance(n, Done))
            && Step(u, Advance(n, Done), c) ==
               Served(s, req, stage, Some(b), s.(bots := s.bots + [AskedBot(req, n)]))
  {
    var n, b, u := |s.procs|, |s.bots|, Served(s, req, Inserting, None, s);
    var stage := if req.cmd.scheduled then AfterJob(req, b) else Enqueuing(b);
    forall k | 0 <= k < |s.bots|
      ensures !SameKey(s.bots[k], BotOf(req, n)) && !SameDedup(s.bots[k], BotOf(req, n))
    {
      assert !Holds(s.bots[k], req);
    }
    assert !Clashes(s.bots, BotOf(req, n));
    assert u.procs[n := OnItsWay(req, stage, Some(b))] == s.procs + [OnItsWay(req, stage, Some(b))];
  }

  lemma EnqueuePasses(s: System, made: System, req: Request, b: nat, c: Codec)
    requires req.cmd.Create?
    ensures var n, u := |s.procs|, Served(s, req, Enqueuing(b), Some(b), made);
            && CanStep(u, Advance(n, Done))
            && Step(u, Advance(n, Done), c) ==
               Served(s, req, AfterJob(req, b), Some(b), made.(jobs := made.jobs + multiset{b}))
  {
    var n, u := |s.procs|, Served(s, req, Enqueuing(b), Some(b), made);
    var stage := AfterJob(req, b);
    assert u.procs[n := OnItsWay(req, stage, Some(b))] == s.procs + [OnItsWay(req, stage, Some(b))];
  }

  lemma LockPasses(s: System, made: System, req: Request, b: nat, c: Codec)
    requires req.cmd.Create? && !req.cmd.allowMultiple
    ensures var n, u := |s.procs|, Served(s, req, Locking(b), Some(b), made);
            && CanStep(u, Advance(n, Done))
            && Step(u, Advance(n, Done), c) ==
               Served(s, req, AnswerStage(req, b), Some(b),
                      made.(dedup := made.dedup["dedup:" + req.tenant + ":" + req.cmd.dedup := b]))
  {
    var n, u := |s.procs|, Served(s, req, Locking(b), Some(b), made);
    var stage := AnswerStage(req, b);
    assert u.procs[n := OnItsWay(req, stage, Some(b))] == s.procs + [OnItsWay(req, stage, Some(b))];
  }

  lemma CompletePasses(s: System, made: System, req: Request, b: nat, c: Codec)
    requires req.cmd.Create? && req.key != "" && CreationSweeps.Storable(c)
    ensures var n, u := |s.procs|, Served(s, req, Completing(Created(b)), Some(b), made);
            && CanStep(u, Advance(n, Done))
            && var text := BodyColumn(c.render(Created(b)), c.norm).value;
               var row := Row(req.hash, Some(Stored(201, text)), s.now + 86_400, n);
               Step(u, Advance(n, Done), c) ==
               Served(s, req, Answered(Created(b)), Some(b), made).(idem := s.idem[(req.tenant, req.key) := row])
  {
    var n, u := |s.procs|, Served(s, req, Completing(Created(b)), Some(b), made);
    assert u.procs[n := OnItsWay(req, Answered(Created(b)), Some(b))] ==
           s.procs + [OnItsWay(req, Answered(Created(b)), Some(b))];
    var text := BodyColumn(c.render(Created(b)), c.norm).value;
    var row := Row(req.hash, Some(Stored(201, text)), s.now + 86_400, n);
    var k := (req.tenant, req.key);
    assert ReservedRows(s, req)[k := row] == s.idem[k := row];
  }

  /** What a request for a bot leaves of the tables when nothing stands in its way. */
  function MadeBy(s: System, req: Request): System
    requires req.cmd.Create?
  {
    s.(bots := s.bots + [AskedBot(req, |s.procs|)],
       jobs := if req.cmd.scheduled then s.jobs else s.jobs + multiset{|s.bots|},
       dedup := if req.cmd.allowMultiple then s.dedup
                else s.dedup["dedup:" + req.tenant + ":" + req.cmd.dedup := |s.bots|])
  }

  /** Through the handler, its stores answering. */
  lemma HandleUndisturbed(es: seq<Event>, req: Request, c: Codec) returns (ext: seq<Event>)
    requires CanRun(es, c) && CanStep(After(es, c), Arrive(req)) && req.cmd.Create?
    requires IsFresh(After(es, c), req) && IsClear(After(es, c), req)
    ensures CanRun(es + ext, c)
    ensures var s := After(es, c);
            After(es + ext, c) == Served(s, req, AnswerStage(req, |s.bots|), Some(|s.bots|), MadeBy(s, req))
  {
    var s := After(es, c);
    var n, b := |s.procs|, |s.bots|;
    var made := s.(bots := s.bots + [AskedBot(req, n)]);
    ext := Enter(es, req, c);
    if !req.cmd.allowMultiple {
      CheckPasses(s, req, c);
      ext := OneMore(es, ext, Advance(n, Done), c);
    }
    InsertPasses(s, req, c);
    ext := OneMore(es, ext, Advance(n, Done), c);
    if !req.cmd.scheduled {
      EnqueuePasses(s, made, req, b, c);
      ext := OneMore(es, ext, Advance(n, Done), c);
      made := made.(jobs := made.jobs + multiset{b});
    }
    if !req.cmd.allowMultiple {
      LockPasses(s, made, req, b, c);
      ext := OneMore(es, ext, Advance(n, Done), c);
    }
  }

  /** System `t` is `s` after request `req` for a bot has been served. */
  predicate HasServed(s: System, t: System, req: Request, c: Codec)
    requires req.cmd.Create? && BodyColumn(c.render(Created(|s.bots|)), c.norm).Some?
  {
    var n, b := |s.procs|, |s.bots|;
    && |t.procs| == n + 1 && t.procs[n].stage == Answered(Created(b))
    && t.bots == s.bots + [AskedBot(req, n)]
    && t.jobs == (if req.cmd.scheduled then s.jobs else s.jobs + multiset{b})
    && t.dedup == (if req.cmd.allowMultiple then s.dedup
                   else s.dedup["dedup:" + req.tenant + ":" + req.cmd.dedup := b])
    && var text := BodyColumn(c.render(Created(b)), c.norm).value;
       var row := Row(req.hash, Some(Stored(201, text)), s.now + 86_400, n);
       t.idem == if req.key == "" then s.idem else s.idem[(req.tenant, req.key) := row]
  }

  lemma AnsweredWithoutKey(s: System, req: Request, c: Codec)
    requires req.cmd.Create? && req.key == "" && CreationSweeps.Storable(c)
    ensures HasServed(s, Served(s, req, AnswerStage(req, |s.bots|), Some(|s.bots|), MadeBy(s, req)), req, c)
  {
  }

  lemma AnsweredWithKey(s: System, req: Request, c: Codec)
    requires req.cmd.Create? && req.key != "" && CreationSweeps.Storable(c)
    ensures var n, b := |s.procs|, |s.bots|;
            var text := BodyColumn(c.render(Created(b)), c.norm).value;
            var row := Row(req.hash, Some(Stored(201, text)), s.now + 86_400, n);
            HasServed(s, Served(s, req, Answered(Created(b)), Some(b), MadeBy(s, req)).(
                           idem := s.idem[(req.tenant, req.key) := row]), req, c)
  {
  }

  /**
   A request for a bot with a fresh key, no bot in its way and its stores answering, left to itself, from any reachable
   system: it is told Created, the bot is as asked for, its job is in the stream unless it is scheduled, its dedup entry
   is set unless it allows multiple, and its answer is stored under its key, for a day, to be replayed.
   */
  lemma FreshRequestCreates(es: seq<Event>, req: Request, c: Codec) returns (ext: seq<Event>)
    requires CanRun(es, c) && CanStep(After(es, c), Arrive(req)) && req.cmd.Create? && CreationSweeps.Storable(c)
    requires IsFresh(After(es, c), req) && IsClear(After(es, c), req)
    ensures CanRun(es + ext, c) && HasServed(After(es, c), After(es + ext, c), req, c)
  {
    var s := After(es, c);
    ext := HandleUndisturbed(es, req, c);
    if req.key == "" {
      AnsweredWithoutKey(s, req, c);
    } else {
      CompletePasses(s, MadeBy(s, req), req, |s.bots|, c);
      AnsweredWithKey(s, req, c);
      ext := OneMore(es, ext, Advance(|s.procs|, Done), c);
    }
  }

  // ---------------------------------------------------------------- what a 500 means

  /** A store has refused an access of request `i`, or lost its answer. */
  predicate HadTrouble(es: seq<Event>, i: nat) {
    Advance(i, Refused) in es || Advance(i, Lost) in es
  }

  /** Who has not arrived has had no trouble. */
  lemma {:induction false} NoTroubleYet(es: seq<Event>, c: Codec, i: nat)
    requires CanRun(es, c) && i >= |After(es, c).procs|
    ensures !HadTrouble(es, i)
  {
    if es != [] {
      var init, e := es[..|es| - 1], es[|es| - 1];
      RunLast(es, c);
      assert es == init + [e];
      if e.Advance? {
        CreationReplays.AdvanceOnlyMoves(After(init, c), e.i, e.o, c);
      }
      NoTroubleYet(init, c, i);
    }
  }

  /** Another request's bot has the key or the dedup hash of request `i`. */
  predicate IsTaken(s: System, i: nat)
    requires i < |s.procs| && s.procs[i].req.cmd.Create?
  {
    exists k :: 0 <= k < |s.bots| && Holds(s.bots[k], s.procs[i].req)
  }

  /** Why request `i` was told ServerError. */
  predicate Excused(s: System, i: nat, es: seq<Event>)
    requires i < |s.procs|
  {
    HasReply(s.procs[i].stage) && s.procs[i].stage.reply == ServerError ==>
      HadTrouble(es, i) || (s.procs[i].req.cmd.Create? && IsTaken(s, i))
  }

  lemma TakenStays(s: System, t: System, i: nat)
    requires i < |s.procs| && i < |t.procs| && s.procs[i].req.cmd.Create? && IsTaken(s, i)
    requires s.bots <= t.bots && t.procs[i].req == s.procs[i].req
    ensures IsTaken(t, i)
  {
    var k :| 0 <= k < |s.bots| && Holds(s.bots[k], s.procs[i].req);
    assert t.bots[k] == s.bots[k];
  }

  lemma BotsGrow(s: System, i: nat, o: Outcome, c: Codec)
    requires CanStep(s, Advance(i, o))
    ensures s.bots <= AdvanceStep(s, i, o, c).bots
  {
  }

  lemma InsertExcuse(s: System, i: nat, o: Outcome, es: seq<Event>)
    requires CanStep(s, Advance(i, o)) && s.procs[i].stage.Inserting?
    ensures Excused(InsertStep(s, i, o), i, es + [Advance(i, o)])
  {
    assert Advance(i, o) in es + [Advance(i, o)];
    if o == Done && Clashes(s.bots, BotOf(s.procs[i].req, i)) {
      var k :| 0 <= k < |s.bots| && (SameKey(s.bots[k], BotOf(s.procs[i].req, i)) ||
                                     SameDedup(s.bots[k], BotOf(s.procs[i].req, i)));
      assert Holds(s.bots[k], s.procs[i].req);
      TakenStays(s, InsertStep(s, i, o), i);
    }
  }

  lemma NoServerErrorAtFirst(s: System, i: nat, o: Outcome, c: Codec)
    requires CanStep(s, Advance(i, o)) && (s.procs[i].stage.Beginning? || s.procs[i].stage.Selecting?)
    ensures var p, q := s.procs[i], AdvanceStep(s, i, o, c).procs[i];
            !HasReply(p.stage) && (HasReply(q.stage) ==> q.stage.reply == BadRequest)
  {
  }

  lemma NoServerErrorLater(s: System, i: nat, o: Outcome, c: Codec)
    requires CanStep(s, Advance(i, o)) && !s.procs[i].stage.Beginning? && !s.procs[i].stage.Selecting?
    requires !s.procs[i].stage.Inserting?
    ensures var st, st' := s.procs[i].stage, AdvanceStep(s, i, o, c).procs[i].stage;
            HasReply(st') ==> if HasReply(st) then st'.reply == st.reply else st'.reply != ServerError
  {
  }

  lemma OtherwiseNoServerError(s: System, i: nat, o: Outcome, c: Codec)
    requires CanStep(s, Advance(i, o)) && !s.procs[i].stage.Inserting?
    ensures i < |AdvanceStep(s, i, o, c).procs|
    ensures !AnsweredBy(s, AdvanceStep(s, i, o, c), i, ServerError)
    ensures var st, st' := s.procs[i].stage, AdvanceStep(s, i, o, c).procs[i].stage;
            HasReply(st) && HasReply(st') ==> st'.reply == st.reply
  {
    if s.procs[i].stage.Beginning? || s.procs[i].stage.Selecting? {
      NoServerErrorAtFirst(s, i, o, c);
    } else {
      NoServerErrorLater(s, i, o, c);
    }
  }

  lemma OwnExcuse(s: System, i: nat, o: Outcome, c: Codec, es: seq<Event>)
    requires CanStep(s, Advance(i, o)) && Excused(s, i, es)
    requires CreationReplays.OnlyMoved(s, AdvanceStep(s, i, o, c), i)
    ensures Excused(AdvanceStep(s, i, o, c), i, es + [Advance(i, o)])
  {
    var t := AdvanceStep(s, i, o, c);
    if s.procs[i].stage.Inserting? {
      InsertExcuse(s, i, o, es);
    } else {
      OtherwiseNoServerError(s, i, o, c);
      BotsGrow(s, i, o, c);
      if s.procs[i].req.cmd.Create? && IsTaken(s, i) {
        TakenStays(s, t, i);
      }
    }
  }

  lemma OthersExcuse(s: System, t: System, i: nat, es: seq<Event>, e: Event)
    requires i < |s.procs| && i < |t.procs| && t.procs[i].req == s.procs[i].req && s.bots <= t.bots
    requires t.procs[i] == s.procs[i] || t.procs[i].stage == Crashed
    requires Excused(s, i, es)
    ensures Excused(t, i, es + [e])
  {
    if s.procs[i].req.cmd.Create? && IsTaken(s, i) {
      TakenStays(s, t, i);
    }
  }

  lemma ExcusedStep(s: System, e: Event, c: Codec, i: nat, es: seq<Event>)
    requires CanStep(s, e) && i < |s.procs| && Excused(s, i, es)
    ensures i < |Step(s, e, c).procs| && Excused(Step(s, e, c), i, es + [e])
  {
    if e.Advance? {
      CreationReplays.AdvanceOnlyMoves(s, e.i, e.o, c);
      BotsGrow(s, e.i, e.o, c);
      if e.i == i {
        OwnExcuse(s, i, e.o, c, es);
      } else {
        OthersExcuse(s, AdvanceStep(s, e.i, e.o, c), i, es, e);
      }
    } else {
      OthersExcuse(s, Step(s, e, c), i, es, e);
    }
  }

  lemma NewcomerExcused(s: System, e: Event, c: Codec, i: nat, es: seq<Event>)
    requires CanStep(s, e) && |s.procs| <= i < |Step(s, e, c).procs|
    ensures Excused(Step(s, e, c), i, es)
  {
    if e.Advance? {
      CreationReplays.AdvanceOnlyMoves(s, e.i, e.o, c);
    }
  }

  lemma {:induction false} AllExcused(es: seq<Event>, c: Codec, i: nat)
    requires CanRun(es, c) && i < |After(es, c).procs|
    ensures Excused(After(es, c), i, es)
  {
    if es != [] {
      var init, e := es[..|es| - 1], es[|es| - 1];
      RunLast(es, c);
      assert es == init + [e];
      if i < |After(init, c).procs| {
        AllExcused(init, c, i);
        ExcusedStep(After(init, c), e, c, i, init);
      } else {
        NewcomerExcused(After(init, c), e, c, i, es);
      }
    }
  }

  /** In every run a request is told 500 only if a store failed it, or a bot has its key or its dedup hash. */
  lemma ServerErrorMeansTaken(es: seq<Event>, c: Codec, i: nat)
    requires CanRun(es, c) && i < |After(es, c).procs| && Says(After(es, c), i, ServerError)
    ensures HadTrouble(es, i) || (After(es, c).procs[i].req.cmd.Create? && IsTaken(After(es, c), i))
  {
    AllExcused(es, c, i);
  }

  // ---------------------------------------------------------------- what a database error means

  /** Why request `i` could not be told anything about the row of its key. */
  predicate Unlucky(s: System, i: nat, es: seq<Event>)
    requires i < |s.procs|
  {
    var p := s.procs[i];
    && (p.stage.Failed? ==> HadTrouble(es, i) || SweepRows in es)
    && (p.stage.Selecting? ==> KeyOf(p.req) in s.idem || SweepRows in es)
  }

  lemma OwnLuck(s: System, i: nat, o: Outcome, c: Codec, es: seq<Event>)
    requires CanStep(s, Advance(i, o)) && Unlucky(s, i, es)
    requires CreationReplays.OnlyMoved(s, AdvanceStep(s, i, o, c), i)
    ensures Unlucky(AdvanceStep(s, i, o, c), i, es + [Advance(i, o)])
  {
    assert Advance(i, o) in es + [Advance(i, o)];
  }

  lemma RowsGrow(s: System, e: Event, c: Codec, k: Key)
    requires CanStep(s, e) && k in s.idem && !e.SweepRows?
    ensures k in Step(s, e, c).idem
  {
  }

  lemma UnluckyStep(s: System, e: Event, c: Codec, i: nat, es: seq<Event>)
    requires CanStep(s, e) && i < |s.procs| && Unlucky(s, i, es)
    ensures i < |Step(s, e, c).procs| && Unlucky(Step(s, e, c), i, es + [e])
  {
    assert e in es + [e];
    if e.Advance? {
      CreationReplays.AdvanceOnlyMoves(s, e.i, e.o, c);
      if e.i == i {
        OwnLuck(s, i, e.o, c, es);
      }
    }
    if !e.SweepRows? && KeyOf(s.procs[i].req) in s.idem {
      RowsGrow(s, e, c, KeyOf(s.procs[i].req));
    }
  }

  lemma {:induction false} AllUnlucky(es: seq<Event>, c: Codec, i: nat)
    requires CanRun(es, c) && i < |After(es, c).procs|
    ensures Unlucky(After(es, c), i, es)
  {
    if es != [] {
      var init, e := es[..|es| - 1], es[|es| - 1];
      RunLast(es, c);
      assert es == init + [e];
      if i < |After(init, c).procs| {
        AllUnlucky(init, c, i);
        UnluckyStep(After(init, c), e, c, i, init);
      } else if e.Advance? {
        CreationReplays.AdvanceOnlyMoves(After(init, c), e.i, e.o, c);
      }
    }
  }

  /** In every run a request ends with a database error only if a store failed it, or rows were swept meanwhile. */
  lemma FailedMeansTrouble(es: seq<Event>, c: Codec, i: nat)
    requires CanRun(es, c) && i < |After(es, c).procs| && After(es, c).procs[i].stage.Failed?
    ensures HadTrouble(es, i) || SweepRows in es
  {
    AllUnlucky(es, c, i);
  }
}

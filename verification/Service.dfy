/**
 The API server serving one request: the idempotency middleware around the creation handler, as the
 accesses it makes to the shared tables, with any number of accesses by others in between. `Valid` says
 that what has happened so far is a run of the transition system in module Creation.
 */
module Services {
  import opened Options
  import opened Idempotency
  import opened Creation
  import CreationBots
  import CreationReplays
  import CreationWorks

  class Service {
    const codec: Codec
    const repo: IdempotencyRepo
    const calm: bool               // whether the stores answer all that this process asks
    var now: int
    var bots: seq<Bot>
    var jobs: multiset<nat>
    var dedup: map<string, nat>
    var procs: seq<Proc>           // every request so far; only the environment and the bookkeeping read it
    ghost var run: seq<Event>

    ghost function View(): System
      reads this, repo
    {
      System(now, repo.rows, bots, jobs, dedup, procs)
    }

    ghost predicate Valid()
      reads this, repo
    {
      repo.norm == codec.norm && CanRun(run, codec) && After(run, codec) == View()
    }

    /** This process is at work on request `i`; calm, it has had no trouble. */
    ghost predicate Working(i: nat)
      reads this, repo
    {
      Valid() && i < |procs| && (calm ==> !CreationWorks.HadTrouble(run, i))
    }

    /** It is at stage `st` of it. */
    ghost predicate At(i: nat, st: Stage)
      reads this, repo
    {
      Working(i) && procs[i].stage == st
    }

    constructor (codec: Codec, calm: bool)
      ensures Valid() && fresh(repo) && run == [] && this.codec == codec && this.calm == calm
    {
      this.codec, this.calm := codec, calm;
      this.repo := new IdempotencyRepo(codec.norm);
      now, bots, jobs, dedup, procs, run := 0, [], multiset{}, map[], [], [];
    }

    /** The fields have just made step `e` from state `was`. */
    ghost method Note(was: System, e: Event)
      requires repo.norm == codec.norm
      requires CanRun(run, codec) && After(run, codec) == was && CanStep(was, e) && View() == Step(was, e, codec)
      modifies this`run
      ensures Valid() && run == old(run) + [e]
    {
      RunSnoc(run, e, codec);
      run := run + [e];
    }

    /** How an access of this process to a store ends. */
    method Access() returns (o: Outcome)
      ensures calm ==> o == Done
    {
      o := *;
      if calm {
        o := Done;
      }
    }

    /** Others act, and time passes, without a step by request `i`. */
    method Meanwhile(i: nat)
      requires Working(i)
      modifies this, repo
      ensures Working(i) && procs[i] == old(procs[i])
      ensures old(run) <= run && |procs| >= old(|procs|)
    {
      var n: nat :| n >= 0;
      for k := 0 to n
        invariant Working(i) && procs[i] == old(procs[i])
        invariant old(run) <= run && |procs| >= old(|procs|)
      {
        var e: Event := *;
        var s := System(now, repo.rows, bots, jobs, dedup, procs);
        if CanStep(s, e) && !(e.Advance? && e.i == i) && !(e.Crash? && e.i == i) {
          OthersKeep(s, e, codec, i);
          var t := Step(s, e, codec);
          now, repo.rows, bots, jobs, dedup, procs := t.now, t.idem, t.bots, t.jobs, t.dedup, t.procs;
          Note(s, e);
        }
      }
    }

    /** Request `i` is now at stage `st`. */
    method Mark(i: nat, p: Proc)
      requires i < |procs|
      modifies this`procs
      ensures procs == old(procs)[i := p]
    {
      procs := procs[i := p];
    }

    /** BeginRequest's INSERT. None is a database error, otherwise whether this request is the first. */
    method Reserve(i: nat) returns (first: Option<bool>)
      requires At(i, Beginning) && procs[i].req.key != ""
      modifies this, repo
      ensures Working(i) && old(run) <= run && |procs| == old(|procs|)
      ensures procs[i] == match first
                          case None => old(procs[i]).(first := procs[i].first, stage := Failed)
                          case Some(false) => old(procs[i]).(stage := Selecting)
                          case Some(true) => Entry(old(procs[i]).(first := true))
    {
      ghost var was := View();
      var p := procs[i];
      var o := Access();
      if o == Refused {
        Mark(i, p.(stage := Failed));
        first := None;
      } else {
        var inserted := repo.TryInsert(KeyOf(p.req), p.req.hash, now, i);
        var q := p.(first := inserted || p.first);
        Mark(i, if o == Lost then q.(stage := Failed) else if inserted then Entry(q) else p.(stage := Selecting));
        first := if o == Lost then None else Some(inserted);
      }
      Note(was, Advance(i, o));
    }

    /** BeginRequest's SELECT, and what the middleware answers from it. */
    method LookUp(i: nat) returns (answer: Stage)
      requires At(i, Selecting)
      modifies this, repo
      ensures At(i, answer) && IsOver(answer) && !answer.Crashed? && !answer.Answered? && old(run) <= run
      ensures procs[i] == old(procs[i]).(stage := answer)
      ensures answer.Replayed? ==>
                && KeyOf(procs[i].req) in repo.rows
                && Report(repo.rows[KeyOf(procs[i].req)], procs[i].req.hash) == Seen(true, answer.status, answer.body)
    {
      ghost var was := View();
      var p := procs[i];
      var o := Access();
      var hit := repo.Find(KeyOf(p.req), p.req.hash);
      if o != Done || hit.None? {
        answer := Failed;
      } else {
        var owner := repo.rows[KeyOf(p.req)].owner;     // for the record
        if !hit.value.hashMatch {
          answer := Conflicted(owner);
        } else if hit.value.status == 0 {
          answer := TooEarly(owner);
        } else {
          answer := Replayed(hit.value.status, hit.value.body, owner);
        }
      }
      Mark(i, p.(stage := answer));
      Note(was, Advance(i, o));
    }

    /** GET of the dedup entry. */
    method CheckDedup(i: nat) returns (hit: Option<nat>)
      requires At(i, Checking) && procs[i].req.cmd.Create?
      modifies this, repo
      ensures Working(i) && old(run) <= run && |procs| == old(|procs|)
      ensures procs[i] == if hit.Some? then Answer(old(procs[i]), Existing(hit.value))
                          else old(procs[i]).(stage := Inserting)
    {
      ghost var was := View();
      var p := procs[i];
      var name := DedupKey(p.req.tenant, p.req.cmd.dedup);
      var o := Access();
      hit := if o == Done && name in dedup then Some(dedup[name]) else None;
      Mark(i, if hit.Some? then Answer(p, Existing(hit.value)) else p.(stage := Inserting));
      Note(was, Advance(i, o));
    }

    /** INSERT of the bot: its id, or an error, be it from the unique indexes. */
    method InsertBot(i: nat) returns (id: Option<nat>)
      requires At(i, Inserting) && procs[i].req.cmd.Create?
      modifies this, repo
      ensures Working(i) && old(run) <= run && |procs| == old(|procs|)
      ensures match id
              case None => procs[i] == Answer(old(procs[i]).(bot := procs[i].bot), ServerError)
              case Some(b) =>
                && procs[i] == (var q := old(procs[i]).(bot := Some(b));
                                if q.req.cmd.scheduled then AfterEnqueue(q, b) else q.(stage := Enqueuing(b)))
                && bots == old(bots) + [BotOf(procs[i].req, i)]
                && !Clashes(old(bots), BotOf(procs[i].req, i))
    {
      ghost var was := View();
      var p := procs[i];
      var b, n := BotOf(p.req, i), |bots|;
      var o := Access();
      var clash := false;
      for k := 0 to n
        invariant clash <==> exists j :: 0 <= j < k && (SameKey(bots[j], b) || SameDedup(bots[j], b))
      {
        clash := clash || SameKey(bots[k], b) || SameDedup(bots[k], b);
      }
      if o == Refused || clash {
        Mark(i, Answer(p, ServerError));
        id := None;
      } else {
        bots := bots + [b];
        var q := p.(bot := Some(n));
        if o == Lost {
          Mark(i, Answer(q, ServerError));
          id := None;
        } else {
          Mark(i, if p.req.cmd.scheduled then AfterEnqueue(q, n) else q.(stage := Enqueuing(n)));
          id := Some(n);
        }
      }
      Note(was, Advance(i, o));
    }

    /** XADD of the job. */
    method Enqueue(i: nat, id: nat)
      requires At(i, Enqueuing(id)) && procs[i].req.cmd.Create?
      modifies this, repo
      ensures Working(i) && old(run) <= run && |procs| == old(|procs|)
      ensures procs[i] == AfterEnqueue(old(procs[i]), id)
    {
      ghost var was := View();
      var o := Access();
      if o != Refused {
        jobs := jobs + multiset{id};
      }
      Mark(i, AfterEnqueue(procs[i], id));
      Note(was, Advance(i, o));
    }

    /** SET of the dedup entry. */
    method LockDedup(i: nat, id: nat)
      requires At(i, Locking(id)) && procs[i].req.cmd.Create?
      modifies this, repo
      ensures Working(i) && old(run) <= run && |procs| == old(|procs|)
      ensures procs[i] == Answer(old(procs[i]), Created(id))
    {
      ghost var was := View();
      var p := procs[i];
      var o := Access();
      if o != Refused {
        dedup := dedup[DedupKey(p.req.tenant, p.req.cmd.dedup) := id];
      }
      Mark(i, Answer(p, Created(id)));
      Note(was, Advance(i, o));
    }

    /** UPDATE of the idempotency row, with the response that was captured. */
    method CompleteRequest(i: nat, reply: Reply, captured: Response)
      requires At(i, Completing(reply)) && captured == ResponseOf(codec, reply)
      modifies this, repo
      ensures At(i, Answered(reply)) && old(run) <= run && procs[i] == old(procs[i]).(stage := Answered(reply))
    {
      ghost var was := View();
      var p := procs[i];
      var o := Access();
      if o != Refused {
        var _ := repo.CompleteRequest(KeyOf(p.req), captured);
      }
      Mark(i, p.(stage := Answered(reply)));
      Note(was, Advance(i, o));
    }

    /** The creation handler, entered with a decoded body. */
    method HandleCreate(i: nat) returns (reply: Reply)
      requires Working(i) && procs[i] == Entry(procs[i])
      modifies this, repo
      ensures Working(i) && old(run) <= run
      ensures procs[i].req == old(procs[i].req) && procs[i].first == old(procs[i].first)
      ensures procs[i] == Answer(procs[i], reply) && (reply == BadRequest <==> procs[i].req.cmd.Invalid?)
    {
      var req := procs[i].req;
      if req.cmd.Invalid? {
        return BadRequest;
      }
      Meanwhile(i);
      if !req.cmd.allowMultiple {
        var hit := CheckDedup(i);
        if hit.Some? {
          return Existing(hit.value);
        }
        Meanwhile(i);
      }
      var id := InsertBot(i);
      if id.None? {
        return ServerError;
      }
      Publish(i, id.value);
      return Created(id.value);
    }

    /** The bot is in: its job, and the lock on its dedup key. */
    method Publish(i: nat, id: nat)
      requires Working(i) && procs[i].req.cmd.Create?
      requires procs[i] == if procs[i].req.cmd.scheduled then AfterEnqueue(procs[i], id)
                           else procs[i].(stage := Enqueuing(id))
      modifies this, repo
      ensures Working(i) && old(run) <= run
      ensures procs[i] == Answer(old(procs[i]), Created(id))
    {
      var req := procs[i].req;
      Meanwhile(i);
      if !req.cmd.scheduled {
        Enqueue(i, id);
        Meanwhile(i);
      }
      if !req.cmd.allowMultiple {
        LockDedup(i, id);
      }
    }

    /**
     Serves a request to its end. A bot it reports as created was made from this very request; one it
     reports as existing is the tenant's that claims the same dedup hash; a conflict is over another body.
     The client is sent just that.
     */
    method Serve(req: Request) returns (i: nat, answer: Stage, client: ClientWriter)
      requires Valid() && CanStep(View(), Arrive(req))
      modifies this, repo
      ensures At(i, answer) && IsOver(answer) && !answer.Crashed? && old(run) <= run && procs[i].req == req
      ensures fresh(client) && Sent(client, answer)
      ensures answer == Answered(ServerError) && calm ==> req.cmd.Create? && CreationWorks.IsTaken(View(), i)
      ensures answer == Failed && calm ==> SweepRows in run
      ensures answer.Answered? ==>
                client.sent == Some(if answer.reply.Created? then 201 else if answer.reply.Existing? then 200
                                    else if req.cmd.Invalid? then 400 else 500)
      ensures answer.Answered? && answer.reply.Created? ==>
                req.cmd.Create? && answer.reply.bot < |bots| && bots[answer.reply.bot] == BotOf(req, i)
      ensures answer.Answered? && answer.reply.Existing? ==>
                && req.cmd.Create?
                && answer.reply.bot < |bots|
                && CreationBots.Owns(bots[answer.reply.bot], req.tenant, req.cmd.dedup)
      ensures answer.Answered? ==> (answer.reply == BadRequest <==> req.cmd.Invalid?)
      ensures answer.Replayed? || answer.TooEarly? || answer.Conflicted? ==>
                && answer.source < |procs|
                && KeyOf(procs[answer.source].req) == KeyOf(req)
                && (answer.Conflicted? <==> procs[answer.source].req.hash != req.hash)
    {
      client := new ClientWriter();
      i := Accept(req);
      Meanwhile(i);
      answer := Middleware(i, client);
      AnswerMeaning(View(), run, codec, i);
      TroubleMeaning(View(), run, codec, i);
    }

    /** What the client has when the request is over. */
    ghost predicate Sent(client: ClientWriter, answer: Stage)
      reads client
    {
      match answer
      case Answered(reply) => client.sent == Some(StatusOf(reply)) && client.out == codec.render(reply)
      case Replayed(status, body, _) => client.sent == Some(status) && client.out == body
      case Conflicted(_) => client.sent == Some(409)
      case TooEarly(_) => client.sent == Some(409)
      case _ => client.sent == Some(500)
    }

    method Accept(req: Request) returns (i: nat)
      requires Valid() && CanStep(View(), Arrive(req))
      modifies this, repo
      ensures Working(i) && old(run) <= run && procs[i] == Proc(req, Beginning, false, None)
    {
      ghost var was := View();
      i := |procs|;
      CreationWorks.NoTroubleYet(run, codec, i);
      procs := procs + [Proc(req, Beginning, false, None)];
      Note(was, Arrive(req));
    }

    /** Without a key the handler runs as it is; with one, only for the request that comes first. */
    method Middleware(i: nat, client: ClientWriter) returns (answer: Stage)
      requires At(i, Beginning) && !procs[i].first && client.sent == None && client.out == ""
      modifies this, repo, client
      ensures At(i, answer) && IsOver(answer) && !answer.Crashed? && old(run) <= run
      ensures procs[i].req == old(procs[i].req) && Sent(client, answer)
      ensures answer.Answered? ==> (answer.reply == BadRequest <==> procs[i].req.cmd.Invalid?)
    {
      if procs[i].req.key == "" {
        Skip(i);
        var reply := HandleCreate(i);
        client.Respond(StatusOf(reply), codec.render(reply));
        return Answered(reply);
      }
      var first := Reserve(i);
      if first == Some(true) {
        var reply := RunCaptured(i, client);
        return Answered(reply);
      }
      if first == Some(false) {
        Meanwhile(i);
        answer := LookUp(i);
      } else {
        answer := Failed;
      }
      Tell(client, answer);
    }

    /** What the middleware answers by itself. */
    method Tell(client: ClientWriter, answer: Stage)
      requires IsOver(answer) && !answer.Answered? && client.sent == None && client.out == ""
      modifies client
      ensures Sent(client, answer)
    {
      var errorBody: string := *;
      if answer.Replayed? {
        client.Respond(answer.status, answer.body);
      } else if answer.Conflicted? || answer.TooEarly? {
        client.Respond(409, errorBody);
      } else {
        client.Respond(500, errorBody);
      }
    }

    /** The handler for the request that comes first: what it writes goes to the client and into the row. */
    method RunCaptured(i: nat, client: ClientWriter) returns (reply: Reply)
      requires Working(i) && procs[i].first && procs[i] == Entry(procs[i])
      requires client.sent == None && client.out == ""
      modifies this, repo, client
      ensures At(i, Answered(reply)) && old(run) <= run && procs[i].req == old(procs[i].req)
      ensures Sent(client, Answered(reply)) && (reply == BadRequest <==> procs[i].req.cmd.Invalid?)
    {
      var rec := new CapturingWriter(client);
      reply := HandleCreate(i);
      rec.Respond(StatusOf(reply), codec.render(reply));
      Meanwhile(i);
      CompleteRequest(i, reply, Response(rec.status, rec.body));
    }

    /** No key: straight to the handler. */
    method Skip(i: nat)
      requires At(i, Beginning) && procs[i].req.key == ""
      modifies this, repo
      ensures Working(i) && old(run) <= run && |procs| == old(|procs|) && procs[i] == Entry(old(procs[i]))
    {
      ghost var was := View();
      Mark(i, Entry(procs[i]));
      Note(was, Advance(i, Done));
    }
  }

  lemma TroubleMeaning(s: System, run: seq<Event>, c: Codec, i: nat)
    requires CanRun(run, c) && s == After(run, c) && i < |s.procs|
    ensures s.procs[i].stage == Answered(ServerError) && !CreationWorks.HadTrouble(run, i) ==>
              s.procs[i].req.cmd.Create? && CreationWorks.IsTaken(s, i)
    ensures s.procs[i].stage == Failed && !CreationWorks.HadTrouble(run, i) ==> SweepRows in run
  {
    if s.procs[i].stage == Answered(ServerError) {
      CreationWorks.ServerErrorMeansTaken(run, c, i);
    }
    if s.procs[i].stage == Failed {
      CreationWorks.FailedMeansTrouble(run, c, i);
    }
  }

  lemma AnswerMeaning(s: System, run: seq<Event>, c: Codec, i: nat)
    requires CanRun(run, c) && s == After(run, c) && i < |s.procs|
    ensures var st, req := s.procs[i].stage, s.procs[i].req;
            && (st.Answered? && st.reply.Created? ==>
                  req.cmd.Create? && st.reply.bot < |s.bots| && s.bots[st.reply.bot] == BotOf(req, i))
            && (st.Answered? && st.reply.Existing? ==>
                  && req.cmd.Create?
                  && st.reply.bot < |s.bots|
                  && CreationBots.Owns(s.bots[st.reply.bot], req.tenant, req.cmd.dedup))
            && (st.Replayed? || st.TooEarly? || st.Conflicted? ==>
                  && st.source < |s.procs|
                  && KeyOf(s.procs[st.source].req) == KeyOf(req)
                  && (st.Conflicted? <==> s.procs[st.source].req.hash != req.hash))
  {
    CreationBots.InvHolds(run, c);
    CreationReplays.AnswersMatchTheBody(run, c, i);
    var p := s.procs[i];
    assert CreationBots.ProcInv(s.bots, s.jobs, p, i);
    if p.stage.Answered? && p.stage.reply.Created? {
      assert CreationBots.BotInv(s.procs, s.jobs, s.bots[p.stage.reply.bot], p.stage.reply.bot);
    }
  }

  /** Only its own accesses, and its crash, move a request. */
  lemma OthersKeep(s: System, e: Event, c: Codec, i: nat)
    requires CanStep(s, e) && i < |s.procs| && !(e.Advance? && e.i == i) && !(e.Crash? && e.i == i)
    ensures i < |Step(s, e, c).procs| && Step(s, e, c).procs[i] == s.procs[i]
    ensures |Step(s, e, c).procs| >= |s.procs|
  {
  }
}

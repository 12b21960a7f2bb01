/**
 Bot creation: the handler behind the idempotency middleware, as one request's sequence of accesses to the
 tables, the job stream and the Redis dedup entries that all requests share.
 */
module Creation {
  import opened Options
  import opened Idempotency

  /** What a request body asks for. `dedup` hashes the meeting URL and the minute to join in. */
  datatype Command = Invalid | Create(allowMultiple: bool, scheduled: bool, dedup: string)

  /** An empty key means there is no Idempotency-Key header. `hash` is that of the body. */
  datatype Request = Request(tenant: string, key: string, hash: string, cmd: Command)

  /** What the handler answers. */
  datatype Reply = Created(bot: nat) | Existing(bot: nat) | BadRequest | ServerError

  function StatusOf(r: Reply): int {
    match r
    case Created(_) => 201
    case Existing(_) => 200
    case BadRequest => 400
    case ServerError => 500
  }

  /** One row of the bots table; `creator` is the request that inserted it, and no statement reads it. */
  datatype Bot = Bot(tenant: string, key: string, dedup: string, allowMultiple: bool, creator: nat)

  function BotOf(r: Request, creator: nat): Bot
    requires r.cmd.Create?
  {
    Bot(r.tenant, r.key, if r.cmd.allowMultiple then "" else r.cmd.dedup, r.cmd.allowMultiple, creator)
  }

  /** The partial unique index over (tenant, idempotency key). */
  predicate SameKey(a: Bot, b: Bot) {
    a.key != "" && a.tenant == b.tenant && a.key == b.key
  }

  /** The partial unique index over (tenant, dedup hash) of rows that do not allow multiple bots. */
  predicate SameDedup(a: Bot, b: Bot) {
    && a.dedup != "" && !a.allowMultiple && !b.allowMultiple
    && a.tenant == b.tenant && a.dedup == b.dedup
  }

  predicate Clashes(bots: seq<Bot>, b: Bot) {
    exists i :: 0 <= i < |bots| && (SameKey(bots[i], b) || SameDedup(bots[i], b))
  }

  /** The Redis name of a dedup entry. */
  function DedupKey(tenant: string, hash: string): string {
    "dedup:" + tenant + ":" + hash
  }

  /** Hashes are all of one length, so the name determines tenant and hash. */
  lemma DedupKeyInjective(t1: string, h1: string, t2: string, h2: string)
    requires |h1| == |h2| && DedupKey(t1, h1) == DedupKey(t2, h2)
    ensures t1 == t2 && h1 == h2
  {
    var k1, k2 := DedupKey(t1, h1), DedupKey(t2, h2);
    assert |t1| == |t2|;
    assert t1 == k1[6..6 + |t1|] && t2 == k2[6..6 + |t2|];
    assert h1 == k1[|k1| - |h1|..] && h2 == k2[|k2| - |h2|..];
  }

  /** Where a request is. */
  datatype Stage =
    | Beginning             // about to INSERT its idempotency row
    | Selecting             // the row was there: about to SELECT it
    | Checking              // handler: about to look for a dedup entry
    | Inserting             // handler: about to INSERT the bot
    | Enqueuing(id: nat)    // handler: bot inserted, about to XADD its job
    | Locking(id: nat)      // handler: about to SET the dedup entry
    | Completing(reply: Reply)   // answered; about to UPDATE the idempotency row
    | Answered(reply: Reply)     // over, having run the handler
    | Replayed(status: int, body: string, source: nat)  // over, with the stored answer of request `source`
    | Conflicted(source: nat)    // over: another body was used with this key
    | TooEarly(source: nat)      // over: the first request is still in flight
    | Failed                     // over: idempotency table error
    | Crashed

  /** `first`: this request inserted its idempotency row. `bot`: the row it inserted in the bots table. */
  datatype Proc = Proc(req: Request, stage: Stage, first: bool, bot: Option<nat>)

  datatype System = System(
    now: int,
    idem: Table,
    bots: seq<Bot>,
    jobs: multiset<nat>,         // jobs ever enqueued, by bot
    dedup: map<string, nat>,     // Redis entries
    procs: seq<Proc>)

  /** How replies are written and how JSONB normalises them. */
  datatype Codec = Codec(render: Reply -> string, norm: Normaliser)

  function KeyOf(r: Request): Key {
    (r.tenant, r.key)
  }

  function ResponseOf(c: Codec, r: Reply): Response {
    Response(StatusOf(r), c.render(r))
  }

  /** First access of the handler, for a body that has been decoded and validated. */
  function Entry(p: Proc): Proc {
    match p.req.cmd
    case Invalid => Answer(p, BadRequest)
    case Create(allowMultiple, _, _) => p.(stage := if allowMultiple then Inserting else Checking)
  }

  /** The handler has answered: the middleware stores the answer if this request came first. */
  function Answer(p: Proc, r: Reply): Proc {
    p.(stage := if p.first then Completing(r) else Answered(r))
  }

  /** After the job: lock the dedup key if the bot is to be the only one. */
  function AfterEnqueue(p: Proc, id: nat): Proc
    requires p.req.cmd.Create?
  {
    if p.req.cmd.allowMultiple then Answer(p, Created(id)) else p.(stage := Locking(id))
  }

  /** How an access to a store ends: done, not done with an error, or done though an error comes back. */
  datatype Outcome = Done | Refused | Lost

  /** INSERT of the idempotency row, the database being the arbiter of who comes first. */
  function BeginStep(s: System, i: nat, o: Outcome): System
    requires i < |s.procs|
  {
    var p := s.procs[i];
    if p.req.key == "" then s.(procs := s.procs[i := Entry(p)])
    else if o == Refused then s.(procs := s.procs[i := p.(stage := Failed)])
    else if KeyOf(p.req) in s.idem then s.(procs := s.procs[i := p.(stage := if o == Lost then Failed else Selecting)])
    else
      var q := p.(first := true);
      s.(idem := Insert(s.idem, KeyOf(p.req), p.req.hash, s.now, i),
         procs := s.procs[i := if o == Lost then q.(stage := Failed) else Entry(q)])
  }

  /** SELECT of the row that was there, and the middleware's answer. */
  function SelectStep(s: System, i: nat, o: Outcome): System
    requires i < |s.procs|
  {
    var p := s.procs[i];
    var stage :=
      if o != Done || KeyOf(p.req) !in s.idem then Failed
      else
        var row := s.idem[KeyOf(p.req)];
        var hit := Report(row, p.req.hash);
        if !hit.hashMatch then Conflicted(row.owner)
        else if hit.status == 0 then TooEarly(row.owner)
        else Replayed(hit.status, hit.body, row.owner);
    s.(procs := s.procs[i := p.(stage := stage)])
  }

  /** GET of the dedup entry; an error counts as a miss. */
  function CheckStep(s: System, i: nat, o: Outcome): System
    requires i < |s.procs| && s.procs[i].req.cmd.Create?
  {
    var p := s.procs[i];
    var name := DedupKey(p.req.tenant, p.req.cmd.dedup);
    s.(procs := s.procs[i := if o == Done && name in s.dedup then Answer(p, Existing(s.dedup[name]))
                             else p.(stage := Inserting)])
  }

  /** INSERT of the bot under the two unique indexes. */
  function InsertStep(s: System, i: nat, o: Outcome): System
    requires i < |s.procs| && s.procs[i].req.cmd.Create?
  {
    var p := s.procs[i];
    var b, id := BotOf(p.req, i), |s.bots|;
    if o == Refused || Clashes(s.bots, b) then s.(procs := s.procs[i := Answer(p, ServerError)])
    else
      var q := p.(bot := Some(id));
      s.(bots := s.bots + [b],
         procs := s.procs[i := if o == Lost then Answer(q, ServerError)
                               else if p.req.cmd.scheduled then AfterEnqueue(q, id)
                               else q.(stage := Enqueuing(id))])
  }

  /** XADD of the job; an error is ignored. */
  function EnqueueStep(s: System, i: nat, o: Outcome): System
    requires i < |s.procs| && s.procs[i].req.cmd.Create? && s.procs[i].stage.Enqueuing?
  {
    var p := s.procs[i];
    s.(jobs := if o == Refused then s.jobs else s.jobs + multiset{p.stage.id},
       procs := s.procs[i := AfterEnqueue(p, p.stage.id)])
  }

  /** SET of the dedup entry; an error is ignored. */
  function LockStep(s: System, i: nat, o: Outcome): System
    requires i < |s.procs| && s.procs[i].req.cmd.Create? && s.procs[i].stage.Locking?
  {
    var p := s.procs[i];
    var name := DedupKey(p.req.tenant, p.req.cmd.dedup);
    s.(dedup := if o == Refused then s.dedup else s.dedup[name := p.stage.id],
       procs := s.procs[i := Answer(p, Created(p.stage.id))])
  }

  /** UPDATE of the idempotency row; an error is ignored. */
  function CompleteStep(s: System, i: nat, o: Outcome, c: Codec): System
    requires i < |s.procs| && s.procs[i].stage.Completing?
  {
    var p := s.procs[i];
    s.(idem := if o == Refused then s.idem else Complete(s.idem, KeyOf(p.req), ResponseOf(c, p.stage.reply), c.norm),
       procs := s.procs[i := p.(stage := Answered(p.stage.reply))])
  }

  datatype Event =
    | Arrive(req: Request)
    | Advance(i: nat, o: Outcome)   // request i makes its next access
    | Crash(i: nat)
    | SweepRows                   // delete expired idempotency rows
    | Forget(name: string)        // Redis drops a dedup entry
    | Wait(d: nat)

  predicate IsOver(st: Stage) {
    st.Answered? || st.Replayed? || st.Conflicted? || st.TooEarly? || st.Failed? || st.Crashed?
  }

  predicate InHandler(st: Stage) {
    st.Checking? || st.Inserting? || st.Enqueuing? || st.Locking?
  }

  /** Dedup hashes are SHA-256 in hexadecimal. */
  const HASH_LENGTH := 64

  predicate CanStep(s: System, e: Event) {
    match e
    case Arrive(req) => req.cmd.Create? ==> |req.cmd.dedup| == HASH_LENGTH
    case Advance(i, _) =>
      && i < |s.procs| && !IsOver(s.procs[i].stage)
      && (InHandler(s.procs[i].stage) ==> s.procs[i].req.cmd.Create?)
    case Crash(i) => i < |s.procs| && !IsOver(s.procs[i].stage)
    case _ => true
  }

  /** The next access of request `i`. */
  function AdvanceStep(s: System, i: nat, o: Outcome, c: Codec): System
    requires i < |s.procs| && (InHandler(s.procs[i].stage) ==> s.procs[i].req.cmd.Create?)
  {
    var st := s.procs[i].stage;
    if st.Beginning? then BeginStep(s, i, o)
    else if st.Selecting? then SelectStep(s, i, o)
    else if st.Checking? then CheckStep(s, i, o)
    else if st.Inserting? then InsertStep(s, i, o)
    else if st.Enqueuing? then EnqueueStep(s, i, o)
    else if st.Locking? then LockStep(s, i, o)
    else if st.Completing? then CompleteStep(s, i, o, c)
    else s
  }

  function Step(s: System, e: Event, c: Codec): System
    requires CanStep(s, e)
  {
    match e
    case Arrive(req) => s.(procs := s.procs + [Proc(req, Beginning, false, None)])
    case Advance(i, o) => AdvanceStep(s, i, o, c)
    case Crash(i) => s.(procs := s.procs[i := s.procs[i].(stage := Crashed)])
    case SweepRows => s.(idem := Sweep(s.idem, s.now))
    case Forget(name) => s.(dedup := s.dedup - {name})
    case Wait(d) => s.(now := s.now + d)
  }

  const BEGIN := System(0, map[], [], multiset{}, map[], [])

  predicate CanRun(es: seq<Event>, c: Codec)
    decreases |es|, 1
  {
    es == [] || LastCanStep(es, c)
  }

  predicate LastCanStep(es: seq<Event>, c: Codec)
    requires es != []
    decreases |es|, 0
  {
    CanRun(es[..|es| - 1], c) && CanStep(After(es[..|es| - 1], c), es[|es| - 1])
  }

  function After(es: seq<Event>, c: Codec): System
    requires CanRun(es, c)
    decreases |es|, 3
  {
    if es == [] then BEGIN else AfterLast(es, c)
  }

  function AfterLast(es: seq<Event>, c: Codec): System
    requires es != [] && LastCanStep(es, c)
    decreases |es|, 2
  {
    Step(After(es[..|es| - 1], c), es[|es| - 1], c)
  }

  lemma RunLast(es: seq<Event>, c: Codec)
    requires es != [] && CanRun(es, c)
    ensures CanRun(es[..|es| - 1], c) && CanStep(After(es[..|es| - 1], c), es[|es| - 1])
    ensures After(es, c) == Step(After(es[..|es| - 1], c), es[|es| - 1], c)
  {
  }

  lemma RunSnoc(es: seq<Event>, e: Event, c: Codec)
    requires CanRun(es, c) && CanStep(After(es, c), e)
    ensures CanRun(es + [e], c) && After(es + [e], c) == Step(After(es, c), e, c)
  {
    assert (es + [e])[..|es|] == es;
  }
}

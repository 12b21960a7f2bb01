/**
 Bot creation and job dispatch as one system: the API's XADD is what puts a message into the stream that the
 controllers read. Other producers may use the same stream.
 */
module Pipeline {
  import opened Options
  import opened Dispatch
  import Api = Creation
  import ApiBots = CreationBots
  import Work = DispatchRuns

  /** `origin[m]` is the bot whose job message `m` carries, None if another producer added it. */
  datatype System = System(api: Api.System, work: Work.System, origin: seq<Option<nat>>)

  datatype Event = OfApi(access: Api.Event) | OfWork(move: Work.Event)

  /** What stays the same: how replies are printed, the job of a bot, and the controllers' slots. */
  datatype Setting = Setting(codec: Api.Codec, jobOf: nat -> Job, slots: seq<nat>)

  /** The bot whose job this access adds to the stream, if any. */
  function Enqueued(s: Api.System, e: Api.Event): Option<nat>
    requires Api.CanStep(s, e)
  {
    if e.Advance? && s.procs[e.i].stage.Enqueuing? && e.o != Api.Refused then Some(s.procs[e.i].stage.id) else None
  }

  predicate CanStep(s: System, e: Event) {
    match e
    case OfApi(access) => Api.CanStep(s.api, access)
    case OfWork(move) => Work.CanStep(s.work, move)
  }

  function ApiStep(s: System, e: Api.Event, g: Setting): System
    requires Api.CanStep(s.api, e)
  {
    var bot := Enqueued(s.api, e);
    var api := Api.Step(s.api, e, g.codec);
    if bot.Some? then
      System(api, Work.Step(s.work, Work.Produce(WellFormed(g.jobOf(bot.value)))), s.origin + [bot])
    else s.(api := api)
  }

  function Step(s: System, e: Event, g: Setting): System
    requires CanStep(s, e)
  {
    match e
    case OfApi(access) => ApiStep(s, access, g)
    case OfWork(move) =>
      s.(work := Work.Step(s.work, move), origin := if move.Produce? then s.origin + [None] else s.origin)
  }

  function Start(g: Setting): System {
    System(Api.BEGIN, Work.Begin(g.slots), [])
  }

  predicate CanRun(es: seq<Event>, g: Setting)
    decreases |es|, 1
  {
    es == [] || LastCanStep(es, g)
  }

  predicate LastCanStep(es: seq<Event>, g: Setting)
    requires es != []
    decreases |es|, 0
  {
    CanRun(es[..|es| - 1], g) && CanStep(After(es[..|es| - 1], g), es[|es| - 1])
  }

  function After(es: seq<Event>, g: Setting): System
    requires CanRun(es, g)
    decreases |es|, 3
  {
    if es == [] then Start(g) else AfterLast(es, g)
  }

  function AfterLast(es: seq<Event>, g: Setting): System
    requires es != [] && LastCanStep(es, g)
    decreases |es|, 2
  {
    Step(After(es[..|es| - 1], g), es[|es| - 1], g)
  }

  lemma RunLast(es: seq<Event>, g: Setting)
    requires es != [] && CanRun(es, g)
    ensures CanRun(es[..|es| - 1], g) && CanStep(After(es[..|es| - 1], g), es[|es| - 1])
    ensures After(es, g) == Step(After(es[..|es| - 1], g), es[|es| - 1], g)
  {
  }

  // ---------------------------------------------------------------- each part sees a run of its own

  /** The API's part of a run. */
  lemma {:induction false} ApiPart(es: seq<Event>, g: Setting) returns (part: seq<Api.Event>)
    requires CanRun(es, g)
    ensures Api.CanRun(part, g.codec) && Api.After(part, g.codec) == After(es, g).api
  {
    part := [];
    if es != [] {
      RunLast(es, g);
      part := ApiPart(es[..|es| - 1], g);
      var e := es[|es| - 1];
      if e.OfApi? {
        Api.RunSnoc(part, e.access, g.codec);
        part := part + [e.access];
      }
    }
  }

  /** The controllers' part, in which the API's jobs are produced. */
  lemma {:induction false} WorkPart(es: seq<Event>, g: Setting) returns (part: seq<Work.Event>)
    requires CanRun(es, g)
    ensures Work.CanRun(Work.Begin(g.slots), part) && Work.After(Work.Begin(g.slots), part) == After(es, g).work
  {
    part := [];
    if es != [] {
      RunLast(es, g);
      var s := After(es[..|es| - 1], g);
      part := WorkPart(es[..|es| - 1], g);
      var e := es[|es| - 1];
      if e.OfWork? {
        Work.RunSnoc(Work.Begin(g.slots), part, e.move);
        part := part + [e.move];
      } else if Enqueued(s.api, e.access).Some? {
        var produce := Work.Produce(WellFormed(g.jobOf(Enqueued(s.api, e.access).value)));
        Work.RunSnoc(Work.Begin(g.slots), part, produce);
        part := part + [produce];
      }
    }
  }

  // ---------------------------------------------------------------- messages and jobs

  /** Messages are labelled, and the API's job count is that of the messages with its bots' labels. */
  ghost predicate Labelled(s: System, g: Setting) {
    && |s.origin| == |s.work.group.entries|
    && (forall m :: 0 <= m < |s.origin| && s.origin[m].Some? ==>
          s.work.group.entries[m] == WellFormed(g.jobOf(s.origin[m].value)))
    && forall b: nat :: multiset(s.origin)[Some(b)] == s.api.jobs[b]
  }

  lemma JobsGrow(s: Api.System, e: Api.Event, c: Api.Codec)
    requires Api.CanStep(s, e)
    ensures var bot := Enqueued(s, e);
            Api.Step(s, e, c).jobs == if bot.Some? then s.jobs + multiset{bot.value} else s.jobs
  {
  }

  lemma EntriesGrow(s: Work.System, e: Work.Event)
    requires Work.CanStep(s, e)
    ensures Work.Step(s, e).group.entries == s.group.entries + if e.Produce? then [e.p] else []
  {
  }

  lemma ApiKeepsLabels(s: System, e: Api.Event, g: Setting)
    requires Labelled(s, g) && Api.CanStep(s.api, e)
    ensures Labelled(ApiStep(s, e, g), g)
  {
    JobsGrow(s.api, e, g.codec);
    var bot := Enqueued(s.api, e);
    if bot.Some? {
      EntriesGrow(s.work, Work.Produce(WellFormed(g.jobOf(bot.value))));
    }
  }

  lemma WorkKeepsLabels(s: System, move: Work.Event, g: Setting)
    requires Labelled(s, g) && Work.CanStep(s.work, move)
    ensures Labelled(Step(s, OfWork(move), g), g)
  {
    EntriesGrow(s.work, move);
  }

  lemma {:induction false} AllLabelled(es: seq<Event>, g: Setting)
    requires CanRun(es, g)
    ensures Labelled(After(es, g), g)
  {
    if es != [] {
      var s, e := After(es[..|es| - 1], g), es[|es| - 1];
      RunLast(es, g);
      AllLabelled(es[..|es| - 1], g);
      match e
      case OfApi(access) => ApiKeepsLabels(s, access, g);
      case OfWork(move) => WorkKeepsLabels(s, move, g);
    }
  }

  lemma {:induction false} TwoOccurrences<T>(s: seq<T>, i: nat, j: nat)
    requires i < j < |s| && s[i] == s[j]
    ensures multiset(s)[s[i]] >= 2
  {
    assert s == s[..j] + [s[j]] + s[j + 1..];
    assert s[i] in s[..j];
  }

  /** A bot's job is in the stream at most once. */
  lemma OneMessagePerBot(es: seq<Event>, g: Setting, m: nat, n: nat)
    requires CanRun(es, g) && m < |After(es, g).origin| && n < |After(es, g).origin|
    requires After(es, g).origin[m].Some? && After(es, g).origin[m] == After(es, g).origin[n]
    ensures m == n && After(es, g).origin[m].value < |After(es, g).api.bots|
  {
    var s := After(es, g);
    var b := s.origin[m].value;
    var part := ApiPart(es, g);
    AllLabelled(es, g);
    ApiBots.InvHolds(part, g.codec);
    assert s.origin[m] in multiset(s.origin);
    assert b in s.api.jobs;
    assert ApiBots.BotInv(s.api.procs, s.api.jobs, s.api.bots[b], b);
    if m < n {
      TwoOccurrences(s.origin, m, n);
    } else if n < m {
      TwoOccurrences(s.origin, n, m);
    }
  }

  /** The bot behind a message. */
  function BotBehind(s: System, m: nat): Option<Api.Bot> {
    if m < |s.origin| && s.origin[m].Some? && s.origin[m].value < |s.api.bots|
    then Some(s.api.bots[s.origin[m].value])
    else None
  }

  /**
   From request to worker, over all interleavings of requests, retries, sweeps, expiries, crashes and
   controllers: the jobs of bots under one tenant and idempotency key, or of one tenant and dedup hash among
   bots that do not allow multiple, are one message, and it starts at most one worker.
   */
  lemma OneWorkerPerKey(es: seq<Event>, g: Setting, m: nat, n: nat)
    requires CanRun(es, g) && BotBehind(After(es, g), m).Some? && BotBehind(After(es, g), n).Some?
    requires var a, b := BotBehind(After(es, g), m).value, BotBehind(After(es, g), n).value;
             && a.tenant == b.tenant
             && (|| (a.key != "" && a.key == b.key)
                 || (!a.allowMultiple && !b.allowMultiple && a.dedup != "" && a.dedup == b.dedup))
    ensures m == n && After(es, g).work.workers[m] <= 1
  {
    var s := After(es, g);
    var a, b := s.origin[m].value, s.origin[n].value;
    var apiPart := ApiPart(es, g);
    var workPart := WorkPart(es, g);
    if s.api.bots[a].key != "" && s.api.bots[a].key == s.api.bots[b].key {
      ApiBots.OneBotPerKey(apiPart, g.codec, a, b);
    } else {
      ApiBots.OneBotPerDedup(apiPart, g.codec, a, b);
    }
    OneMessagePerBot(es, g, m, n);
    Work.AckedIsEarned(g.slots, workPart, m);
  }

  /** Every message of a bot carries the job of that bot, which is as its creator asked. */
  lemma WorkersAreAskedFor(es: seq<Event>, g: Setting, m: nat)
    requires CanRun(es, g) && m < |After(es, g).origin| && After(es, g).origin[m].Some?
    ensures var s := After(es, g);
            && BotBehind(s, m).Some?
            && m < |s.work.group.entries|
            && s.work.group.entries[m] == WellFormed(g.jobOf(s.origin[m].value))
            && var bot := BotBehind(s, m).value;
               bot.creator < |s.api.procs| && s.api.procs[bot.creator].req.cmd.Create? &&
               var req := s.api.procs[bot.creator].req;
               bot.tenant == req.tenant && bot.key == req.key && bot.allowMultiple == req.cmd.allowMultiple
  {
    var s := After(es, g);
    var part := ApiPart(es, g);
    OneMessagePerBot(es, g, m, m);
    AllLabelled(es, g);
    ApiBots.InvHolds(part, g.codec);
    var b := s.origin[m].value;
    assert ApiBots.BotInv(s.api.procs, s.api.jobs, s.api.bots[b], b);
  }
}

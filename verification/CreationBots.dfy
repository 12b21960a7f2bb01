/** Over all interleavings: bots, jobs and dedup entries. */
module CreationBots {
  import opened Options
  import opened Creation

  predicate HasReply(st: Stage) {
    st.Completing? || st.Answered?
  }

  /** `b` is a bot of this tenant that claims this dedup hash for itself. */
  predicate Owns(b: Bot, tenant: string, dedup: string) {
    !b.allowMultiple && b.tenant == tenant && b.dedup == dedup
  }

  /** What is known of request `i`. */
  predicate ProcInv(bots: seq<Bot>, jobs: multiset<nat>, p: Proc, i: nat) {
    && (p.req.cmd.Create? ==> |p.req.cmd.dedup| == HASH_LENGTH)
    && (InHandler(p.stage) ==> p.req.cmd.Create?)
    && (p.stage.Beginning? || p.stage.Selecting? || p.stage.Checking? || p.stage.Inserting? ==> p.bot.None?)
    && (p.stage.Checking? || p.stage.Locking? ==> !p.req.cmd.allowMultiple)
    && (p.bot.Some? ==> p.bot.value < |bots| && bots[p.bot.value].creator == i)
    && (p.stage.Enqueuing? ==> p.bot == Some(p.stage.id) && p.stage.id !in jobs)
    && (p.stage.Locking? ==> p.bot == Some(p.stage.id))
    && (HasReply(p.stage) ==> ReplyInv(bots, p, p.stage.reply))
  }

  predicate ReplyInv(bots: seq<Bot>, p: Proc, r: Reply) {
    if r.Created? then p.bot == Some(r.bot)
    else if r.Existing? then
      && p.req.cmd.Create?
      && !p.req.cmd.allowMultiple
      && r.bot < |bots|
      && Owns(bots[r.bot], p.req.tenant, p.req.cmd.dedup)
    else true
  }

  /** Bot `b` is what its creator asked for. */
  predicate BotInv(procs: seq<Proc>, jobs: multiset<nat>, bot: Bot, b: nat) {
    && bot.creator < |procs|
    && procs[bot.creator].req.cmd.Create?
    && procs[bot.creator].bot == Some(b)
    && bot == BotOf(procs[bot.creator].req, bot.creator)
    && jobs[b] <= 1
  }

  /** The unique indexes hold. */
  ghost predicate Unique(bots: seq<Bot>) {
    forall i, j :: 0 <= i < |bots| && 0 <= j < |bots| && (SameKey(bots[i], bots[j]) || SameDedup(bots[i], bots[j]))
      ==> i == j
  }

  predicate DedupInv(bots: seq<Bot>, name: string, b: nat) {
    && b < |bots|
    && !bots[b].allowMultiple
    && |bots[b].dedup| == HASH_LENGTH
    && name == DedupKey(bots[b].tenant, bots[b].dedup)
  }

  ghost predicate Inv(s: System) {
    && (forall i :: 0 <= i < |s.procs| ==> ProcInv(s.bots, s.jobs, s.procs[i], i))
    && (forall b :: 0 <= b < |s.bots| ==> BotInv(s.procs, s.jobs, s.bots[b], b))
    && Unique(s.bots)
    && (forall b :: b in s.jobs ==> b < |s.bots|)
    && (forall name :: name in s.dedup ==> DedupInv(s.bots, name, s.dedup[name]))
  }

  // ---------------------------------------------------------------- each access keeps the invariant

  /** An access that changes neither bots nor jobs: only its request and the dedup entries are at stake. */
  lemma Moves(s: System, t: System, i: nat, q: Proc)
    requires Inv(s) && i < |s.procs| && t.procs == s.procs[i := q] && t.bots == s.bots && t.jobs == s.jobs
    requires q.req == s.procs[i].req && q.bot == s.procs[i].bot && ProcInv(s.bots, s.jobs, q, i)
    requires forall name :: name in t.dedup ==> DedupInv(s.bots, name, t.dedup[name])
    ensures Inv(t)
  {
    forall b | 0 <= b < |t.bots|
      ensures BotInv(t.procs, t.jobs, t.bots[b], b)
    {
      assert BotInv(s.procs, s.jobs, s.bots[b], b);
    }
  }

  lemma BeginKeeps(s: System, i: nat, o: Outcome)
    requires Inv(s) && i < |s.procs| && s.procs[i].stage.Beginning?
    ensures Inv(BeginStep(s, i, o))
  {
    var t := BeginStep(s, i, o);
    assert ProcInv(s.bots, s.jobs, s.procs[i], i);
    Moves(s, t, i, t.procs[i]);
  }

  lemma SelectKeeps(s: System, i: nat, o: Outcome)
    requires Inv(s) && i < |s.procs| && s.procs[i].stage.Selecting?
    ensures Inv(SelectStep(s, i, o))
  {
    var t := SelectStep(s, i, o);
    assert ProcInv(s.bots, s.jobs, s.procs[i], i);
    Moves(s, t, i, t.procs[i]);
  }

  lemma CheckKeeps(s: System, i: nat, o: Outcome)
    requires Inv(s) && i < |s.procs| && s.procs[i].stage.Checking? && s.procs[i].req.cmd.Create?
    ensures Inv(CheckStep(s, i, o))
  {
    var t, p := CheckStep(s, i, o), s.procs[i];
    var name := DedupKey(p.req.tenant, p.req.cmd.dedup);
    assert ProcInv(s.bots, s.jobs, p, i);
    if name in s.dedup {
      assert DedupInv(s.bots, name, s.dedup[name]);
      var b := s.bots[s.dedup[name]];
      DedupKeyInjective(p.req.tenant, p.req.cmd.dedup, b.tenant, b.dedup);
    }
    Moves(s, t, i, t.procs[i]);
  }

  /** Other requests and bots, when a bot is added. */
  lemma ProcFrame(bots: seq<Bot>, b: Bot, jobs: multiset<nat>, p: Proc, i: nat)
    requires ProcInv(bots, jobs, p, i)
    ensures ProcInv(bots + [b], jobs, p, i)
  {
  }

  lemma BotFrame(procs: seq<Proc>, i: nat, q: Proc, jobs: multiset<nat>, bot: Bot, b: nat)
    requires BotInv(procs, jobs, bot, b) && i < |procs| && q.req == procs[i].req
    requires bot.creator == i ==> q.bot == procs[i].bot
    ensures BotInv(procs[i := q], jobs, bot, b)
  {
  }

  lemma InsertKeepsUnique(bots: seq<Bot>, b: Bot)
    requires Unique(bots) && !Clashes(bots, b)
    ensures Unique(bots + [b])
  {
    var all := bots + [b];
    forall i, j | 0 <= i < |all| && 0 <= j < |all| && (SameKey(all[i], all[j]) || SameDedup(all[i], all[j]))
      ensures i == j
    {
      assert i < |bots| ==> !SameKey(bots[i], b) && !SameDedup(bots[i], b);
      assert j < |bots| ==> !SameKey(bots[j], b) && !SameDedup(bots[j], b);
    }
  }

  /** The request that has just inserted bot number |bots|. */
  lemma InsertOwn(s: System, i: nat, o: Outcome)
    requires i < |s.procs| && s.procs[i].stage.Inserting? && s.procs[i].req.cmd.Create?
    requires ProcInv(s.bots, s.jobs, s.procs[i], i) && |s.bots| !in s.jobs
    requires o != Refused && !Clashes(s.bots, BotOf(s.procs[i].req, i))
    ensures ProcInv(s.bots + [BotOf(s.procs[i].req, i)], s.jobs, InsertStep(s, i, o).procs[i], i)
  {
  }

  lemma InsertKeeps(s: System, i: nat, o: Outcome)
    requires Inv(s) && i < |s.procs| && s.procs[i].stage.Inserting? && s.procs[i].req.cmd.Create?
    ensures Inv(InsertStep(s, i, o))
  {
    var t, b := InsertStep(s, i, o), BotOf(s.procs[i].req, i);
    assert ProcInv(s.bots, s.jobs, s.procs[i], i);
    if o == Refused || Clashes(s.bots, b) {
      Moves(s, t, i, t.procs[i]);
    } else {
      InsertKeepsUnique(s.bots, b);
      InsertOwn(s, i, o);
      forall j | 0 <= j < |t.procs|
        ensures ProcInv(t.bots, t.jobs, t.procs[j], j)
      {
        if j != i {
          ProcFrame(s.bots, b, s.jobs, s.procs[j], j);
        }
      }
      InsertBots(s, i, o);
      forall name | name in t.dedup
        ensures DedupInv(t.bots, name, t.dedup[name])
      {
        assert DedupInv(s.bots, name, s.dedup[name]);
      }
    }
  }

  lemma InsertBots(s: System, i: nat, o: Outcome)
    requires Inv(s) && i < |s.procs| && s.procs[i].stage.Inserting? && s.procs[i].req.cmd.Create?
    requires o != Refused && !Clashes(s.bots, BotOf(s.procs[i].req, i))
    ensures var t := InsertStep(s, i, o);
            forall b :: 0 <= b < |t.bots| ==> BotInv(t.procs, t.jobs, t.bots[b], b)
  {
    var t := InsertStep(s, i, o);
    assert ProcInv(s.bots, s.jobs, s.procs[i], i);
    forall b | 0 <= b < |t.bots|
      ensures BotInv(t.procs, t.jobs, t.bots[b], b)
    {
      if b < |s.bots| {
        assert BotInv(s.procs, s.jobs, s.bots[b], b);
        BotFrame(s.procs, i, t.procs[i], s.jobs, s.bots[b], b);
      }
    }
  }

  lemma EnqueueKeeps(s: System, i: nat, o: Outcome)
    requires Inv(s) && i < |s.procs| && s.procs[i].stage.Enqueuing? && s.procs[i].req.cmd.Create?
    ensures Inv(EnqueueStep(s, i, o))
  {
    var t, p, id := EnqueueStep(s, i, o), s.procs[i], s.procs[i].stage.id;
    assert ProcInv(s.bots, s.jobs, p, i);
    assert ProcInv(s.bots, t.jobs, t.procs[i], i);
    forall j | 0 <= j < |t.procs| && j != i
      ensures ProcInv(t.bots, t.jobs, t.procs[j], j)
    {
      assert ProcInv(s.bots, s.jobs, s.procs[j], j);
    }
    forall b | 0 <= b < |t.bots|
      ensures BotInv(t.procs, t.jobs, t.bots[b], b)
    {
      assert BotInv(s.procs, s.jobs, s.bots[b], b);
      assert t.jobs[b] <= 1;
      assert t.procs[i].bot == p.bot && t.procs[i].req == p.req;
    }
  }

  lemma LockKeeps(s: System, i: nat, o: Outcome)
    requires Inv(s) && i < |s.procs| && s.procs[i].stage.Locking? && s.procs[i].req.cmd.Create?
    ensures Inv(LockStep(s, i, o))
  {
    var t, p, id := LockStep(s, i, o), s.procs[i], s.procs[i].stage.id;
    assert ProcInv(s.bots, s.jobs, p, i);
    assert BotInv(s.procs, s.jobs, s.bots[id], id);
    assert DedupInv(s.bots, DedupKey(p.req.tenant, p.req.cmd.dedup), id);
    Moves(s, t, i, t.procs[i]);
  }

  lemma CompleteKeeps(s: System, i: nat, o: Outcome, c: Codec)
    requires Inv(s) && i < |s.procs| && s.procs[i].stage.Completing?
    ensures Inv(CompleteStep(s, i, o, c))
  {
    var t := CompleteStep(s, i, o, c);
    assert ProcInv(s.bots, s.jobs, s.procs[i], i);
    Moves(s, t, i, t.procs[i]);
  }

  lemma AdvanceKeeps(s: System, i: nat, o: Outcome, c: Codec)
    requires Inv(s) && CanStep(s, Advance(i, o))
    ensures Inv(AdvanceStep(s, i, o, c))
  {
    var st := s.procs[i].stage;
    if st.Beginning? {
      BeginKeeps(s, i, o);
    } else if st.Selecting? {
      SelectKeeps(s, i, o);
    } else if st.Checking? {
      CheckKeeps(s, i, o);
    } else if st.Inserting? {
      InsertKeeps(s, i, o);
    } else if st.Enqueuing? {
      EnqueueKeeps(s, i, o);
    } else if st.Locking? {
      LockKeeps(s, i, o);
    } else {
      CompleteKeeps(s, i, o, c);
    }
  }

  lemma ArriveKeeps(s: System, req: Request, c: Codec)
    requires Inv(s) && CanStep(s, Arrive(req))
    ensures Inv(Step(s, Arrive(req), c))
  {
    var t := Step(s, Arrive(req), c);
    forall b | 0 <= b < |t.bots|
      ensures BotInv(t.procs, t.jobs, t.bots[b], b)
    {
      assert BotInv(s.procs, s.jobs, s.bots[b], b);
    }
  }

  lemma OutsideKeeps(s: System, e: Event, c: Codec)
    requires Inv(s) && CanStep(s, e) && !e.Advance? && !e.Arrive?
    ensures Inv(Step(s, e, c))
  {
    if e.Crash? {
      assert ProcInv(s.bots, s.jobs, s.procs[e.i], e.i);
      Moves(s, Step(s, e, c), e.i, s.procs[e.i].(stage := Crashed));
    }
  }

  lemma {:induction false} InvHolds(es: seq<Event>, c: Codec)
    requires CanRun(es, c)
    ensures Inv(After(es, c))
  {
    if es != [] {
      var s, e := After(es[..|es| - 1], c), es[|es| - 1];
      RunLast(es, c);
      InvHolds(es[..|es| - 1], c);
      if e.Advance? {
        AdvanceKeeps(s, e.i, e.o, c);
      } else if e.Arrive? {
        ArriveKeeps(s, e.req, c);
      } else {
        OutsideKeeps(s, e, c);
      }
    }
  }

  // ---------------------------------------------------------------- what every run guarantees

  /** The request was answered, or is about to be, with reply `r`. */
  predicate Says(s: System, i: nat, r: Reply)
    requires i < |s.procs|
  {
    HasReply(s.procs[i].stage) && s.procs[i].stage.reply == r
  }

  /** At most one bot and one job per tenant and idempotency key. */
  lemma OneBotPerKey(es: seq<Event>, c: Codec, a: nat, b: nat)
    requires CanRun(es, c) && a < |After(es, c).bots| && b < |After(es, c).bots|
    requires var x, y := After(es, c).bots[a], After(es, c).bots[b];
             x.key != "" && x.tenant == y.tenant && x.key == y.key
    ensures a == b && After(es, c).jobs[a] <= 1
  {
    InvHolds(es, c);
    var s := After(es, c);
    assert BotInv(s.procs, s.jobs, s.bots[a], a);
  }

  /** At most one bot and one job per tenant and dedup hash among those that do not allow multiple bots. */
  lemma OneBotPerDedup(es: seq<Event>, c: Codec, a: nat, b: nat)
    requires CanRun(es, c) && a < |After(es, c).bots| && b < |After(es, c).bots|
    requires var x, y := After(es, c).bots[a], After(es, c).bots[b];
             x.dedup != "" && x.tenant == y.tenant && x.dedup == y.dedup && !x.allowMultiple && !y.allowMultiple
    ensures a == b && After(es, c).jobs[a] <= 1
  {
    InvHolds(es, c);
    var s := After(es, c);
    assert BotInv(s.procs, s.jobs, s.bots[a], a);
  }

  /** Two requests told that they created a bot under one idempotency key are the same request. */
  lemma CreatedOnce(es: seq<Event>, c: Codec, i: nat, j: nat, a: nat, b: nat)
    requires CanRun(es, c) && i < |After(es, c).procs| && j < |After(es, c).procs|
    requires Says(After(es, c), i, Created(a)) && Says(After(es, c), j, Created(b))
    requires var s := After(es, c);
             s.procs[i].req.key != "" && KeyOf(s.procs[i].req) == KeyOf(s.procs[j].req)
    ensures a == b && i == j
  {
    InvHolds(es, c);
    var s := After(es, c);
    assert ProcInv(s.bots, s.jobs, s.procs[i], i) && ProcInv(s.bots, s.jobs, s.procs[j], j);
    assert BotInv(s.procs, s.jobs, s.bots[a], a) && BotInv(s.procs, s.jobs, s.bots[b], b);
    OneBotPerKey(es, c, a, b);
  }

  /** A dedup hit names the one bot of this tenant that claims the hash. */
  lemma DedupHitIsExact(es: seq<Event>, c: Codec, i: nat, b: nat, other: nat)
    requires CanRun(es, c) && i < |After(es, c).procs| && Says(After(es, c), i, Existing(b))
    requires other < |After(es, c).bots|
    ensures var s := After(es, c);
            var req := s.procs[i].req;
            && req.cmd.Create? && b < |s.bots|
            && (Owns(s.bots[other], req.tenant, req.cmd.dedup) <==> other == b)
  {
    InvHolds(es, c);
    var s := After(es, c);
    assert ProcInv(s.bots, s.jobs, s.procs[i], i);
    if Owns(s.bots[other], s.procs[i].req.tenant, s.procs[i].req.cmd.dedup) {
      OneBotPerDedup(es, c, other, b);
    }
  }

  /**
   The database is the backstop: once a bot holds a key or a dedup hash, a later request that gets as far
   as inserting is told 500, however long ago rows were swept or Redis entries dropped.
   */
  lemma SecondInsertFails(es: seq<Event>, c: Codec, i: nat, o: Outcome, b: nat)
    requires CanRun(es, c) && CanStep(After(es, c), Advance(i, o))
    requires After(es, c).procs[i].stage.Inserting? && b < |After(es, c).bots|
    requires var s := After(es, c);
             SameKey(s.bots[b], BotOf(s.procs[i].req, i)) || SameDedup(s.bots[b], BotOf(s.procs[i].req, i))
    ensures var t := Step(After(es, c), Advance(i, o), c);
            Says(t, i, ServerError) && t.bots == After(es, c).bots && t.jobs == After(es, c).jobs
  {
  }
}

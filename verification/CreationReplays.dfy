/** Over all interleavings: which answer a repeated request gets. */
module CreationReplays {
  import opened Options
  import opened Idempotency
  import opened Creation

  // ---------------------------------------------------------------- whose row is it

  /** Request `src` reserved the row of key `k` with this body. */
  predicate Reserved(procs: seq<Proc>, k: Key, hash: string, src: nat) {
    && src < |procs|
    && procs[src].first
    && procs[src].req.key != ""
    && KeyOf(procs[src].req) == k
    && procs[src].req.hash == hash
  }

  /** Request `src` reserved the key of `p` with another body. */
  predicate ReservedOtherwise(procs: seq<Proc>, p: Proc, src: nat) {
    && src < |procs|
    && procs[src].req.hash != p.req.hash
    && Reserved(procs, KeyOf(p.req), procs[src].req.hash, src)
  }

  /** What the middleware told a request that did not come first. */
  predicate Told(procs: seq<Proc>, p: Proc) {
    && (p.stage.Replayed? ==> Reserved(procs, KeyOf(p.req), p.req.hash, p.stage.source))
    && (p.stage.TooEarly? ==> Reserved(procs, KeyOf(p.req), p.req.hash, p.stage.source))
    && (p.stage.Conflicted? ==> ReservedOtherwise(procs, p, p.stage.source))
  }

  ghost predicate Inv(s: System) {
    && (forall k :: k in s.idem ==> Reserved(s.procs, k, s.idem[k].hash, s.idem[k].owner))
    && (forall i :: 0 <= i < |s.procs| ==> Told(s.procs, s.procs[i]))
  }

  /** `t` differs from `s` in request `i` only, and there not in what was asked; nor does it stop being first. */
  predicate OnlyMoved(s: System, t: System, i: nat) {
    && i < |s.procs|
    && |t.procs| == |s.procs|
    && t.procs == s.procs[i := t.procs[i]]
    && t.procs[i].req == s.procs[i].req
    && (s.procs[i].first ==> t.procs[i].first)
  }

  lemma AdvanceOnlyMoves(s: System, i: nat, o: Outcome, c: Codec)
    requires CanStep(s, Advance(i, o))
    ensures OnlyMoved(s, AdvanceStep(s, i, o, c), i)
  {
  }

  lemma ToldFrame(s: System, t: System, i: nat, p: Proc)
    requires Told(s.procs, p) && OnlyMoved(s, t, i)
    ensures Told(t.procs, p)
  {
  }

  /** Only the SELECT tells a request about another. */
  predicate Tells(st: Stage) {
    st.Replayed? || st.TooEarly? || st.Conflicted?
  }

  lemma BeginTellsNothing(s: System, i: nat, o: Outcome)
    requires i < |s.procs| && s.procs[i].stage.Beginning?
    ensures !Tells(BeginStep(s, i, o).procs[i].stage)
  {
  }

  lemma HandlerTellsNothing(s: System, i: nat, o: Outcome, c: Codec)
    requires CanStep(s, Advance(i, o)) && InHandler(s.procs[i].stage)
    ensures !Tells(AdvanceStep(s, i, o, c).procs[i].stage)
  {
  }

  lemma SelectTold(s: System, i: nat, o: Outcome)
    requires i < |s.procs|
    requires var k := KeyOf(s.procs[i].req); k in s.idem ==> Reserved(s.procs, k, s.idem[k].hash, s.idem[k].owner)
    requires s.procs[i].stage.Selecting?
    ensures Told(SelectStep(s, i, o).procs, SelectStep(s, i, o).procs[i])
  {
    var t := SelectStep(s, i, o);
    var q := t.procs[i];
    assert q.first == s.procs[i].first && q.req == s.procs[i].req;
    if Tells(q.stage) {
      var row := s.idem[KeyOf(q.req)];
      assert q.stage.source == row.owner;
      assert Reserved(t.procs, KeyOf(q.req), row.hash, row.owner);
      assert q.stage.Conflicted? <==> row.hash != q.req.hash;
    }
  }

  /** The rows an access can leave behind: those of before, with a response at most, and one of its own. */
  lemma AdvanceRows(s: System, i: nat, o: Outcome, c: Codec, k: Key)
    requires CanStep(s, Advance(i, o)) && k in AdvanceStep(s, i, o, c).idem
    ensures var t := AdvanceStep(s, i, o, c);
            if k in s.idem then t.idem[k] == s.idem[k].(response := t.idem[k].response)
            else Reserved(t.procs, k, t.idem[k].hash, t.idem[k].owner) && t.idem[k].owner == i
  {
  }

  lemma AdvanceKeeps(s: System, i: nat, o: Outcome, c: Codec)
    requires Inv(s) && CanStep(s, Advance(i, o))
    ensures Inv(AdvanceStep(s, i, o, c))
  {
    var t := AdvanceStep(s, i, o, c);
    AdvanceOnlyMoves(s, i, o, c);
    if s.procs[i].stage.Selecting? {
      SelectTold(s, i, o);
    } else if s.procs[i].stage.Beginning? {
      BeginTellsNothing(s, i, o);
    } else if InHandler(s.procs[i].stage) {
      HandlerTellsNothing(s, i, o, c);
    }
    forall j | 0 <= j < |t.procs| && j != i
      ensures Told(t.procs, t.procs[j])
    {
      ToldFrame(s, t, i, s.procs[j]);
    }
    forall k | k in t.idem
      ensures Reserved(t.procs, k, t.idem[k].hash, t.idem[k].owner)
    {
      AdvanceRows(s, i, o, c, k);
    }
  }

  lemma OutsideKeeps(s: System, e: Event, c: Codec)
    requires Inv(s) && CanStep(s, e) && !e.Advance?
    ensures Inv(Step(s, e, c))
  {
    var t := Step(s, e, c);
    forall j | 0 <= j < |t.procs|
      ensures Told(t.procs, t.procs[j])
    {
      assert j < |s.procs| ==> Told(s.procs, s.procs[j]);
    }
  }

  lemma {:induction false} InvHolds(es: seq<Event>, c: Codec)
    requires CanRun(es, c)
    ensures Inv(After(es, c))
  {
    if es != [] {
      var s, e := After(es[..|es| - 1], c), es[|es| - 1];
      RunLast(es, c);
      InvHolds(es[..|es| - 1], c);
      if e.Advance? {
        AdvanceKeeps(s, e.i, e.o, c);
      } else {
        OutsideKeeps(s, e, c);
      }
    }
  }

  /** The middleware tells a used key apart by its body: 409 for another body, never a replay. */
  lemma AnswersMatchTheBody(es: seq<Event>, c: Codec, i: nat)
    requires CanRun(es, c) && i < |After(es, c).procs|
    ensures var s := After(es, c);
            var st := s.procs[i].stage;
            && (st.Conflicted? ==> st.source < |s.procs| && s.procs[st.source].req.hash != s.procs[i].req.hash)
            && (st.Replayed? || st.TooEarly? ==>
                  st.source < |s.procs| && s.procs[st.source].req.hash == s.procs[i].req.hash)
            && (st.Conflicted? || st.Replayed? || st.TooEarly? ==>
                  s.procs[st.source].first && KeyOf(s.procs[st.source].req) == KeyOf(s.procs[i].req))
  {
    InvHolds(es, c);
    assert Told(After(es, c).procs, After(es, c).procs[i]);
  }

  /** As long as a row lives, its body hash, its expiry and the request it belongs to stay the same. */
  lemma RowsAreFixed(s: System, e: Event, c: Codec, k: Key)
    requires CanStep(s, e) && k in s.idem && k in Step(s, e, c).idem
    ensures Step(s, e, c).idem[k] == s.idem[k].(response := Step(s, e, c).idem[k].response)
  {
    if e.Advance? {
      AdvanceRows(s, e.i, e.o, c, k);
    }
  }

  // ---------------------------------------------------------------- runs in which no handler outlives its row

  predicate Active(st: Stage) {
    InHandler(st) || st.Completing?
  }

  /** Every row the sweep would delete belongs to a request that is over. */
  ghost predicate SweepIsSafe(s: System) {
    forall k :: k in s.idem && s.idem[k].expires < s.now && s.idem[k].owner < |s.procs| ==>
      !Active(s.procs[s.idem[k].owner].stage)
  }

  ghost predicate Safe(es: seq<Event>, c: Codec)
    requires CanRun(es, c)
  {
    if es == [] then true
    else
      RunLast(es, c);
      && Safe(es[..|es| - 1], c)
      && (es[|es| - 1].SweepRows? ==> SweepIsSafe(After(es[..|es| - 1], c)))
  }

  /** A request that came first has its row, without a response, for as long as its handler is at work. */
  predicate HasRow(idem: Table, p: Proc, i: nat) {
    && (p.stage.Beginning? || p.stage.Selecting? ==> !p.first)
    && (p.stage.Completing? ==> p.first)
    && (p.first && Active(p.stage) ==>
          KeyOf(p.req) in idem && idem[KeyOf(p.req)].owner == i && idem[KeyOf(p.req)].response == None)
  }

  /** Request `src` has answered, and this is what its answer is stored as. */
  predicate Said(procs: seq<Proc>, c: Codec, src: nat, status: int, text: string) {
    && src < |procs|
    && procs[src].stage.Answered?
    && status == StatusOf(procs[src].stage.reply)
    && BodyColumn(c.render(procs[src].stage.reply), c.norm) == Some(text)
  }

  predicate RowSaid(procs: seq<Proc>, c: Codec, row: Row) {
    row.response.Some? ==> Said(procs, c, row.owner, row.response.value.status, row.response.value.text)
  }

  /** A replay is the source's answer, with its body as JSONB prints it; JSON null comes back empty. */
  predicate ReplaySaid(procs: seq<Proc>, c: Codec, p: Proc) {
    p.stage.Replayed? ==> Repeats(procs, c, p.stage.source, p.stage.status, p.stage.body)
  }

  predicate Repeats(procs: seq<Proc>, c: Codec, src: nat, status: int, body: string) {
    && src < |procs|
    && procs[src].stage.Answered?
    && status == StatusOf(procs[src].stage.reply)
    && var text := BodyColumn(c.render(procs[src].stage.reply), c.norm);
       text.Some? && body == if text.value == "null" then "" else text.value
  }

  ghost predicate Faithful(s: System, c: Codec) {
    forall i :: 0 <= i < |s.procs| ==> ReplaySaid(s.procs, c, s.procs[i])
  }

  ghost predicate SafeInv(s: System, c: Codec) {
    && (forall i :: 0 <= i < |s.procs| ==> HasRow(s.idem, s.procs[i], i))
    && (forall k :: k in s.idem ==> RowSaid(s.procs, c, s.idem[k]))
    && Faithful(s, c)
  }

  /** Rows and replays speak of requests that are over, so another request may move. */
  lemma SaidFrame(s: System, t: System, i: nat, c: Codec, src: nat, status: int, text: string)
    requires OnlyMoved(s, t, i) && !IsOver(s.procs[i].stage) && Said(s.procs, c, src, status, text)
    ensures Said(t.procs, c, src, status, text)
  {
  }

  lemma RepeatsFrame(s: System, t: System, i: nat, c: Codec, src: nat, status: int, body: string)
    requires OnlyMoved(s, t, i) && !IsOver(s.procs[i].stage) && Repeats(s.procs, c, src, status, body)
    ensures Repeats(t.procs, c, src, status, body)
  {
  }

  /** What a move needs: its own request, its own row, and rows of others left alone. */
  lemma Moves(s: System, t: System, i: nat, c: Codec)
    requires SafeInv(s, c) && OnlyMoved(s, t, i) && !IsOver(s.procs[i].stage)
    requires HasRow(t.idem, t.procs[i], i) && ReplaySaid(t.procs, c, t.procs[i])
    requires forall k :: k in s.idem ==> k in t.idem && (t.idem[k] == s.idem[k] || s.idem[k].owner == i)
    requires forall k :: k in t.idem && (k in s.idem ==> s.idem[k].owner == i) ==> RowSaid(t.procs, c, t.idem[k])
    ensures SafeInv(t, c)
  {
    forall j | 0 <= j < |t.procs|
      ensures HasRow(t.idem, t.procs[j], j)
    {
      assert HasRow(s.idem, s.procs[j], j);
    }
    forall k | k in t.idem
      ensures RowSaid(t.procs, c, t.idem[k])
    {
      if k in s.idem && s.idem[k].owner != i {
        var row := s.idem[k];
        assert RowSaid(s.procs, c, row);
        if row.response.Some? {
          SaidFrame(s, t, i, c, row.owner, row.response.value.status, row.response.value.text);
        }
      }
    }
    forall j | 0 <= j < |t.procs|
      ensures ReplaySaid(t.procs, c, t.procs[j])
    {
      var st := s.procs[j].stage;
      assert ReplaySaid(s.procs, c, s.procs[j]);
      if j != i && st.Replayed? {
        RepeatsFrame(s, t, i, c, st.source, st.status, st.body);
      }
    }
  }

  lemma BeginSafe(s: System, i: nat, o: Outcome, c: Codec)
    requires Inv(s) && SafeInv(s, c) && i < |s.procs| && s.procs[i].stage.Beginning?
    ensures SafeInv(BeginStep(s, i, o), c)
  {
    var t := BeginStep(s, i, o);
    assert HasRow(s.idem, s.procs[i], i);
    Moves(s, t, i, c);
  }

  lemma SelectSafe(s: System, i: nat, o: Outcome, c: Codec)
    requires Inv(s) && SafeInv(s, c) && i < |s.procs| && s.procs[i].stage.Selecting?
    ensures SafeInv(SelectStep(s, i, o), c)
  {
    var t, k := SelectStep(s, i, o), KeyOf(s.procs[i].req);
    assert HasRow(s.idem, s.procs[i], i);
    if k in s.idem {
      assert RowSaid(s.procs, c, s.idem[k]);
    }
    Moves(s, t, i, c);
  }

  lemma HandlerSafe(s: System, i: nat, o: Outcome, c: Codec)
    requires Inv(s) && SafeInv(s, c) && CanStep(s, Advance(i, o)) && InHandler(s.procs[i].stage)
    ensures SafeInv(AdvanceStep(s, i, o, c), c)
  {
    var t := AdvanceStep(s, i, o, c);
    assert HasRow(s.idem, s.procs[i], i);
    Moves(s, t, i, c);
  }

  lemma CompleteSafe(s: System, i: nat, o: Outcome, c: Codec)
    requires Inv(s) && SafeInv(s, c) && i < |s.procs| && s.procs[i].stage.Completing?
    ensures SafeInv(CompleteStep(s, i, o, c), c)
  {
    var t := CompleteStep(s, i, o, c);
    assert HasRow(s.idem, s.procs[i], i);
    Moves(s, t, i, c);
  }

  lemma OutsideSafe(s: System, e: Event, c: Codec)
    requires Inv(s) && SafeInv(s, c) && CanStep(s, e) && !e.Advance? && (e.SweepRows? ==> SweepIsSafe(s))
    ensures SafeInv(Step(s, e, c), c)
  {
    var t := Step(s, e, c);
    if e.Crash? {
      assert HasRow(s.idem, s.procs[e.i], e.i);
      Moves(s, t, e.i, c);
    } else if e.SweepRows? {
      forall j | 0 <= j < |t.procs|
        ensures HasRow(t.idem, t.procs[j], j)
      {
        assert HasRow(s.idem, s.procs[j], j);
      }
      forall k | k in t.idem
        ensures RowSaid(t.procs, c, t.idem[k])
      {
        assert RowSaid(s.procs, c, s.idem[k]);
      }
      forall j | 0 <= j < |t.procs|
        ensures ReplaySaid(t.procs, c, t.procs[j])
      {
        assert ReplaySaid(s.procs, c, s.procs[j]);
      }
    } else if e.Arrive? {
      forall k | k in t.idem
        ensures RowSaid(t.procs, c, t.idem[k])
      {
        assert RowSaid(s.procs, c, s.idem[k]);
      }
      forall j | 0 <= j < |t.procs|
        ensures ReplaySaid(t.procs, c, t.procs[j])
      {
        assert j < |s.procs| ==> ReplaySaid(s.procs, c, s.procs[j]);
      }
    }
  }

  lemma AdvanceSafe(s: System, i: nat, o: Outcome, c: Codec)
    requires Inv(s) && SafeInv(s, c) && CanStep(s, Advance(i, o))
    ensures SafeInv(AdvanceStep(s, i, o, c), c)
  {
    var st := s.procs[i].stage;
    if st.Beginning? {
      BeginSafe(s, i, o, c);
    } else if st.Selecting? {
      SelectSafe(s, i, o, c);
    } else if InHandler(st) {
      HandlerSafe(s, i, o, c);
    } else {
      CompleteSafe(s, i, o, c);
    }
  }

  lemma {:induction false} SafeHolds(es: seq<Event>, c: Codec)
    requires CanRun(es, c) && Safe(es, c)
    ensures Inv(After(es, c)) && SafeInv(After(es, c), c)
  {
    InvHolds(es, c);
    if es != [] {
      var s, e := After(es[..|es| - 1], c), es[|es| - 1];
      RunLast(es, c);
      SafeHolds(es[..|es| - 1], c);
      if e.Advance? {
        AdvanceSafe(s, e.i, e.o, c);
      } else {
        OutsideSafe(s, e, c);
      }
    }
  }

  // ---------------------------------------------------------------- the theorems

  /** Every replay is the one answer of the request that came first with this key and this very body. */
  lemma ReplayIsTheAnswer(es: seq<Event>, c: Codec, i: nat)
    requires CanRun(es, c) && Safe(es, c) && i < |After(es, c).procs| && After(es, c).procs[i].stage.Replayed?
    ensures var s := After(es, c);
            var p := s.procs[i];
            && Reserved(s.procs, KeyOf(p.req), p.req.hash, p.stage.source)
            && Repeats(s.procs, c, p.stage.source, p.stage.status, p.stage.body)
  {
    SafeHolds(es, c);
    var s := After(es, c);
    assert Told(s.procs, s.procs[i]) && ReplaySaid(s.procs, c, s.procs[i]);
  }

  /** At most one handler is at work under one tenant and key. */
  lemma OneHandlerPerKey(es: seq<Event>, c: Codec, i: nat, j: nat)
    requires CanRun(es, c) && Safe(es, c) && i < |After(es, c).procs| && j < |After(es, c).procs|
    requires var s := After(es, c);
             && s.procs[i].req.key != ""
             && KeyOf(s.procs[i].req) == KeyOf(s.procs[j].req)
             && s.procs[i].first && Active(s.procs[i].stage)
             && s.procs[j].first && Active(s.procs[j].stage)
    ensures i == j
  {
    SafeHolds(es, c);
    var s := After(es, c);
    assert HasRow(s.idem, s.procs[i], i) && HasRow(s.idem, s.procs[j], j);
  }

  /** The response of a row is written once: as long as the row lives, it stays. */
  lemma ResponseIsFinal(es: seq<Event>, e: Event, c: Codec, k: Key)
    requires CanRun(es, c) && Safe(es, c) && CanStep(After(es, c), e)
    requires k in After(es, c).idem && After(es, c).idem[k].response.Some? && k in Step(After(es, c), e, c).idem
    ensures Step(After(es, c), e, c).idem[k] == After(es, c).idem[k]
  {
    SafeHolds(es, c);
    var s := After(es, c);
    if e.Advance? {
      assert HasRow(s.idem, s.procs[e.i], e.i);
      assert RowSaid(s.procs, c, s.idem[k]);
      RowsAreFixed(s, e, c, k);
    }
  }
}

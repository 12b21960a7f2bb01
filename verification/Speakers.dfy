/**
 The speaker manager: who is speaking, who was ever seen, and the fan-out of events to subscribers over
 buffered channels that never block the pusher.
 */
module Speakers {
  import opened Options

  datatype SpeakerEvent = SpeakerEvent(name: string, active: bool)

  /** A buffered channel: what is in it, how much it holds, whether it is closed. */
  datatype Chan = Chan(buf: seq<SpeakerEvent>, cap: nat, closed: bool)

  /** A send that does not block: with the buffer full the event is dropped. */
  function Offer(c: Chan, ev: SpeakerEvent): Chan {
    if |c.buf| < c.cap then c.(buf := c.buf + [ev]) else c
  }

  function RemoveFirst<T(==)>(s: seq<T>, x: T): seq<T> {
    if s == [] then []
    else if s[0] == x then s[1..]
    else [s[0]] + RemoveFirst(s[1..], x)
  }

  predicate Distinct<T(==)>(s: seq<T>) {
    forall i, j :: 0 <= i < j < |s| ==> s[i] != s[j]
  }

  lemma {:induction false} RemoveFirstMeaning<T>(s: seq<T>, x: T)
    requires Distinct(s)
    ensures Distinct(RemoveFirst(s, x))
    ensures forall y :: y in RemoveFirst(s, x) <==> y in s && y != x
  {
    if s != [] {
      RemoveFirstMeaning(s[1..], x);
      assert s == [s[0]] + s[1..];
      assert Distinct(s[1..]);
      var r := RemoveFirst(s[1..], x);
      assert s[0] !in s[1..];
      assert s[0] !in r;
    }
  }

  lemma {:induction false} RemoveFirstAt<T>(s: seq<T>, x: T, i: nat)
    requires i < |s| && s[i] == x && x !in s[..i]
    ensures RemoveFirst(s, x) == s[..i] + s[i + 1..]
  {
    if i > 0 {
      assert s[0] in s[..i];
      assert s[1..][..i - 1] == s[1..i];
      RemoveFirstAt(s[1..], x, i - 1);
      assert s[..i] == [s[0]] + s[1..i];
    }
  }

  lemma {:induction false} RemoveFirstAbsent<T>(s: seq<T>, x: T)
    requires x !in s
    ensures RemoveFirst(s, x) == s
  {
    if s != [] {
      RemoveFirstAbsent(s[1..], x);
    }
  }

  function Activate(active: set<string>, ev: SpeakerEvent): set<string> {
    if ev.active then active + {ev.name} else active - {ev.name}
  }

  // ---------------------------------------------------------------- channels and snapshots

  class Channel {
    var buf: seq<SpeakerEvent>
    const cap: nat
    var closed: bool

    constructor (cap: nat)
      ensures Value() == Chan([], cap, false)
    {
      this.cap := cap;
      buf, closed := [], false;
    }

    ghost function Value(): Chan
      reads this
    {
      Chan(buf, cap, closed)
    }
  }

  method Listed(names: set<string>) returns (list: seq<string>)
    ensures (set n | n in list) == names && |list| == |names|
  {
    list := [];
    var rest := names;
    while rest != {}
      invariant rest <= names && (set n | n in list) == names - rest
      invariant |list| + |rest| == |names|
      decreases |rest|
    {
      var n :| n in rest;
      assert (set m | m in list + [n]) == (set m | m in list) + {n};
      rest := rest - {n};
      list := list + [n];
    }
  }

  // ---------------------------------------------------------------- all runs

  /** Channels are numbered in the order of Subscribe. `Take` is the consumer receiving one event. */
  datatype Op = Push(ev: SpeakerEvent) | Subscribe(buf: int) | Cancel(id: nat) | Take(id: nat)

  /** A channel together with all its consumer has received from it. */
  datatype Line = Line(chan: Chan, taken: seq<SpeakerEvent>)

  datatype State = State(active: set<string>, all: set<string>, registered: seq<nat>, lines: seq<Line>)

  const EMPTY := State({}, {}, [], [])

  predicate CanDo(s: State, op: Op) {
    match op
    case Cancel(id) => id < |s.lines| && !s.lines[id].chan.closed
    case Take(id) => id < |s.lines| && s.lines[id].chan.buf != []
    case _ => true
  }

  function OfferAll(s: State, ev: SpeakerEvent): (lines: seq<Line>)
    ensures |lines| == |s.lines|
  {
    seq(|s.lines|, i requires 0 <= i < |s.lines| =>
          if i in s.registered then s.lines[i].(chan := Offer(s.lines[i].chan, ev)) else s.lines[i])
  }

  function Step(s: State, op: Op): State
    requires CanDo(s, op)
  {
    match op
    case Push(ev) =>
      if ev.name == "" then s
      else State(Activate(s.active, ev), s.all + {ev.name}, s.registered, OfferAll(s, ev))
    case Subscribe(buf) =>
      s.(registered := s.registered + [|s.lines|],
         lines := s.lines + [Line(Chan([], if buf <= 0 then 64 else buf, false), [])])
    case Cancel(id) =>
      var line := s.lines[id];
      s.(registered := RemoveFirst(s.registered, id),
         lines := s.lines[id := line.(chan := line.chan.(closed := true))])
    case Take(id) =>
      var line := s.lines[id];
      s.(lines := s.lines[id := Line(line.chan.(buf := line.chan.buf[1..]), line.taken + [line.chan.buf[0]])])
  }

  predicate CanRun(ops: seq<Op>)
    decreases |ops|, 0
  {
    ops == [] || (CanRun(ops[..|ops| - 1]) && CanDo(After(ops[..|ops| - 1]), ops[|ops| - 1]))
  }

  function After(ops: seq<Op>): State
    requires CanRun(ops)
    decreases |ops|, 1
  {
    if ops == [] then EMPTY else Step(After(ops[..|ops| - 1]), ops[|ops| - 1])
  }

  /** What the latest event about `n` said, if there was one. */
  function Latest(ops: seq<Op>, n: string): Option<bool> {
    if ops == [] then None
    else
      var op := ops[|ops| - 1];
      if op.Push? && op.ev.name == n != "" then Some(op.ev.active) else Latest(ops[..|ops| - 1], n)
  }

  /** Active are exactly the names whose latest event is active; all are those with any event. */
  lemma {:induction false} NamesMeaning(ops: seq<Op>, n: string)
    requires CanRun(ops)
    ensures n in After(ops).active <==> Latest(ops, n) == Some(true)
    ensures n in After(ops).all <==> Latest(ops, n).Some?
  {
    if ops != [] {
      NamesMeaning(ops[..|ops| - 1], n);
    }
  }

  lemma ActiveAreKnown(ops: seq<Op>)
    requires CanRun(ops)
    ensures After(ops).active <= After(ops).all
  {
    forall n | n in After(ops).active
      ensures n in After(ops).all
    {
      NamesMeaning(ops, n);
    }
  }

  function Subscribes(ops: seq<Op>): nat {
    if ops == [] then 0
    else Subscribes(ops[..|ops| - 1]) + if ops[|ops| - 1].Subscribe? then 1 else 0
  }

  /** Channel `id` was handed out and its own cancel function was not called. */
  predicate IsRegistered(ops: seq<Op>, id: nat) {
    id < Subscribes(ops) && Cancel(id) !in ops
  }

  /** Registration depends on nobody else's subscribing or cancelling. */
  lemma {:induction false} RegisteredMeaning(ops: seq<Op>)
    requires CanRun(ops)
    ensures Distinct(After(ops).registered) && |After(ops).lines| == Subscribes(ops)
    ensures forall id: nat :: id in After(ops).registered <==> IsRegistered(ops, id)
  {
    if ops != [] {
      var init, op := ops[..|ops| - 1], ops[|ops| - 1];
      assert ops == init + [op];
      RegisteredMeaning(init);
      if op.Cancel? {
        RemoveFirstMeaning(After(init).registered, op.id);
      }
      if op.Subscribe? {
        NotYetCancelled(init);
        assert !IsRegistered(init, |After(init).lines|);
        DistinctSnoc(After(init).registered, |After(init).lines|);
      }
    }
  }

  lemma DistinctSnoc<T>(s: seq<T>, x: T)
    requires Distinct(s) && x !in s
    ensures Distinct(s + [x])
  {
  }

  /** A channel cannot be cancelled before it is handed out. */
  lemma {:induction false} NotYetCancelled(ops: seq<Op>)
    requires CanRun(ops)
    ensures forall id: nat :: Cancel(id) in ops ==> id < Subscribes(ops)
    ensures |After(ops).lines| == Subscribes(ops)
  {
    if ops != [] {
      var init, op := ops[..|ops| - 1], ops[|ops| - 1];
      assert ops == init + [op];
      NotYetCancelled(init);
    }
  }

  /** The events a subscriber should see: all named events pushed while it is registered. */
  function Sent(ops: seq<Op>, id: nat): seq<SpeakerEvent> {
    if ops == [] then []
    else
      var init, op := ops[..|ops| - 1], ops[|ops| - 1];
      if op.Push? && op.ev.name != "" && IsRegistered(init, id) then Sent(init, id) + [op.ev] else Sent(init, id)
  }

  /** Channel `id` has a free slot. */
  predicate HasRoom(s: State, id: nat)
    requires id < |s.lines|
  {
    |s.lines[id].chan.buf| < s.lines[id].chan.cap
  }

  /** The last operation of `ops` pushed an event that met a full buffer on channel `id`. */
  predicate LastIsLost(ops: seq<Op>, id: nat)
    requires CanRun(ops) && ops != []
  {
    var init, op := ops[..|ops| - 1], ops[|ops| - 1];
    && op.Push? && op.ev.name != "" && IsRegistered(init, id)
    && id < |After(init).lines| && !HasRoom(After(init), id)
  }

  /** How many events found the buffer of channel `id` full. */
  function Lost(ops: seq<Op>, id: nat): nat
    requires CanRun(ops)
  {
    if ops == [] then 0
    else Lost(ops[..|ops| - 1], id) + if LastIsLost(ops, id) then 1 else 0
  }

  /** `a` can be obtained from `b` by leaving out elements. */
  predicate Subsequence<T(==)>(a: seq<T>, b: seq<T>) {
    if b == [] then a == []
    else
      || (a != [] && a[|a| - 1] == b[|b| - 1] && Subsequence(a[..|a| - 1], b[..|b| - 1]))
      || Subsequence(a, b[..|b| - 1])
  }

  /** What a subscriber has received or still has waiting. */
  function Stream(s: State, id: nat): seq<SpeakerEvent>
    requires id < |s.lines|
  {
    s.lines[id].taken + s.lines[id].chan.buf
  }

  lemma PushToLine(s: State, ev: SpeakerEvent, id: nat)
    requires ev.name != "" && id < |s.lines|
    ensures Stream(Step(s, Push(ev)), id) ==
            if id in s.registered && HasRoom(s, id) then Stream(s, id) + [ev] else Stream(s, id)
  {
    var line := s.lines[id];
    assert line.taken + (line.chan.buf + [ev]) == line.taken + line.chan.buf + [ev];
  }

  lemma OtherOpsKeepStream(s: State, op: Op, id: nat)
    requires CanDo(s, op) && id < |s.lines| && (op.Push? ==> op.ev.name == "")
    ensures Stream(Step(s, op), id) == Stream(s, id)
  {
    if op == Take(id) {
      var line := s.lines[id];
      assert line.chan.buf == [line.chan.buf[0]] + line.chan.buf[1..];
      assert line.taken + [line.chan.buf[0]] + line.chan.buf[1..] == line.taken + line.chan.buf;
    }
  }

  /** The events sent to channel `id`, less those that met a full buffer. */
  function Kept(ops: seq<Op>, id: nat): seq<SpeakerEvent>
    requires CanRun(ops)
  {
    if ops == [] then []
    else
      var init, op := ops[..|ops| - 1], ops[|ops| - 1];
      if op.Push? && op.ev.name != "" && IsRegistered(init, id) && !LastIsLost(ops, id) then Kept(init, id) + [op.ev]
      else Kept(init, id)
  }

  /** Kept is what it says: sent events in order, the others being the lost ones. */
  lemma {:induction false} KeptMeaning(ops: seq<Op>, id: nat)
    requires CanRun(ops)
    ensures Subsequence(Kept(ops, id), Sent(ops, id))
    ensures |Kept(ops, id)| + Lost(ops, id) == |Sent(ops, id)|
  {
    if ops != [] {
      var init, op := ops[..|ops| - 1], ops[|ops| - 1];
      KeptMeaning(init, id);
      if op.Push? {
        StreamGrows(Kept(init, id), Sent(init, id), op.ev);
      }
    }
  }

  /**
   Every subscriber's stream is exactly the events sent to it, in order, less those that met a full buffer:
   nothing is duplicated, invented, or missing for another reason.
   */
  lemma {:induction false} StreamMeaning(ops: seq<Op>, id: nat)
    requires CanRun(ops) && id < |After(ops).lines|
    ensures Stream(After(ops), id) == Kept(ops, id)
    ensures Subsequence(Stream(After(ops), id), Sent(ops, id))
    ensures |Stream(After(ops), id)| + Lost(ops, id) == |Sent(ops, id)|
  {
    KeptMeaning(ops, id);
    if ops != [] {
      var init, op := ops[..|ops| - 1], ops[|ops| - 1];
      RegisteredMeaning(init);
      if id < |After(init).lines| {
        StreamMeaning(init, id);
        if op.Push? && op.ev.name != "" {
          PushToLine(After(init), op.ev, id);
        } else {
          OtherOpsKeepStream(After(init), op, id);
        }
      } else {
        NothingYet(init, id);
      }
    }
  }

  lemma StreamGrows(a: seq<SpeakerEvent>, b: seq<SpeakerEvent>, ev: SpeakerEvent)
    requires Subsequence(a, b)
    ensures Subsequence(a, b + [ev]) && Subsequence(a + [ev], b + [ev])
  {
    assert (b + [ev])[..|b|] == b && (a + [ev])[..|a|] == a;
  }

  /** Before a channel exists nothing is sent to it. */
  lemma {:induction false} NothingYet(ops: seq<Op>, id: nat)
    requires CanRun(ops) && id >= Subscribes(ops)
    ensures Sent(ops, id) == [] && Kept(ops, id) == [] && Lost(ops, id) == 0
  {
    if ops != [] {
      NothingYet(ops[..|ops| - 1], id);
    }
  }

  lemma {:induction false} FullSubsequence<T>(a: seq<T>, b: seq<T>)
    requires Subsequence(a, b)
    ensures |a| <= |b| && (|a| == |b| ==> a == b)
  {
    if b != [] {
      var b' := b[..|b| - 1];
      if a != [] && a[|a| - 1] == b[|b| - 1] && Subsequence(a[..|a| - 1], b') {
        FullSubsequence(a[..|a| - 1], b');
        assert a == a[..|a| - 1] + [a[|a| - 1]] && b == b' + [b[|b| - 1]];
      } else {
        FullSubsequence(a, b');
      }
    }
  }

  /** A subscriber whose buffer was never full when an event came has missed nothing. */
  lemma LosslessWhenNeverFull(ops: seq<Op>, id: nat)
    requires CanRun(ops) && id < |After(ops).lines|
    ensures Lost(ops, id) == 0 <==> Stream(After(ops), id) == Sent(ops, id)
  {
    StreamMeaning(ops, id);
    FullSubsequence(Stream(After(ops), id), Sent(ops, id));
  }

  // ---------------------------------------------------------------- the manager in place

  /** The channels with these numbers. */
  ghost predicate Named<T>(handed: seq<T>, ids: seq<nat>, chans: seq<T>) {
    && |ids| == |chans|
    && forall k :: 0 <= k < |ids| ==> ids[k] < |handed| && chans[k] == handed[ids[k]]
  }

  /** Removing a channel is removing its number. */
  lemma {:induction false} RemoveNamed<T>(handed: seq<T>, ids: seq<nat>, chans: seq<T>, id: nat)
    requires Distinct(handed) && Named(handed, ids, chans) && id < |handed|
    ensures Named(handed, RemoveFirst(ids, id), RemoveFirst(chans, handed[id]))
  {
    if ids != [] && ids[0] != id {
      assert Distinct(handed) && handed[ids[0]] != handed[id];
      RemoveNamed(handed, ids[1..], chans[1..], id);
    }
  }

  lemma DistinctNames<T>(handed: seq<T>, ids: seq<nat>, chans: seq<T>)
    requires Distinct(handed) && Distinct(ids) && Named(handed, ids, chans)
    ensures Distinct(chans)
  {
    forall i, j | 0 <= i < j < |chans|
      ensures chans[i] != chans[j]
    {
      assert ids[i] != ids[j];
      assert handed[ids[i]] != handed[ids[j]];
    }
  }

  class Manager {
    var subscribers: seq<Channel>
    var activeNames: set<string>
    var allNames: set<string>
    ghost var handed: seq<Channel>               // every channel handed out so far, in order
    ghost var taken: seq<seq<SpeakerEvent>>      // what the consumer of each has received
    ghost var run: seq<Op>

    /** The fields hold what state `s` says. */
    ghost predicate Matches(s: State)
      reads this, handed
    {
      && activeNames == s.active && allNames == s.all
      && Named(handed, s.registered, subscribers)
      && |s.lines| == |handed| == |taken|
      && forall i :: 0 <= i < |handed| ==> s.lines[i] == Line(handed[i].Value(), taken[i])
    }

    ghost predicate Valid()
      reads this, handed
    {
      Distinct(handed) && CanRun(run) && Matches(After(run))
    }

    constructor ()
      ensures Valid() && run == [] && subscribers == [] && activeNames == {} && allNames == {}
    {
      subscribers, activeNames, allNames := [], {}, {};
      handed, taken, run := [], [], [];
    }

    ghost method Note(op: Op)
      requires Distinct(handed) && CanRun(run) && CanDo(After(run), op) && Matches(Step(After(run), op))
      modifies this`run
      ensures Valid() && run == old(run) + [op]
    {
      var longer := run + [op];
      assert longer[..|longer| - 1] == run;
      run := longer;
    }

    /** Record an event and offer it to every subscriber. An event without a name is ignored. */
    method Push(ev: SpeakerEvent)
      requires Valid()
      modifies this`activeNames, this`allNames, this`run, subscribers
      ensures Valid() && run == old(run) + [Op.Push(ev)]
      ensures ev.name == "" ==> activeNames == old(activeNames) && allNames == old(allNames)
      ensures ev.name == "" ==> forall c | c in subscribers :: unchanged(c)
      ensures ev.name != "" ==> activeNames == Activate(old(activeNames), ev) && allNames == old(allNames) + {ev.name}
      ensures ev.name != "" ==> forall c | c in subscribers :: c.Value() == Offer(old(c.Value()), ev)
    {
      if ev.name == "" {
        Note(Op.Push(ev));
        return;
      }
      allNames := allNames + {ev.name};
      if ev.active {
        activeNames := activeNames + {ev.name};
      } else {
        activeNames := activeNames - {ev.name};
      }
      ghost var s := After(run);
      RegisteredMeaning(run);
      DistinctNames(handed, s.registered, subscribers);
      FanOut(ev);
      ghost var t := Step(s, Op.Push(ev));
      forall i | 0 <= i < |handed|
        ensures t.lines[i] == Line(handed[i].Value(), taken[i])
      {
        if i in s.registered {
          var k :| 0 <= k < |s.registered| && s.registered[k] == i;
          assert subscribers[k] == handed[i];
        } else {
          NotNamed(handed, s.registered, subscribers, i);
        }
      }
      Note(Op.Push(ev));
    }

    method FanOut(ev: SpeakerEvent)
      requires Distinct(subscribers)
      modifies subscribers
      ensures forall c | c in subscribers :: c.Value() == Offer(old(c.Value()), ev)
    {
      for i := 0 to |subscribers|
        invariant forall k :: 0 <= k < i ==> subscribers[k].Value() == Offer(old(subscribers[k].Value()), ev)
        invariant forall k :: i <= k < |subscribers| ==> subscribers[k].Value() == old(subscribers[k].Value())
      {
        var ch := subscribers[i];
        if |ch.buf| < ch.cap {
          ch.buf := ch.buf + [ev];
        }
      }
    }

    method Subscribe(buf: int) returns (ch: Channel)
      requires Valid()
      modifies this`subscribers, this`handed, this`taken, this`run
      ensures Valid() && fresh(ch) && run == old(run) + [Op.Subscribe(buf)]
      ensures subscribers == old(subscribers) + [ch] && handed == old(handed) + [ch]
      ensures ch.Value() == Chan([], if buf <= 0 then 64 else buf, false)
    {
      ch := new Channel(if buf <= 0 then 64 else buf);
      subscribers := subscribers + [ch];
      handed, taken := handed + [ch], taken + [[]];
      Note(Op.Subscribe(buf));
    }

    /** The cancel function returned with a channel. It may be called once: closing twice panics. */
    method Unsubscribe(ch: Channel, ghost id: nat)
      requires Valid() && id < |handed| && handed[id] == ch && !ch.closed
      modifies this`subscribers, this`run, ch`closed
      ensures Valid() && ch.closed && run == old(run) + [Cancel(id)]
      ensures subscribers == RemoveFirst(old(subscribers), ch)
    {
      RemoveNamed(handed, After(run).registered, subscribers, id);
      RemoveSubscriber(ch);
      ch.closed := true;
      Note(Cancel(id));
    }

    method RemoveSubscriber(ch: Channel)
      modifies this`subscribers
      ensures subscribers == RemoveFirst(old(subscribers), ch)
    {
      var i := 0;
      while i < |subscribers|
        invariant 0 <= i <= |subscribers| && subscribers == old(subscribers)
        invariant ch !in subscribers[..i]
      {
        if subscribers[i] == ch {
          RemoveFirstAt(subscribers, ch, i);
          subscribers := subscribers[..i] + subscribers[i + 1..];
          return;
        }
        i := i + 1;
      }
      RemoveFirstAbsent(subscribers, ch);
    }

    /** The consumer of a channel receives what has been waiting longest. */
    method Receive(ch: Channel, ghost id: nat) returns (ev: SpeakerEvent)
      requires Valid() && id < |handed| && handed[id] == ch && ch.buf != []
      modifies this`taken, this`run, ch`buf
      ensures Valid() && run == old(run) + [Take(id)]
      ensures old(ch.buf) == [ev] + ch.buf && taken == old(taken)[id := old(taken)[id] + [ev]]
    {
      ev := ch.buf[0];
      ch.buf := ch.buf[1..];
      taken := taken[id := taken[id] + [ev]];
      Note(Take(id));
    }

    /**
     What a consumer has received and has waiting is, in order, exactly what was pushed while it was subscribed,
     less what met a full buffer.
     */
    lemma StreamOf(id: nat)
      requires Valid() && id < |handed|
      ensures taken[id] + handed[id].buf == Kept(run, id)
      ensures Subsequence(taken[id] + handed[id].buf, Sent(run, id))
      ensures |taken[id] + handed[id].buf| + Lost(run, id) == |Sent(run, id)|
    {
      StreamMeaning(run, id);
    }

    /** Point-in-time lists of the two sets, in no particular order. */
    method SnapshotNames() returns (active: seq<string>, all: seq<string>)
      ensures (set n | n in active) == activeNames && |active| == |activeNames|
      ensures (set n | n in all) == allNames && |all| == |allNames|
    {
      active := Listed(activeNames);
      all := Listed(allNames);
    }
  }

  lemma NotNamed<T>(handed: seq<T>, ids: seq<nat>, chans: seq<T>, i: nat)
    requires Distinct(handed) && Named(handed, ids, chans) && i < |handed| && i !in ids
    ensures handed[i] !in chans
  {
    forall k | 0 <= k < |chans|
      ensures chans[k] != handed[i]
    {
      assert ids[k] != i;
    }
  }
}

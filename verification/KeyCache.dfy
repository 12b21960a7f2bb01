/**
 API-key resolution: a Redis entry that lives five minutes in front of the api_keys table. Shown for one
 key; time is in seconds. Lookups and stores of concurrent requests interleave freely, Redis may drop the
 entry at any time, and the key may be revoked once.
 */
module KeyCache {
  import opened Options
  import opened KeyEncoding

  const TTL: nat := 300

  // ---------------------------------------------------------------- one request at a time

  /** One api_keys row: the fields the request path uses, and what can end its validity. */
  datatype Stored = Stored(row: KeyRow, revokedAt: Option<int>, expiresAt: Option<int>)

  predicate IsValid(k: Stored, now: int) {
    k.revokedAt.None? && (k.expiresAt.Some? ==> now < k.expiresAt.value)
  }

  datatype Entry = Entry(val: string, expires: int)

  /** What a request finds in the cache under its key, if it can use it. */
  function Cached(cache: map<string, Entry>, cacheKey: string, now: int): Option<KeyRow> {
    if cacheKey in cache && now < cache[cacheKey].expires then Decode(cache[cacheKey].val) else None
  }

  function CacheKey(digest: string): string {
    "apikey:cache:" + digest
  }

  lemma CacheKeyInjective(a: string, b: string)
    ensures CacheKey(a) == CacheKey(b) <==> a == b
  {
    assert CacheKey(a)[13..] == a && CacheKey(b)[13..] == b;
  }

  /** A row that UPDATE by this id would revoke. */
  predicate Revocable(k: Stored, id: string) {
    k.row.id == id && k.revokedAt.None?
  }

  function Revoked(k: Stored, id: string, now: int): Stored {
    if Revocable(k, id) then k.(revokedAt := Some(now)) else k
  }

  /** While the entry lives, a hit reads back the row the miss stored exactly if that row encodes faithfully. */
  lemma HitReadsBack(cache: map<string, Entry>, cacheKey: string, row: KeyRow, now: int, later: int)
    requires IsInt32(row.rate) && now <= later
    ensures Cached(cache[cacheKey := Entry(Encode(row), now + 300)], cacheKey, later) == Some(row) <==>
            later < now + 300 && PipeFree(row.id) && PipeFree(row.tenant) && PipeFree(row.prefix) && row.rate >= 0
  {
    RoundTrip(row);
  }

  // ---------------------------------------------------------------- all interleavings

  /** A lookup that found the key valid, not yet stored in the cache or answered. */
  datatype Lookup = Lookup(at: int, stored: bool)

  /** A request let through, and the lookup its answer goes back to. */
  datatype Accept = Accept(at: int, lookedUp: int)

  datatype Slot = Slot(lookedUp: int, expires: int)

  datatype State = State(
    now: int,
    revokedAt: Option<int>,
    expiresAt: Option<int>,
    slot: Option<Slot>,
    lookups: seq<Lookup>,
    accepts: seq<Accept>)

  datatype Event =
    | Wait(d: nat)
    | Revoke
    | Hit                 // a request answered from the cache
    | Miss                // a request whose lookup finds the key valid
    | Store(i: nat)       // the i-th lookup's Redis SET
    | Answer(i: nat)      // the i-th lookup's request is let through
    | Evict

  /** `gap` bounds the time from a lookup to the end of its request. */
  predicate CanStep(s: State, e: Event, gap: nat) {
    match e
    case Revoke => s.revokedAt.None?
    case Hit => s.slot.Some? && s.now < s.slot.value.expires
    case Miss => s.revokedAt.None? && (s.expiresAt.Some? ==> s.now < s.expiresAt.value)
    case Store(i) => i < |s.lookups| && !s.lookups[i].stored && s.now <= s.lookups[i].at + gap
    case Answer(i) => i < |s.lookups| && s.now <= s.lookups[i].at + gap
    case _ => true
  }

  function Step(s: State, e: Event, gap: nat): State
    requires CanStep(s, e, gap)
  {
    match e
    case Wait(d) => s.(now := s.now + d)
    case Revoke => s.(revokedAt := Some(s.now))
    case Hit => s.(accepts := s.accepts + [Accept(s.now, s.slot.value.lookedUp)])
    case Miss => s.(lookups := s.lookups + [Lookup(s.now, false)])
    case Store(i) =>
      s.(slot := Some(Slot(s.lookups[i].at, s.now + TTL)),
         lookups := s.lookups[i := s.lookups[i].(stored := true)])
    case Answer(i) => s.(accepts := s.accepts + [Accept(s.now, s.lookups[i].at)])
    case Evict => s.(slot := None)
  }

  function Begin(expiresAt: Option<int>): State {
    State(0, None, expiresAt, None, [], [])
  }

  predicate CanRun(s: State, es: seq<Event>, gap: nat)
    decreases |es|, 0
  {
    es == [] || (CanRun(s, es[..|es| - 1], gap) && CanStep(After(s, es[..|es| - 1], gap), es[|es| - 1], gap))
  }

  function After(s: State, es: seq<Event>, gap: nat): State
    requires CanRun(s, es, gap)
    decreases |es|, 1
  {
    if es == [] then s else Step(After(s, es[..|es| - 1], gap), es[|es| - 1], gap)
  }

  /** A lookup at time `t` has found the key valid: neither revoked before nor expired at `t`. */
  predicate FoundValid(s: State, t: int) {
    && t <= s.now
    && (s.revokedAt.Some? ==> t <= s.revokedAt.value)
    && (s.expiresAt.Some? ==> t < s.expiresAt.value)
  }

  predicate Inv(s: State, gap: nat) {
    && (s.revokedAt.Some? ==> s.revokedAt.value <= s.now)
    && (forall i :: 0 <= i < |s.lookups| ==> FoundValid(s, s.lookups[i].at))
    && (s.slot.Some? ==>
          FoundValid(s, s.slot.value.lookedUp) && s.slot.value.expires <= s.slot.value.lookedUp + gap + TTL)
    && (forall k :: 0 <= k < |s.accepts| ==>
          FoundValid(s, s.accepts[k].lookedUp) && s.accepts[k].at < s.accepts[k].lookedUp + gap + TTL)
  }

  lemma InvStep(s: State, e: Event, gap: nat)
    requires Inv(s, gap) && CanStep(s, e, gap)
    ensures Inv(Step(s, e, gap), gap)
  {
  }

  lemma {:induction false} InvHolds(expiresAt: Option<int>, es: seq<Event>, gap: nat)
    requires CanRun(Begin(expiresAt), es, gap)
    ensures Inv(After(Begin(expiresAt), es, gap), gap)
    ensures After(Begin(expiresAt), es, gap).expiresAt == expiresAt
  {
    if es != [] {
      InvHolds(expiresAt, es[..|es| - 1], gap);
      InvStep(After(Begin(expiresAt), es[..|es| - 1], gap), es[|es| - 1], gap);
    }
  }

  /**
   Staleness: each accepted request goes back to a lookup less than TTL + gap earlier that found the key
   valid. So a key revoked at r, or expiring at x, lets nobody through from r or x + TTL + gap on.
   */
  lemma AcceptsAreFresh(expiresAt: Option<int>, es: seq<Event>, gap: nat, k: nat)
    requires CanRun(Begin(expiresAt), es, gap) && k < |After(Begin(expiresAt), es, gap).accepts|
    ensures var s := After(Begin(expiresAt), es, gap);
            var a := s.accepts[k];
            && FoundValid(s, a.lookedUp)
            && a.at - a.lookedUp < 300 + gap
            && (s.revokedAt.Some? ==> a.at < s.revokedAt.value + 300 + gap)
            && (expiresAt.Some? ==> a.at < expiresAt.value + 300 + gap)
  {
    InvHolds(expiresAt, es, gap);
  }

  // ---------------------------------------------------------------- the resolver at work

  /**
   The cache and the table of all keys, by digest of the plaintext. `run` tells the story of one of them, the
   key `watched`; lookups and accepts of that key are kept for the record.
   */
  class Resolver {
    const digest: string -> string
    const watched: string
    const expiresAt: Option<int>   // of the watched key
    const gap: nat
    var cache: map<string, Entry>
    var keys: map<string, Stored>
    var clock: int
    var lookups: seq<Lookup>
    var accepts: seq<Accept>
    var cachedFrom: int            // the time of the lookup behind the watched key's entry
    ghost var run: seq<Event>

    constructor (digest: string -> string, keys: map<string, Stored>, watched: string, gap: nat)
      requires watched in keys && keys[watched].revokedAt.None?
      ensures Valid() && run == [] && cache == map[] && this.keys == keys && this.watched == watched
      ensures this.digest == digest && this.gap == gap
    {
      this.digest, this.keys, this.watched, this.gap := digest, keys, watched, gap;
      this.expiresAt := keys[watched].expiresAt;
      cache, clock, lookups, accepts, cachedFrom, run := map[], 0, [], [], 0, [];
    }

    /** The watched key's entry. */
    ghost function SlotOf(): Option<Slot>
      reads this
    {
      if CacheKey(watched) in cache then Some(Slot(cachedFrom, cache[CacheKey(watched)].expires)) else None
    }

    ghost function View(): State
      requires watched in keys
      reads this
    {
      State(clock, keys[watched].revokedAt, expiresAt, SlotOf(), lookups, accepts)
    }

    ghost predicate Valid()
      reads this
    {
      && watched in keys
      && keys[watched].expiresAt == expiresAt
      && (CacheKey(watched) in cache ==> cache[CacheKey(watched)].val == Encode(keys[watched].row))
      && CanRun(Begin(expiresAt), run, gap)
      && After(Begin(expiresAt), run, gap) == View()
    }

    /** The fields have just made step `e` from state `was`. */
    ghost method Note(was: State, e: Event)
      requires watched in keys && keys[watched].expiresAt == expiresAt
      requires CacheKey(watched) in cache ==> cache[CacheKey(watched)].val == Encode(keys[watched].row)
      requires CanRun(Begin(expiresAt), run, gap) && After(Begin(expiresAt), run, gap) == was
      requires CanStep(was, e, gap) && View() == Step(was, e, gap)
      modifies this`run
      ensures Valid() && run == old(run) + [e]
    {
      var longer := run + [e];
      assert longer[..|longer| - 1] == run;
      run := longer;
    }

    /** Time passes. */
    method Pass(d: nat)
      requires Valid()
      modifies this`clock, this`run
      ensures Valid() && clock == old(clock) + d && run == old(run) + [Wait(d)]
    {
      ghost var was := View();
      clock := clock + d;
      Note(was, Wait(d));
    }

    /** Redis drops an entry. */
    method Drop(cacheKey: string)
      requires Valid()
      modifies this`cache, this`run
      ensures Valid() && old(run) <= run && cache == old(cache) - {cacheKey}
    {
      ghost var was := View();
      cache := cache - {cacheKey};
      if cacheKey == CacheKey(watched) {
        Note(was, Evict);
      }
    }

    /** UPDATE by id: sets the time of revocation where there is none; false if no row was updated. */
    method Revoke(id: string) returns (found: bool)
      requires Valid()
      modifies this`keys, this`run
      ensures Valid() && old(run) <= run
      ensures found <==> exists d :: d in old(keys) && Revocable(old(keys)[d], id)
      ensures keys == map d | d in old(keys) ::
                        if old(keys)[d].row.id == id && old(keys)[d].revokedAt.None?
                        then old(keys)[d].(revokedAt := Some(clock)) else old(keys)[d]
    {
      ghost var was := View();
      var hit := Revocable(keys[watched], id);
      found := exists d :: d in keys && Revocable(keys[d], id);
      keys := map d | d in keys :: Revoked(keys[d], id, clock);
      if hit {
        Note(was, Event.Revoke);
      }
    }

    /** Redis GET: the cached row, None for a miss. */
    method Get(d: string) returns (r: Option<KeyRow>)
      requires Valid()
      modifies this`accepts, this`run
      ensures Valid() && old(run) <= run && r == Cached(cache, CacheKey(d), clock)
      ensures d == watched && r.Some? ==> run == old(run) + [Hit]
      ensures accepts == if d == watched && r.Some? then old(accepts) + [Accept(clock, cachedFrom)] else old(accepts)
    {
      ghost var was := View();
      r := Cached(cache, CacheKey(d), clock);
      if r.Some? && d == watched {
        accepts := accepts + [Accept(clock, cachedFrom)];
        Note(was, Hit);
      }
    }

    /** LookupByPlaintext: the row of a key that is neither revoked nor expired. */
    method Find(d: string) returns (r: Option<KeyRow>, i: nat)
      requires Valid()
      modifies this`lookups, this`run
      ensures Valid() && old(run) <= run && i == |old(lookups)|
      ensures r == if d in keys && IsValid(keys[d], clock) then Some(keys[d].row) else None
      ensures lookups == if d == watched && r.Some? then old(lookups) + [Lookup(clock, false)] else old(lookups)
    {
      ghost var was := View();
      i := |lookups|;
      if d !in keys || !IsValid(keys[d], clock) {
        return None, i;
      }
      r := Some(keys[d].row);
      if d == watched {
        lookups := lookups + [Lookup(clock, false)];
        Note(was, Miss);
      }
    }

    /** Lookup `i` of the watched key is still to be stored, and within its time. */
    ghost predicate Fresh(i: nat)
      reads this
    {
      i < |lookups| && !lookups[i].stored && clock <= lookups[i].at + gap
    }

    /** Redis SET after a lookup. */
    method Put(d: string, row: KeyRow, i: nat)
      requires Valid() && (d == watched ==> Fresh(i) && row == keys[watched].row)
      modifies this`cache, this`lookups, this`cachedFrom, this`run
      ensures Valid() && old(run) <= run
      ensures d == watched ==> run == old(run) + [Store(i)]
      ensures cache == old(cache)[CacheKey(d) := Entry(Encode(row), clock + 300)]
      ensures lookups == if d == watched then old(lookups)[i := old(lookups)[i].(stored := true)] else old(lookups)
    {
      ghost var was := View();
      CacheKeyInjective(d, watched);
      cache := cache[CacheKey(d) := Entry(Encode(row), clock + TTL)];
      if d == watched {
        cachedFrom := lookups[i].at;
        lookups := lookups[i := lookups[i].(stored := true)];
        Note(was, Store(i));
      }
    }

    /** The request behind lookup `i` of the watched key goes on. */
    method Admit(i: nat)
      requires Valid() && i < |lookups| && clock <= lookups[i].at + gap
      modifies this`accepts, this`run
      ensures Valid() && old(run) <= run && accepts == old(accepts) + [Accept(clock, lookups[i].at)]
    {
      ghost var was := View();
      accepts := accepts + [Accept(clock, lookups[i].at)];
      Note(was, Answer(i));
    }

    /** One access by somebody else, which is not about lookup `mine`. */
    method OtherAccess(mine: nat)
      requires Valid()
      modifies this`cache, this`keys, this`lookups, this`accepts, this`cachedFrom, this`run
      ensures Valid() && old(run) <= run && keys[watched].row == old(keys[watched].row)
      ensures keys[watched].revokedAt.None? ==> old(keys[watched].revokedAt.None?)
      ensures |lookups| >= old(|lookups|) && (mine < old(|lookups|) ==> lookups[mine] == old(lookups[mine]))
    {
      var which: nat :| which < 6;
      var d: string := *;
      var i: nat :| i >= 0;
      if which == 0 {
        Drop(d);
      } else if which == 1 {
        var _ := Revoke(d);
      } else if which == 2 {
        var _ := Get(d);
      } else if which == 3 {
        var _, _ := Find(d);
      } else if which == 4 && i != mine && i < |lookups| && !lookups[i].stored && clock <= lookups[i].at + gap {
        Put(watched, keys[watched].row, i);
      } else if which == 5 && i != mine && i < |lookups| && clock <= lookups[i].at + gap {
        Admit(i);
      } else if d != watched {
        var row: KeyRow := *;
        Put(d, row, i);
      }
    }

    /** Time passes, but not beyond the deadline, and others act. */
    method Meanwhile(mine: nat, deadline: Option<int>)
      requires Valid() && (deadline.Some? ==> clock <= deadline.value)
      modifies this
      ensures Valid() && old(run) <= run && keys[watched].row == old(keys[watched].row)
      ensures keys[watched].revokedAt.None? ==> old(keys[watched].revokedAt.None?)
      ensures clock >= old(clock) && (deadline.Some? ==> clock <= deadline.value)
      ensures |lookups| >= old(|lookups|) && (mine < old(|lookups|) ==> lookups[mine] == old(lookups[mine]))
    {
      var n: nat :| n >= 0;
      for k := 0 to n
        invariant Valid() && old(run) <= run && keys[watched].row == old(keys[watched].row)
        invariant keys[watched].revokedAt.None? ==> old(keys[watched].revokedAt.None?)
        invariant clock >= old(clock) && (deadline.Some? ==> clock <= deadline.value)
        invariant |lookups| >= old(|lookups|) && (mine < old(|lookups|) ==> lookups[mine] == old(lookups[mine]))
      {
        var later: nat :| later >= 0;
        if deadline.None? || clock + later <= deadline.value {
          Pass(later);
        }
        OtherAccess(mine);
      }
    }

    /** When the watched key lets nobody through any more. */
    ghost predicate IsStale()
      requires watched in keys
      reads this
    {
      || (keys[watched].revokedAt.Some? && clock >= keys[watched].revokedAt.value + 300 + gap)
      || (expiresAt.Some? && clock >= expiresAt.value + 300 + gap)
    }

    /** The watched key is neither revoked nor expired. */
    ghost predicate IsGood()
      requires watched in keys
      reads this
    {
      keys[watched].revokedAt.None? && (expiresAt.Some? ==> clock < expiresAt.value)
    }

    /** In the course of what was added to the run, a request was answered from the cache, or a lookup was stored. */
    ghost predicate CacheUsed(before: seq<Event>)
      requires |before| <= |run|
      reads this
    {
      exists n :: |before| <= n < |run| && (run[n] == Hit || run[n].Store?)
    }

    /**
     One request's key, with others acting between any two of its accesses; a lookup, its SET and the answer take
     no longer than `gap`. `redis` is whether the cache answers. Whoever is let through with the watched key gets its
     row, or what the cache makes of it, and is not later than the staleness bound; and nobody is turned away whose
     key is still neither revoked nor expired. A cache that answers is used: read, or else filled.
     */
    method Resolve(plaintext: string, redis: bool) returns (r: Option<KeyRow>)
      requires Valid()
      modifies this
      ensures Valid() && old(run) <= run && clock >= old(clock)
      ensures digest(plaintext) == watched && r.Some? ==>
                && (r.value == keys[watched].row || r == Decode(Encode(keys[watched].row)))
                && !IsStale()
      ensures digest(plaintext) == watched && IsGood() ==> r.Some?
      ensures digest(plaintext) == watched && r.Some? && redis ==> CacheUsed(old(run))
    {
      var d := digest(plaintext);
      Meanwhile(0, None);
      if redis {
        r := Get(d);
        if r.Some? {
          if d == watched {
            LastAccept();
          }
          return;
        }
        Meanwhile(0, None);
      }
      r := FromTable(d, redis);
    }

    /** After a miss: look the key up, store what was found, and go on. */
    method FromTable(d: string, redis: bool) returns (r: Option<KeyRow>)
      requires Valid()
      modifies this
      ensures Valid() && old(run) <= run && clock >= old(clock)
      ensures d == watched && r.Some? ==> r.value == keys[watched].row && !IsStale()
      ensures d == watched && IsGood() ==> r.Some?
      ensures d == watched && r.Some? && redis ==> CacheUsed(old(run))
    {
      var i;
      r, i := Find(d);
      if r.None? {
        return;
      }
      StoreAndAdmit(d, r.value, i, redis);
    }

    /** After a lookup that found the row: the SET, and the request goes on, both within the gap. */
    method StoreAndAdmit(d: string, row: KeyRow, i: nat, redis: bool)
      requires Valid() && (d == watched ==> Fresh(i) && row == keys[watched].row && lookups[i].at == clock)
      modifies this
      ensures Valid() && old(run) <= run && clock >= old(clock) && keys[watched].row == old(keys[watched].row)
      ensures keys[watched].revokedAt.None? ==> old(keys[watched].revokedAt.None?)
      ensures d == watched ==> !IsStale() && (redis ==> CacheUsed(old(run)))
    {
      var deadline := clock + gap;
      Meanwhile(i, Some(deadline));
      if redis {
        Put(d, row, i);
      }
      Meanwhile(i, Some(deadline));
      if d == watched {
        Admit(i);
        LastAccept();
      }
    }

    /** Nobody has just been let through beyond the bound. */
    lemma LastAccept()
      requires Valid() && accepts != [] && accepts[|accepts| - 1].at == clock
      ensures !IsStale()
    {
      AcceptsAreFresh(expiresAt, run, gap, |accepts| - 1);
    }
  }

  lemma Go(s: State, es: seq<Event>, e: Event, gap: nat) returns (es': seq<Event>)
    requires CanRun(s, es, gap) && CanStep(After(s, es, gap), e, gap)
    ensures CanRun(s, es', gap) && After(s, es', gap) == Step(After(s, es, gap), e, gap)
  {
    es' := es + [e];
    assert es'[..|es|] == es;
  }

  /** The bound for revocation is exact: a request can still be let through in the last second before it. */
  lemma StalenessReached(gap: nat)
    ensures exists es ::
              && CanRun(Begin(None), es, gap)
              && var s := After(Begin(None), es, gap);
                 s.revokedAt.Some? && Accept(s.revokedAt.value + 300 + gap - 1, s.revokedAt.value) in s.accepts
  {
    var b := Begin(None);
    var es := Go(b, [], Miss, gap);
    es := Go(b, es, Revoke, gap);
    es := Go(b, es, Wait(gap), gap);
    es := Go(b, es, Store(0), gap);
    es := Go(b, es, Wait(TTL - 1), gap);
    es := Go(b, es, Hit, gap);
    assert After(b, es, gap).accepts == [Accept(gap + TTL - 1, 0)];
  }
}

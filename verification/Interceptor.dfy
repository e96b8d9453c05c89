/** Skipping repeated scans: runs of enter, ask, finish, abandon, complete, prune and clear steps
    over one cache, in any interleaving and under any configuration revisions, and what a
    skipped body is guaranteed to be. */
module Interceptor {
  import opened ByteStrings
  import opened RequestCache

  // ----- the log of successful scans --------------------------------------

  /** A successful scan: what it left, the state it recorded that into, and whether the cache
      still held the state. */
  datatype Event = Event(id: string, context: ScanContext, output: Bytes, state: ScanState, retained: bool)

  /** Scans of a request under a context, those of them that were retained, or those recorded
      into one state. */
  datatype Question = Of(id: string, context: ScanContext) | RetainedOf(id: string, context: ScanContext) | Into(state: ScanState)

  predicate Answers(e: Event, q: Question) {
    match q
    case Of(id, context) => e.id == id && e.context == context
    case RetainedOf(id, context) => e.id == id && e.context == context && e.retained
    case Into(state) => e.state == state
  }

  /** The latest event of a kind. */
  function Last(log: seq<Event>, q: Question): Option<Event> {
    if log == [] then None
    else
      var n := |log| - 1;
      if Answers(log[n], q) then Some(log[n]) else Last(log[..n], q)
  }

  /** What the latest scan of a kind left. */
  function LastOutput(log: seq<Event>, q: Question): Option<Bytes> {
    match Last(log, q)
    case None => None
    case Some(e) => Some(e.output)
  }

  lemma LastSnoc(log: seq<Event>, e: Event, q: Question)
    ensures Last(log + [e], q) == if Answers(e, q) then Some(e) else Last(log, q)
  {
    assert (log + [e])[..|log|] == log;
  }

  lemma {:induction false} LastIs(log: seq<Event>, q: Question)
    ensures match Last(log, q)
            case None => forall k :: 0 <= k < |log| ==> !Answers(log[k], q)
            case Some(e) => e in log && Answers(e, q)
  {
    if log != [] {
      LastIs(log[..|log| - 1], q);
    }
  }

  /** The latest event of a wider kind is that of a narrower kind too, when it is of that kind. */
  lemma {:induction false} LastNarrow(log: seq<Event>, wide: Question, narrow: Question)
    requires forall k :: 0 <= k < |log| && Answers(log[k], narrow) ==> Answers(log[k], wide)
    ensures Last(log, narrow).Some? ==> Last(log, wide).Some?
    ensures Last(log, wide).Some? && Answers(Last(log, wide).value, narrow) ==> Last(log, narrow) == Last(log, wide)
  {
    if log != [] {
      var n := |log| - 1;
      LastNarrow(log[..n], wide, narrow);
      LastIs(log[..n], wide);
    }
  }

  lemma NothingLogged(q: Question)
    ensures LastOutput([], q) == None
  {
  }

  lemma OneLogged(e: Event, state: ScanState)
    ensures e.state != state ==> LastOutput([e], Into(state)) == None
  {
    assert [e] == [] + [e];
    LastSnoc([], e, Into(state));
  }

  lemma TwoLogged(e: Event, f: Event)
    requires f.retained
    ensures LastOutput([e, f], Of(f.id, f.context)) == Some(f.output) == LastOutput([e, f], RetainedOf(f.id, f.context))
  {
    assert [e, f] == [e] + [f];
    LastSnoc([e], f, Of(f.id, f.context));
    LastSnoc([e], f, RetainedOf(f.id, f.context));
  }

  lemma LeftLast(log: seq<Event>, e: Event)
    ensures LastOutput(log + [e], Of(e.id, e.context)) == Some(e.output)
  {
    LastSnoc(log, e, Of(e.id, e.context));
  }

  // ----- what the run keeps -----------------------------------------------

  /** Calls between the acquire and the end of their scan: the request and its state. */
  type Calls = multiset<(string, ScanState)>

  /** The call's state is still the one the cache holds for its request. */
  predicate Held(lru: seq<Slot>, p: (string, ScanState)) {
    exists i :: 0 <= i < |lru| && lru[i].id == p.0 && lru[i].state == p.1
  }

  /** A state is the state of one request. */
  predicate Apart(lru: seq<Slot>, calls: Calls) {
    (forall i, j :: 0 <= i < |lru| && 0 <= j < |lru| && lru[i].state == lru[j].state ==> lru[i].id == lru[j].id)
    && (forall i, p :: 0 <= i < |lru| && p in calls && lru[i].state == p.1 ==> lru[i].id == p.0)
    && forall p, q :: p in calls && q in calls && p.1 == q.1 ==> p.0 == q.0
  }

  /** The fingerprint is what the latest scan recorded into the state left, and only scans of
      the state's request under its context are recorded into it. */
  ghost predicate Sound(id: string, state: ScanState, log: seq<Event>)
    reads state
  {
    state.fingerprint == LastOutput(log, Into(state))
    && forall k :: 0 <= k < |log| && log[k].state == state ==> Answers(log[k], Of(id, state.context))
  }

  /** The state has been recorded into, and what it holds is what the latest retained scan left. */
  ghost predicate Current(s: Slot, log: seq<Event>)
    reads s.state
  {
    s.state.fingerprint.Some? ==> s.state.fingerprint == LastOutput(log, RetainedOf(s.id, s.state.context))
  }

  ghost predicate Tracked(lru: seq<Slot>, calls: Calls, log: seq<Event>)
    reads set i | 0 <= i < |lru| :: lru[i].state, set p | p in calls :: p.1
  {
    Apart(lru, calls)
    && (forall i :: 0 <= i < |lru| ==> Sound(lru[i].id, lru[i].state, log) && Current(lru[i], log))
    && forall p :: p in calls ==> Sound(p.0, p.1, log)
  }

  predicate Known(s: Slot, lru: seq<Slot>) {
    exists j :: 0 <= j < |lru| && lru[j].id == s.id && lru[j].state == s.state
  }

  /** Dropping, reordering and touching entries, and ending calls, keeps all of it. */
  lemma TrackedSub(lru: seq<Slot>, lru': seq<Slot>, calls: Calls, calls': Calls, log: seq<Event>)
    requires Tracked(lru, calls, log) && calls' <= calls && forall i :: 0 <= i < |lru'| ==> Known(lru'[i], lru)
    ensures Tracked(lru', calls', log)
  {
    hide Sound, LastOutput;
    forall i | 0 <= i < |lru'| ensures Sound(lru'[i].id, lru'[i].state, log) && Current(lru'[i], log) {
      assert Known(lru'[i], lru);
      var j :| 0 <= j < |lru| && lru[j].id == lru'[i].id && lru[j].state == lru'[i].state;
      assert Current(lru[j], log);
    }
  }

  /** A state nothing was recorded into yet. */
  lemma FreshSound(id: string, state: ScanState, log: seq<Event>)
    requires state.fingerprint.None? && forall k :: 0 <= k < |log| ==> log[k].state != state
    ensures Sound(id, state, log) && Current(Slot(id, state, 0), log)
  {
    LastIs(log, Into(state));
  }

  /** An entry and a call of it are added. */
  lemma TrackedEntered(lru: seq<Slot>, s: Slot, calls: Calls, log: seq<Event>)
    requires Tracked(lru, calls, log) && Sound(s.id, s.state, log) && Current(s, log)
    requires (forall i :: 0 <= i < |lru| && lru[i].state == s.state ==> lru[i].id == s.id)
             && forall p :: p in calls && p.1 == s.state ==> p.0 == s.id
    ensures Tracked([s] + lru, calls + multiset{(s.id, s.state)}, log)
    ensures Tracked(lru, calls + multiset{(s.id, s.state)}, log)
  {
    hide Sound, Current;
  }

  /** What an acquire leaves in the list is known from before, but for a fresh front. */
  lemma AcquiredKnown(lru: seq<Slot>, id: string, state: ScanState, now: int, ttl: int, max: nat)
    requires DistinctIds(lru) && |lru| <= max && max > 0
    ensures var r := Acquired(DropExpired(lru, now, ttl), id, state, now, max);
            r != [] && r[0] == Slot(id, state, now) && forall i :: 1 <= i < |r| ==> Known(r[i], lru) && r[i].id != id
  {
    hide Acquired;
    var live := DropExpired(lru, now, ttl);
    AcquiredShape(live, id, state, now, max);
    var r := Acquired(live, id, state, now, max);
    forall i | 1 <= i < |r| ensures Known(r[i], lru) {
      var j :| 0 <= j < |live| && live[j] == r[i];
      assert lru[j] == live[j];
    }
  }

  lemma EnterKeeps(before: seq<Slot>, id: string, state: ScanState, now: int, ttl: int, max: nat, calls: Calls, log: seq<Event>,
                   reused: bool)
    requires DistinctIds(before) && |before| <= max && max > 0 && Tracked(before, calls, log)
    requires var live := DropExpired(before, now, ttl);
             reused ==> Position(live, id) < |live| && state == live[Position(live, id)].state
    requires !reused ==>
               Sound(id, state, log) && state.fingerprint.None? && (forall i :: 0 <= i < |before| ==> before[i].state != state)
               && forall p :: p in calls ==> p.1 != state
    ensures var r := Acquired(DropExpired(before, now, ttl), id, state, now, max);
            r != [] && r[0] == Slot(id, state, now) && Tracked(r, calls + multiset{(id, state)}, log)
  {
    hide Acquired, DropExpired, Position, Sound, LastOutput;
    var live := DropExpired(before, now, ttl);
    var r := Acquired(live, id, state, now, max);
    AcquiredKnown(before, id, state, now, ttl, max);
    if reused {
      assert before[Position(live, id)] == live[Position(live, id)];
      assert Known(r[0], before);
      assert Current(before[Position(live, id)], log);
    }
    TrackedSub(before, r[1..], calls, calls, log);
    TrackedEntered(r[1..], r[0], calls, log);
    assert r == [r[0]] + r[1..];
  }

  lemma CompleteKnown(lru: seq<Slot>, id: string)
    ensures forall i :: 0 <= i < |Without(lru, id)| ==> Known(Without(lru, id)[i], lru)
  {
    hide Without;
    forall i | 0 <= i < |Without(lru, id)| ensures Known(Without(lru, id)[i], lru) {
      WithoutFrom(lru, id, i);
    }
  }

  lemma PruneKnown(lru: seq<Slot>, now: int, ttl: int)
    ensures forall i :: 0 <= i < |DropExpired(lru, now, ttl)| ==> Known(DropExpired(lru, now, ttl)[i], lru)
    ensures forall i :: 0 <= i < |lru| ==> Known(lru[i], lru)
  {
    hide DropExpired;
    assert forall i :: 0 <= i < |DropExpired(lru, now, ttl)| ==> DropExpired(lru, now, ttl)[i] == lru[i];
  }

  lemma CacheShape(cache: RequestScanCache)
    requires cache.Valid()
    ensures DistinctIds(cache.lru) && |cache.lru| <= cache.maxEntries
    ensures forall i :: 0 <= i < |cache.lru| ==> cache.lru[i].id != ""
  {
  }

  lemma FrontReused(lru: seq<Slot>, id: string, context: ScanContext, now: int, ttl: int)
    requires lru != [] && lru[0].id == id && lru[0].lastAccess == now && lru[0].state.context == context
    ensures Position(DropExpired(lru, now, ttl), id) == 0 && DropExpired(lru, now, ttl) != []
    ensures DropExpired(lru, now, ttl)[0] == lru[0] && Reusable(DropExpired(lru, now, ttl), id, context, now, ttl)
  {
    FrontStays(lru, now, ttl);
  }

  lemma {:induction false} FrontStays(lru: seq<Slot>, now: int, ttl: int)
    requires lru != [] && lru[0].lastAccess == now
    ensures DropExpired(lru, now, ttl) != [] && DropExpired(lru, now, ttl)[0] == lru[0]
  {
    if |lru| > 1 && Expired(lru[|lru| - 1], now, ttl) {
      FrontStays(lru[..|lru| - 1], now, ttl);
    }
  }

  lemma NotHeldWithout(lru: seq<Slot>, id: string, state: ScanState)
    requires DistinctIds(lru)
    ensures !Held(Without(lru, id), (id, state))
    ensures |lru| == 1 && lru[0].id == id ==> Without(lru, id) == []
  {
    hide Without, Position;
    WithoutFacts(lru, id);
  }

  // ----- what a skipped body is -------------------------------------------

  /** What the latest scan of a request under a context left, if it was recorded into another state. */
  function Elsewhere(log: seq<Event>, id: string, state: ScanState): Option<Bytes> {
    match Last(log, Of(id, state.context))
    case None => None
    case Some(e) => if e.state == state then None else Some(e.output)
  }

  /** What it left, if the cache no longer held its state when it succeeded. */
  function Overdue(log: seq<Event>, id: string, context: ScanContext): Option<Bytes> {
    match Last(log, Of(id, context))
    case None => None
    case Some(e) => if e.retained then None else Some(e.output)
  }

  /** What a skipped body is. Always what the latest scan recorded into the state left. It is what
      the latest scan of the request under its context left, if and only if that one was recorded
      nowhere else, or left the same there. While the cache holds the state, the body is what the
      latest retained scan left, and it is what the latest of all left, if and only if that one was
      not overdue, or left the same. */
  ghost predicate Promise(log: seq<Event>, lru: seq<Slot>, id: string, state: ScanState, body: Bytes) {
    var latest := LastOutput(log, Of(id, state.context));
    var elsewhere, overdue := Elsewhere(log, id, state), Overdue(log, id, state.context);
    LastOutput(log, Into(state)) == Some(body) && latest.Some?
    && (latest == Some(body) <==> elsewhere.None? || elsewhere == Some(body))
    && (Held(lru, (id, state)) ==>
          LastOutput(log, RetainedOf(id, state.context)) == Some(body)
          && (latest == Some(body) <==> overdue.None? || overdue == Some(body)))
  }

  lemma SeenPromise(lru: seq<Slot>, calls: Calls, log: seq<Event>, id: string, state: ScanState, body: Bytes)
    requires Tracked(lru, calls, log) && (id, state) in calls && state.fingerprint == Some(body)
    ensures Promise(log, lru, id, state, body)
  {
    hide Last;
    assert Sound(id, state, log);
    LastIs(log, Into(state));
    LastNarrow(log, Of(id, state.context), Into(state));
    LastNarrow(log, Of(id, state.context), RetainedOf(id, state.context));
    LastIs(log, Of(id, state.context));
    if Held(lru, (id, state)) {
      var i :| 0 <= i < |lru| && lru[i].id == id && lru[i].state == state;
      assert Current(lru[i], log);
    }
  }

  /** The requests of one process over its one cache; every configuration has its revision. */
  class RequestInterceptor {
    const cache: RequestScanCache
    ghost var calls: Calls
    ghost var log: seq<Event>

    ghost predicate Valid()
      reads this, cache, set i | 0 <= i < |cache.lru| :: cache.lru[i].state, set p | p in calls :: p.1
    {
      cache.Valid() && Tracked(cache.lru, calls, log)
    }

    constructor (cache: RequestScanCache)
      requires cache.Valid() && cache.lru == []
      ensures Valid() && this.cache == cache && log == [] && calls == multiset{}
    {
      this.cache, calls, log := cache, multiset{}, [];
    }

    /** The first step of an intercepted request, under the configuration with this revision: it
        acquires the state of its request. */
    method Enter(id: string, revision: nat, sourceFormat: string, model: string, requestedModel: string, now: int)
      returns (state: ScanState)
      requires Valid()
      modifies this, cache
      ensures Valid() && log == old(log) && calls == old(calls) + multiset{(id, state)}
      ensures state.context == ScanContext(revision, sourceFormat, if requestedModel == "" then model else requestedModel)
      ensures id == "" || cache.maxEntries == 0 ==> cache.lru == old(cache.lru) && fresh(state)
      ensures id != "" && cache.maxEntries > 0 ==>
                cache.lru != [] && cache.lru[0] == Slot(id, state, now)
                && var live := DropExpired(old(cache.lru), now, cache.ttl);
                if Reusable(live, id, state.context, now, cache.ttl) then state == live[Position(live, id)].state else fresh(state)
      ensures id != "" && cache.maxEntries > 0 ==>
                forall i :: 0 <= i < |old(cache.lru)| && old(cache.lru)[i].id == id && old(cache.lru)[i].state.context == state.context
                            && (cache.ttl <= 0 || now - old(cache.lru)[i].lastAccess < cache.ttl) ==>
                  state == old(cache.lru)[i].state
      ensures fresh(state) || exists i :: 0 <= i < |old(cache.lru)| && old(cache.lru)[i].id == id && old(cache.lru)[i].state == state
                                          && (cache.ttl <= 0 || now - old(cache.lru)[i].lastAccess < cache.ttl)
    {
      hide Agree, Acquired, DropExpired, Without, Position, Tracked, Sound;
      var modelContext := if requestedModel == "" then model else requestedModel;
      var context := ScanContext(revision, sourceFormat, modelContext);
      ghost var before := cache.lru;
      CacheShape(cache);
      ghost var reused := Reusable(DropExpired(before, now, cache.ttl), id, context, now, cache.ttl);
      StatesApart();
      state := cache.Acquire(id, context, now);
      if id != "" && cache.maxEntries > 0 {
        if !reused {
          FreshSound(id, state, log);
        }
        EnterKeeps(before, id, state, now, cache.ttl, cache.maxEntries, calls, log, reused);
      } else {
        FreshSound(id, state, log);
        TrackedEntered(before, Slot(id, state, now), calls, log);
      }
      Note(calls + multiset{(id, state)}, log);
    }

    /** Ghost bookkeeping. */
    ghost method Note(calls': Calls, log': seq<Event>)
      requires cache.Valid() && Tracked(cache.lru, calls', log')
      modifies `calls, `log
      ensures Valid() && calls == calls' && log == log'
    {
      hide Tracked, RequestScanCache.Valid;
      assert forall i :: 0 <= i < |cache.lru| ==> (cache.lru[i].state as object) != this;
      assert forall p :: p in calls' ==> (p.1 as object) != this;
      calls, log := calls', log';
    }

    /** The second step: asks the state, which may have left the cache meanwhile, whether the body
        is what its latest scan left. If so the scan is skipped. */
    method Ask(id: string, state: ScanState, body: Bytes) returns (seen: bool)
      requires Valid() && (id, state) in calls
      modifies this
      ensures Valid() && log == old(log) && seen == state.Seen(body)
      ensures seen <==> LastOutput(log, Into(state)) == Some(body)
      ensures seen ==> Promise(log, cache.lru, id, state, body) && calls == old(calls) - multiset{(id, state)}
      ensures !seen ==> calls == old(calls)
    {
      hide Tracked, Promise, LastOutput, Last, RequestScanCache.Valid;
      CallSound(cache.lru, calls, log, id, state);
      seen := state.Seen(body);
      if seen {
        SeenPromise(cache.lru, calls, log, id, state, body);
        Leave(id, state);
      }
    }

    lemma StatesApart()
      ensures forall i :: 0 <= i < |cache.lru| ==> (cache.lru[i].state as object) != cache
      ensures forall p :: p in calls ==> (p.1 as object) != cache
    {
    }

    lemma CallSound(lru: seq<Slot>, calls: Calls, log: seq<Event>, id: string, state: ScanState)
      requires Tracked(lru, calls, log) && (id, state) in calls
      ensures Sound(id, state, log)
    {
      hide Sound;
    }

    /** A call ends without recording anything. */
    ghost method Leave(id: string, state: ScanState)
      requires Valid()
      modifies this
      ensures Valid() && log == old(log) && calls == old(calls) - multiset{(id, state)}
    {
      hide Tracked, RequestScanCache.Valid;
      SelfKnown(cache.lru);
      TrackedSub(cache.lru, cache.lru, calls, calls - multiset{(id, state)}, log);
      Note(calls - multiset{(id, state)}, log);
    }

    lemma SelfKnown(lru: seq<Slot>)
      ensures forall i :: 0 <= i < |lru| ==> Known(lru[i], lru)
    {
    }

    /** The last step, when the scan succeeded: `output` is set when it changed the body. */
    method Finish(id: string, state: ScanState, input: Bytes, output: Option<Bytes>)
      requires Valid() && (id, state) in calls
      modifies this, state
      ensures Valid() && calls == old(calls) - multiset{(id, state)}
      ensures var recorded := if output.Some? then output.value else input;
              log == old(log) + [Event(id, state.context, recorded, state, Held(cache.lru, (id, state)))]
              && state.fingerprint == Some(recorded)
    {
      hide Tracked, RequestScanCache.Valid, LastOutput, Last, Held, Sound, Current, Apart;
      CacheShape(cache);
      ghost var e := Event(id, state.context, if output.Some? then output.value else input, state, Held(cache.lru, (id, state)));
      ghost var before := log;
      Recorded(cache.lru, calls, before, e);
      state.Record(input, output);
      Noted(cache.lru, calls, before, e);
      SelfKnown(cache.lru);
      TrackedSub(cache.lru, cache.lru, calls, calls - multiset{(id, state)}, before + [e]);
      Note(calls - multiset{(id, state)}, before + [e]);
    }

    /** What a success leaves alone: the other states, and the latest retained scans of others. */
    lemma Recorded(lru: seq<Slot>, calls: Calls, log: seq<Event>, e: Event)
      requires Tracked(lru, calls, log) && DistinctIds(lru) && (e.id, e.state) in calls
      requires e.context == e.state.context && (e.retained <==> Held(lru, (e.id, e.state)))
      ensures Apart(lru, calls)
      ensures forall i :: 0 <= i < |lru| && lru[i].state != e.state ==>
                Sound(lru[i].id, lru[i].state, log + [e]) && Current(lru[i], log + [e])
      ensures forall p :: p in calls && p.1 != e.state ==> Sound(p.0, p.1, log + [e])
      ensures forall k :: 0 <= k < |log| && log[k].state == e.state ==> Answers(log[k], Of(e.id, e.context))
    {
      hide Last;
      forall i | 0 <= i < |lru| && lru[i].state != e.state
        ensures Sound(lru[i].id, lru[i].state, log + [e]) && Current(lru[i], log + [e])
      {
        assert Current(lru[i], log);
        LastSnoc(log, e, Into(lru[i].state));
        LastSnoc(log, e, RetainedOf(lru[i].id, lru[i].state.context));
      }
      forall p | p in calls && p.1 != e.state ensures Sound(p.0, p.1, log + [e]) {
        LastSnoc(log, e, Into(p.1));
      }
    }

    lemma Noted(lru: seq<Slot>, calls: Calls, log: seq<Event>, e: Event)
      requires Apart(lru, calls) && (e.id, e.state) in calls && e.state.fingerprint == Some(e.output)
      requires e.context == e.state.context && (e.retained <==> Held(lru, (e.id, e.state)))
      requires forall i :: 0 <= i < |lru| && lru[i].state != e.state ==>
                 Sound(lru[i].id, lru[i].state, log + [e]) && Current(lru[i], log + [e])
      requires forall p :: p in calls && p.1 != e.state ==> Sound(p.0, p.1, log + [e])
      requires forall k :: 0 <= k < |log| && log[k].state == e.state ==> Answers(log[k], Of(e.id, e.context))
      ensures Tracked(lru, calls, log + [e])
    {
      hide Last;
      LastSnoc(log, e, Into(e.state));
      assert Sound(e.id, e.state, log + [e]);
      forall i | 0 <= i < |lru| && lru[i].state == e.state ensures lru[i].id == e.id && Current(lru[i], log + [e]) {
        LastSnoc(log, e, RetainedOf(e.id, e.context));
      }
    }

    /** A scan that failed records nothing. */
    method Abandon(id: string, state: ScanState)
      requires Valid()
      modifies this
      ensures Valid() && log == old(log) && calls == old(calls) - multiset{(id, state)}
    {
      Leave(id, state);
    }

    /** The request is over; calls of it under way lose their state. */
    method Complete(id: string)
      requires Valid()
      modifies this, cache
      ensures Valid() && log == old(log) && calls == old(calls) && cache.lru == Without(old(cache.lru), id)
      ensures forall p :: p in calls && p.0 == id ==> !Held(cache.lru, p)
    {
      hide Agree, Tracked, Without, Held;
      CacheShape(cache);
      StatesApart();
      CompleteKnown(cache.lru, id);
      ghost var before := cache.lru;
      forall p | p in calls && p.0 == id ensures !Held(Without(before, id), p) {
        NotHeldWithout(before, id, p.1);
      }
      var ok := cache.Complete(id);
      TrackedSub(before, cache.lru, calls, calls, log);
      Note(calls, log);
    }

    method Prune(now: int)
      requires Valid()
      modifies this, cache
      ensures Valid() && log == old(log) && calls == old(calls)
      ensures cache.lru == if cache.ttl <= 0 then old(cache.lru) else DropExpired(old(cache.lru), now, cache.ttl)
    {
      hide Agree, Tracked, DropExpired, Live;
      ghost var before := cache.lru;
      StatesApart();
      PruneKnown(before, now, cache.ttl);
      var removed := cache.Prune(now);
      TrackedSub(before, cache.lru, calls, calls, log);
      Note(calls, log);
    }

    /** Shutdown forgets every request. */
    method Clear()
      requires Valid()
      modifies this, cache
      ensures Valid() && log == old(log) && calls == old(calls) && cache.lru == []
    {
      hide Agree, Tracked;
      ghost var before := cache.lru;
      StatesApart();
      var removed := cache.Clear();
      TrackedSub(before, cache.lru, calls, calls, log);
      Note(calls, log);
    }

    /** The request is entered once more and ends with `body` as what its state holds. */
    method ScanAgain(id: string, c: ScanContext, body: Bytes, now: int) returns (state: ScanState)
      requires Valid() && id != "" && cache.maxEntries > 0
      modifies this, cache, set i | 0 <= i < |cache.lru| :: cache.lru[i].state
      ensures Valid() && state.context == c && state.fingerprint == Some(body) && calls == old(calls)
      ensures cache.lru != [] && cache.lru[0] == Slot(id, state, now)
      ensures log == old(log) + if LastOutput(old(log), Into(state)) == Some(body) then [] else [Event(id, c, body, state, true)]
      ensures var live := DropExpired(old(cache.lru), now, cache.ttl);
              if Reusable(live, id, c, now, cache.ttl) then state == live[Position(live, id)].state else fresh(state)
    {
      hide Agree, Tracked, DropExpired, Position, Last, LastOutput, Expired, Promise, Held;
      LiveHeld(cache.lru, id, now);
      state := Enter(id, c.revision, c.sourceFormat, c.model, "", now);
      FrontHeld(cache.lru);
      var seen := Ask(id, state, body);
      if !seen {
        Finish(id, state, body, None);
      }
      assert old(calls) + multiset{(id, state)} - multiset{(id, state)} == old(calls);
    }

    lemma FrontHeld(lru: seq<Slot>)
      ensures lru != [] ==> Held(lru, (lru[0].id, lru[0].state))
    {
    }

    lemma LiveHeld(lru: seq<Slot>, id: string, now: int)
      ensures var live := DropExpired(lru, now, cache.ttl);
              Position(live, id) < |live| ==>
                Held(lru, (id, live[Position(live, id)].state))
                && exists i :: 0 <= i < |lru| && lru[i].state == live[Position(live, id)].state
    {
      var live := DropExpired(lru, now, cache.ttl);
      if Position(live, id) < |live| {
        assert lru[Position(live, id)] == live[Position(live, id)];
      }
    }

    /** Whenever a call under way has lost its state, the run may go on so that a body is skipped,
        by a call whose state the cache holds, although the latest successful scan left another. */
    method Overtaken(id: string, late: ScanState, body: Bytes, other: Bytes, now: int) returns (state: ScanState, seen: bool)
      requires Valid() && (id, late) in calls && !Held(cache.lru, (id, late))
      requires id != "" && cache.maxEntries > 0 && body != other
      modifies this, cache, late, set i | 0 <= i < |cache.lru| :: cache.lru[i].state
      ensures Valid() && seen && Held(cache.lru, (id, state)) && state.context == late.context
      ensures LastOutput(log, Of(id, late.context)) == Some(other)
    {
      hide Agree, Tracked, DropExpired, Position, Last, LastOutput, Expired, Promise;
      var c := late.context;
      LiveHeld(cache.lru, id, now);
      var first := ScanAgain(id, c, body, now);
      LeftLast(log, Event(id, c, other, late, Held(cache.lru, (id, late))));
      Finish(id, late, other, None);
      FrontReused(cache.lru, id, c, now, cache.ttl);
      state := Enter(id, c.revision, c.sourceFormat, c.model, "", now);
      seen := Ask(id, state, body);
    }
  }

  /** The shortest such run: a request is completed while its scan is under way, is scanned again,
      and then the first scan succeeds late. */
  method LateSuccess(id: string, context: ScanContext, body: Bytes, other: Bytes)
    returns (run: RequestInterceptor, state: ScanState, seen: bool)
    requires id != "" && body != other
    ensures fresh(run) && run.Valid() && seen && Held(run.cache.lru, (id, state)) && state.context == context
    ensures LastOutput(run.log, Of(id, context)) == Some(other)
  {
    hide Agree, Tracked, DropExpired, Last, LastOutput, Position, Promise, Held;
    var cache := new RequestScanCache(0, 1);
    run := new RequestInterceptor(cache);
    assert DropExpired([], 0, 0) <= [];
    var late := run.Enter(id, context.revision, context.sourceFormat, context.model, "", 0);
    NothingLogged(Into(late));
    var known := run.Ask(id, late, body);
    assert |cache.lru| <= 1 && cache.lru[0].state == late;
    NotHeldWithout(cache.lru, id, late);
    run.Complete(id);
    assert cache.lru == [];
    state, seen := run.Overtaken(id, late, body, other, 0);
  }

  /** The other way: a request is completed between the two steps of a call, is scanned afresh with
      another result, and then the call asks the state it still has. The body is skipped, no scan
      was late, and both the latest scan and the latest retained one left something else. */
  method AskedLate(id: string, context: ScanContext, body: Bytes, other: Bytes)
    returns (run: RequestInterceptor, state: ScanState, seen: bool)
    requires id != "" && body != other
    ensures fresh(run) && run.Valid() && seen && !Held(run.cache.lru, (id, state)) && state.context == context
    ensures LastOutput(run.log, Of(id, context)) == Some(other) == LastOutput(run.log, RetainedOf(id, context))
    ensures forall k :: 0 <= k < |run.log| ==> run.log[k].retained
  {
    hide Agree, Tracked, DropExpired, Last, LastOutput, Position, Promise;
    run, state := Interrupted(id, context, body);
    assert DropExpired([], 0, 0) <= [];
    var second := run.ScanAgain(id, context, other, 0);
    ghost var e, f := Event(id, context, body, state, true), Event(id, context, other, second, true);
    OneLogged(e, second);
    assert run.log == [e, f];
    TwoLogged(e, f);
    CacheShape(run.cache);
    assert |run.cache.lru| == 1 && run.cache.lru[0].state != state;
    seen := run.Ask(id, state, body);
  }

  /** Its first half: scanned, entered once more, and completed before the call asks. */
  method Interrupted(id: string, context: ScanContext, body: Bytes) returns (run: RequestInterceptor, state: ScanState)
    requires id != ""
    ensures fresh(run) && fresh(run.cache) && fresh(state) && run.Valid() && run.cache.lru == []
    ensures run.cache.ttl == 0 && run.cache.maxEntries == 1
    ensures run.calls == multiset{(id, state)} && state.context == context && state.fingerprint == Some(body)
    ensures run.log == [Event(id, context, body, state, true)]
  {
    hide Agree, Tracked, DropExpired, Last, LastOutput, Position, Promise;
    var cache := new RequestScanCache(0, 1);
    run := new RequestInterceptor(cache);
    assert DropExpired([], 0, 0) <= [];
    var first := run.ScanAgain(id, context, body, 0);
    NothingLogged(Into(first));
    assert run.log == [Event(id, context, body, first, true)];
    FrontReused(cache.lru, id, context, 0, 0);
    state := run.Enter(id, context.revision, context.sourceFormat, context.model, "", 0);
    assert state == first && |cache.lru| <= 1;
    NotHeldWithout(cache.lru, id, state);
    run.Complete(id);
  }
}

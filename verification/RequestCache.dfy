/** The request scan cache: a map and a recency list updated together, a sliding time to
    live, context resets, and counters. */
module RequestCache {
  import opened ByteStrings

  /** Policy and routing under which a body was inspected; compared exactly. */
  datatype ScanContext = ScanContext(revision: nat, sourceFormat: string, model: string)

  /** Output fingerprint of the latest successful scan of one request. A fingerprint stands
      for the bytes it was taken of: the hash is read as injective. */
  class ScanState {
    const context: ScanContext
    var fingerprint: Option<Bytes>

    constructor (context: ScanContext)
      ensures this.context == context && fingerprint.None?
    {
      this.context := context;
      fingerprint := None;
    }

    predicate Seen(body: Bytes)
      reads this
    {
      fingerprint == Some(body)
    }

    /** Keeps only the output's fingerprint; the input's when the scan changed nothing. */
    method Record(input: Bytes, sanitizedOutput: Option<Bytes>)
      modifies this
      ensures fingerprint == Some(if sanitizedOutput.Some? then sanitizedOutput.value else input)
    {
      var body := if sanitizedOutput.Some? then sanitizedOutput.value else input;
      fingerprint := Some(body);
    }
  }

  /** A retained request, as the recency list holds it. */
  datatype Slot = Slot(id: string, state: ScanState, lastAccess: int)

  // ----- recency lists ----------------------------------------------------

  predicate Expired(s: Slot, now: int, ttl: int) { ttl > 0 && now - s.lastAccess >= ttl }

  predicate DistinctIds(list: seq<Slot>) {
    forall i, j :: 0 <= i < j < |list| ==> list[i].id != list[j].id
  }

  /** Latest access first. */
  predicate ByRecency(list: seq<Slot>) {
    forall i, j :: 0 <= i < j < |list| ==> list[i].lastAccess >= list[j].lastAccess
  }

  /** The list without its expired suffix. */
  function DropExpired(list: seq<Slot>, now: int, ttl: int): (r: seq<Slot>)
    ensures r <= list
  {
    if list != [] && Expired(list[|list| - 1], now, ttl) then DropExpired(list[..|list| - 1], now, ttl) else list
  }

  /** Where the request stands in the list; its length when it is not there. */
  function Position(list: seq<Slot>, id: string): (p: nat)
    ensures p <= |list| && (p < |list| ==> list[p].id == id)
    ensures forall k :: 0 <= k < p ==> list[k].id != id
  {
    if list == [] || list[0].id == id then 0
    else
      assert forall k :: 1 <= k < |list| ==> list[k] == list[1..][k - 1];
      1 + Position(list[1..], id)
  }

  function Without(list: seq<Slot>, id: string): seq<Slot> {
    var p := Position(list, id);
    if p == |list| then list else list[..p] + list[p + 1..]
  }

  function Live(list: seq<Slot>, now: int, ttl: int): seq<Slot> {
    if list == [] then []
    else if Expired(list[0], now, ttl) then Live(list[1..], now, ttl)
    else [list[0]] + Live(list[1..], now, ttl)
  }

  /** With accesses in order, dropping the expired suffix drops exactly what has expired. */
  lemma {:induction false} DropIsExact(list: seq<Slot>, now: int, ttl: int)
    requires ByRecency(list)
    ensures DropExpired(list, now, ttl) == Live(list, now, ttl)
  {
    if list != [] {
      var n := |list| - 1;
      if Expired(list[n], now, ttl) {
        DropIsExact(list[..n], now, ttl);
        LiveSnoc(list[..n], list[n], now, ttl);
        assert list == list[..n] + [list[n]];
      } else {
        assert forall i :: 0 <= i < |list| ==> !Expired(list[i], now, ttl);
        AllLive(list, now, ttl);
      }
    }
  }

  lemma {:induction false} LiveSnoc(list: seq<Slot>, s: Slot, now: int, ttl: int)
    ensures Live(list + [s], now, ttl) == Live(list, now, ttl) + if Expired(s, now, ttl) then [] else [s]
  {
    if list != [] {
      assert (list + [s])[1..] == list[1..] + [s];
      LiveSnoc(list[1..], s, now, ttl);
    }
  }

  lemma {:induction false} AllLive(list: seq<Slot>, now: int, ttl: int)
    requires forall i :: 0 <= i < |list| ==> !Expired(list[i], now, ttl)
    ensures Live(list, now, ttl) == list
  {
    if list != [] {
      AllLive(list[1..], now, ttl);
    }
  }

  lemma WithoutAt(list: seq<Slot>, id: string)
    requires Position(list, id) < |list|
    ensures var p := Position(list, id); var w := Without(list, id);
            |w| == |list| - 1
            && (forall i :: 0 <= i < p ==> w[i] == list[i])
            && (forall i :: p <= i < |w| ==> w[i] == list[i + 1])
            && forall i {:trigger list[i]} :: p < i < |list| ==> w[i - 1] == list[i]
  {
    hide Position;
  }

  lemma WithoutFacts(list: seq<Slot>, id: string)
    requires DistinctIds(list)
    ensures var w := Without(list, id);
            DistinctIds(w) && (ByRecency(list) ==> ByRecency(w))
            && |w| == (if Position(list, id) < |list| then |list| - 1 else |list|)
            && forall i :: 0 <= i < |w| ==> w[i].id != id
  {
    hide Position;
    var p := Position(list, id);
    if p < |list| {
      WithoutAt(list, id);
      hide Without;
      assert list[p].id == id;
    }
  }

  lemma WithoutKeeps(list: seq<Slot>, id: string, i: nat)
    requires i < |list| && list[i].id != id
    ensures Position(Without(list, id), list[i].id) < |Without(list, id)|
  {
    hide Position;
    var p := Position(list, id);
    if p < |list| {
      WithoutAt(list, id);
      hide Without;
      var w := Without(list, id);
      assert i < p ==> w[i].id == list[i].id;
      assert i > p ==> w[i - 1].id == list[i].id;
    }
  }

  lemma WithoutFrom(list: seq<Slot>, id: string, i: nat)
    requires i < |Without(list, id)|
    ensures exists j :: 0 <= j < |list| && list[j] == Without(list, id)[i]
  {
    hide Position;
    var p := Position(list, id);
    if p < |list| {
      WithoutAt(list, id);
      hide Without;
      assert i < p ==> Without(list, id)[i] == list[i];
      assert i >= p ==> Without(list, id)[i] == list[i + 1];
    } else {
      assert list[i] == Without(list, id)[i];
    }
  }

  // ----- what one acquire does to the list --------------------------------

  /** The live entry of the request, when it may be reused under this context. */
  predicate Reusable(live: seq<Slot>, id: string, context: ScanContext, now: int, ttl: int) {
    var p := Position(live, id);
    p < |live| && !Expired(live[p], now, ttl) && live[p].state.context == context
  }

  /** The recency list after the request has been acquired with the given state. */
  function Acquired(live: seq<Slot>, id: string, state: ScanState, now: int, max: nat): seq<Slot> {
    var list := [Slot(id, state, now)] + Without(live, id);
    if |list| > max then list[..max] else list
  }

  /** A retained request stands at the front; behind it stand entries that were there before,
      and only the least recent one can have been pushed out. */
  lemma AcquiredShape(live: seq<Slot>, id: string, state: ScanState, now: int, max: nat)
    requires DistinctIds(live) && |live| <= max && max > 0
    ensures var r := Acquired(live, id, state, now, max); var w := Without(live, id);
            0 < |r| <= max && r[0] == Slot(id, state, now)
            && |w| - 1 <= |r| - 1 <= |w| && (forall i :: 1 <= i < |r| ==> r[i] == w[i - 1])
            && forall i :: 1 <= i < |r| ==> r[i] in live && r[i].id != id
  {
    hide Position, Without;
    WithoutFacts(live, id);
    WithoutIds(live, id);
    var r, w := Acquired(live, id, state, now, max), Without(live, id);
    assert forall i :: 1 <= i < |r| ==> r[i] == w[i - 1];
  }

  // ----- the same by age ---------------------------------------------------

  /** What is dropped has the age of the time to live or more, and the last of what stays is
      younger; with accesses in order all of what stays is. */
  lemma {:induction false} DropByAge(list: seq<Slot>, now: int, ttl: int)
    ensures var r := DropExpired(list, now, ttl);
            (forall i :: |r| <= i < |list| ==> 0 < ttl <= now - list[i].lastAccess)
            && (r != [] ==> ttl <= 0 || now - r[|r| - 1].lastAccess < ttl)
            && (ByRecency(list) ==> forall i :: 0 <= i < |r| ==> ttl <= 0 || now - r[i].lastAccess < ttl)
  {
    if list != [] && Expired(list[|list| - 1], now, ttl) {
      DropByAge(list[..|list| - 1], now, ttl);
      assert forall i :: 0 <= i < |list| - 1 ==> list[..|list| - 1][i] == list[i];
    }
  }

  /** A state is reused exactly when the list holds an entry of the request under this context,
      younger than the time to live, and it is that entry's; whatever the order of accesses. */
  lemma ReuseByAge(list: seq<Slot>, id: string, context: ScanContext, now: int, ttl: int)
    requires DistinctIds(list)
    ensures var live := DropExpired(list, now, ttl); var p := Position(live, id);
            Reusable(live, id, context, now, ttl) ==>
              p < |live| && live[p] == list[p] && list[p].id == id && list[p].state.context == context
              && (ttl <= 0 || now - list[p].lastAccess < ttl)
    ensures var live := DropExpired(list, now, ttl);
            forall i :: 0 <= i < |list| && list[i].id == id && list[i].state.context == context
                        && (ttl <= 0 || now - list[i].lastAccess < ttl) ==>
              Reusable(live, id, context, now, ttl) && Position(live, id) == i
  {
    hide DropExpired, Position;
    DropByAge(list, now, ttl);
    var live := DropExpired(list, now, ttl);
    forall i | 0 <= i < |list| && list[i].id == id && list[i].state.context == context
               && (ttl <= 0 || now - list[i].lastAccess < ttl)
      ensures Reusable(live, id, context, now, ttl) && Position(live, id) == i
    {
      assert live[i] == list[i];
    }
  }

  predicate NotAfter(list: seq<Slot>, now: int) {
    forall i :: 0 <= i < |list| ==> list[i].lastAccess <= now
  }

  /** Accesses are in order and none is later than the latest reading. */
  predicate Ordered(list: seq<Slot>, clock: Option<int>) {
    if clock.None? then list == [] else ByRecency(list) && NotAfter(list, clock.value)
  }

  lemma InOrder(list: seq<Slot>, now: int)
    requires Ordered(list, Some(now))
    ensures ByRecency(list)
  {
  }

  lemma OrderedPrefix(list: seq<Slot>, shorter: seq<Slot>, clock: Option<int>)
    requires Ordered(list, clock) && shorter <= list
    ensures Ordered(shorter, clock)
  {
  }

  lemma OrderedWithout(list: seq<Slot>, id: string, clock: Option<int>)
    requires Ordered(list, clock) && DistinctIds(list)
    ensures Ordered(Without(list, id), clock)
  {
    hide Position;
    WithoutFacts(list, id);
    if clock.Some? {
      WithoutNotAfter(list, id, clock.value);
    }
  }

  /** While clock readings do not go back, accesses stay in order. */
  lemma AcquiredOrder(list: seq<Slot>, id: string, state: ScanState, now: int, ttl: int, max: nat)
    requires DistinctIds(list) && Ordered(list, Some(now))
    ensures Ordered(Acquired(DropExpired(list, now, ttl), id, state, now, max), Some(now))
  {
    hide Position, DropExpired, Without;
    var live := DropExpired(list, now, ttl);
    assert DistinctIds(live) && ByRecency(live) && NotAfter(live, now);
    WithoutFacts(live, id);
    WithoutNotAfter(live, id, now);
    FrontOrder(Slot(id, state, now), Without(live, id));
  }

  /** With accesses in order nothing as old as the time to live outlasts an acquire. */
  lemma AcquiredByAge(list: seq<Slot>, id: string, state: ScanState, now: int, ttl: int, max: nat)
    requires DistinctIds(list) && Ordered(list, Some(now)) && |list| <= max && max > 0
    ensures var r := Acquired(DropExpired(list, now, ttl), id, state, now, max);
            Ordered(r, Some(now)) && forall i :: 0 <= i < |r| ==> ttl <= 0 || now - r[i].lastAccess < ttl
  {
    AcquiredOrder(list, id, state, now, ttl, max);
    InOrder(list, now);
    DropByAge(list, now, ttl);
    hide DropExpired, Acquired, Ordered, ByRecency;
    AcquiredShape(DropExpired(list, now, ttl), id, state, now, max);
  }

  lemma WithoutNotAfter(list: seq<Slot>, id: string, now: int)
    requires NotAfter(list, now)
    ensures NotAfter(Without(list, id), now)
  {
    hide Position;
    forall i | 0 <= i < |Without(list, id)| ensures Without(list, id)[i].lastAccess <= now {
      WithoutFrom(list, id, i);
    }
  }

  lemma FrontOrder(s: Slot, list: seq<Slot>)
    requires ByRecency(list) && NotAfter(list, s.lastAccess)
    ensures ByRecency([s] + list) && NotAfter([s] + list, s.lastAccess)
  {
  }

  /** Map and list hold the same entries, none of them without an id. */
  ghost predicate Agree(entries: map<string, Slot>, lru: seq<Slot>) {
    DistinctIds(lru) && |entries| == |lru| && "" !in entries
    && (forall i :: 0 <= i < |lru| ==> lru[i].id in entries && entries[lru[i].id] == lru[i])
    && forall id :: id in entries ==> Position(lru, id) < |lru|
  }

  lemma AgreeWithout(entries: map<string, Slot>, lru: seq<Slot>, id: string)
    requires Agree(entries, lru) && id in entries
    ensures Agree(entries - {id}, Without(lru, id))
  {
    hide Without, Position;
    var e, w := entries - {id}, Without(lru, id);
    WithoutFacts(lru, id);
    assert e.Keys == entries.Keys - {id};
    assert |e| == |e.Keys| && |entries| == |entries.Keys|;
    forall i | 0 <= i < |w| ensures w[i].id in e && e[w[i].id] == w[i] {
      WithoutFrom(lru, id, i);
    }
    forall k | k in e ensures Position(w, k) < |w| {
      WithoutKeeps(lru, id, Position(lru, k));
    }
  }

  lemma AgreeFront(entries: map<string, Slot>, lru: seq<Slot>, s: Slot)
    requires Agree(entries, lru) && s.id !in entries && s.id != ""
    ensures Agree(entries[s.id := s], [s] + lru)
  {
    hide Position, DistinctIds;
    var e, w := entries[s.id := s], [s] + lru;
    OneMoreKey(entries, s.id, s);
    FrontDistinct(s, lru);
    assert forall i :: 1 <= i < |w| ==> w[i] == lru[i - 1];
    forall k | k in e ensures Position(w, k) < |w| {
      FrontPosition(s, lru, k);
    }
  }

  lemma OneMoreKey(m: map<string, Slot>, k: string, v: Slot)
    requires k !in m
    ensures |m[k := v]| == |m| + 1
  {
    assert m[k := v].Keys == m.Keys + {k};
    assert |m[k := v]| == |m[k := v].Keys| && |m| == |m.Keys|;
  }

  lemma FrontDistinct(s: Slot, lru: seq<Slot>)
    requires DistinctIds(lru) && forall i :: 0 <= i < |lru| ==> lru[i].id != s.id
    ensures DistinctIds([s] + lru)
  {
  }

  lemma AgreeAt(entries: map<string, Slot>, lru: seq<Slot>, id: string)
    requires Agree(entries, lru)
    ensures id in entries <==> Position(lru, id) < |lru|
    ensures id in entries ==> entries[id] == lru[Position(lru, id)] && entries[id].id == id
    ensures |entries| == |lru| && DistinctIds(lru)
  {
    hide Position;
    var p := Position(lru, id);
    assert p < |lru| ==> lru[p].id == id;
  }

  lemma FrontPosition(s: Slot, lru: seq<Slot>, k: string)
    requires k == s.id || Position(lru, k) < |lru|
    ensures Position([s] + lru, k) < 1 + |lru|
  {
    hide Position;
    var w := [s] + lru;
    assert w[0].id == s.id;
    if k != s.id {
      assert w[Position(lru, k) + 1].id == k;
    }
  }

  /** The last element is removed by removing its request. */
  lemma WithoutLast(lru: seq<Slot>)
    requires lru != [] && DistinctIds(lru)
    ensures Without(lru, lru[|lru| - 1].id) == lru[..|lru| - 1]
  {
    var p := Position(lru, lru[|lru| - 1].id);
    assert p == |lru| - 1;
  }

  // ----- the cache --------------------------------------------------------

  datatype Metrics = Metrics(
    acquires: nat, created: nat, reused: nat, contextResets: nat, ephemeral: nat, completions: nat, expirations: nat, evictions: nat)

  class RequestScanCache {
    const ttl: int
    const maxEntries: nat
    var entries: map<string, Slot>
    var lru: seq<Slot>
    var metrics: Metrics
    /** Entries dropped by `Clear`, which no counter records. */
    ghost var cleared: nat
    /** The latest clock reading, and whether readings have never gone back so far. */
    ghost var clock: Option<int>
    ghost var steady: bool

    /** Map and list agree, the cap holds, accesses are in order as long as readings are, and
        every acquire and every created entry is accounted for. */
    ghost predicate Valid()
      reads this
    {
      Agree(entries, lru) && |lru| <= maxEntries && (steady ==> Ordered(lru, clock))
      && metrics.acquires == metrics.created + metrics.reused + metrics.ephemeral
      && metrics.created == |lru| + metrics.expirations + metrics.contextResets + metrics.evictions + metrics.completions + cleared
    }

    constructor (ttl: int, maxEntries: int)
      ensures Valid() && lru == [] && steady && clock.None? && this.ttl == (if ttl < 0 then 0 else ttl)
      ensures this.maxEntries == (if maxEntries < 0 then 0 else maxEntries)
    {
      this.ttl := if ttl < 0 then 0 else ttl;
      this.maxEntries := if maxEntries < 0 then 0 else maxEntries;
      entries, lru, metrics, cleared := map[], [], Metrics(0, 0, 0, 0, 0, 0, 0, 0), 0;
      clock, steady := None, true;
    }

    ghost predicate Forward(now: int)
      reads this
    {
      clock.None? || clock.value <= now
    }

    /** Notes a clock reading. */
    ghost method Tick(now: int)
      requires Valid()
      modifies `clock, `steady
      ensures Valid() && clock == Some(now) && (steady <==> old(steady && Forward(now)))
      ensures steady ==> Ordered(lru, Some(now)) && DropExpired(lru, now, ttl) == Live(lru, now, ttl)
    {
      hide Agree, DropExpired, Live;
      steady := steady && Forward(now);
      clock := Some(now);
      if steady {
        DropIsExact(lru, now, ttl);
      }
    }

    /** Takes one entry out of the map and the list. */
    method Remove(id: string)
      requires Agree(entries, lru) && id in entries
      modifies `entries, `lru
      ensures Agree(entries, lru) && lru == Without(old(lru), id) && entries == old(entries) - {id}
      ensures |lru| == |old(lru)| - 1
    {
      hide Without;
      AgreeWithout(entries, lru, id);
      WithoutFacts(lru, id);
      entries := entries - {id};
      lru := Without(lru, id);
    }

    /** Removes the expired suffix, from the back. */
    method PruneExpired(now: int) returns (removed: nat)
      requires Agree(entries, lru)
      modifies `entries, `lru
      ensures Agree(entries, lru) && lru == DropExpired(old(lru), now, ttl) && removed == |old(lru)| - |lru|
    {
      hide Without;
      removed := 0;
      while lru != [] && Expired(lru[|lru| - 1], now, ttl)
        invariant Agree(entries, lru) && DropExpired(lru, now, ttl) == DropExpired(old(lru), now, ttl)
        invariant removed == |old(lru)| - |lru|
        decreases |lru|
      {
        WithoutLast(lru);
        Remove(lru[|lru| - 1].id);
        removed := removed + 1;
      }
    }

    method PushFront(s: Slot)
      requires Agree(entries, lru) && s.id !in entries && s.id != ""
      modifies `entries, `lru
      ensures Agree(entries, lru) && lru == [s] + old(lru) && entries == old(entries)[s.id := s]
    {
      AgreeFront(entries, lru, s);
      lru := [s] + lru;
      entries := entries[s.id := s];
    }

    /** Drops least recent entries until the cap holds again. */
    method Evict() returns (evicted: nat)
      requires Agree(entries, lru)
      modifies `entries, `lru
      ensures Agree(entries, lru) && lru == (if |old(lru)| > maxEntries then old(lru)[..maxEntries] else old(lru))
      ensures evicted == |old(lru)| - |lru|
    {
      hide Agree, Without, Position, DistinctIds;
      evicted := 0;
      AgreeAt(entries, lru, "");
      while |entries| > maxEntries
        invariant Agree(entries, lru) && |entries| == |lru| <= |old(lru)| && lru == old(lru)[..|lru|]
        invariant evicted == |old(lru)| - |lru| && (|lru| < |old(lru)| ==> |lru| >= maxEntries)
        decreases |lru|
      {
        var oldest := lru[|lru| - 1];
        AgreeAt(entries, lru, oldest.id);
        LastIn(entries, lru);
        WithoutLast(lru);
        Remove(oldest.id);
        AgreeAt(entries, lru, "");
        evicted := evicted + 1;
      }
    }

    /** The state for a request: a live entry's own state when it was made under the same
        context, otherwise a new one. A state as old as the time to live is never reused. */
    method Acquire(id: string, context: ScanContext, now: int) returns (state: ScanState)
      requires Valid()
      modifies this
      ensures Valid() && state.context == context && cleared == old(cleared)
      ensures clock == Some(now) && (steady <==> old(steady && Forward(now)))
      ensures steady ==> DropExpired(old(lru), now, ttl) == Live(old(lru), now, ttl)
      ensures id == "" || maxEntries == 0 ==> lru == old(lru) && fresh(state) && state.fingerprint.None?
      ensures id != "" && maxEntries > 0 ==>
                var live := DropExpired(old(lru), now, ttl);
                lru == Acquired(live, id, state, now, maxEntries)
                && (if Reusable(live, id, context, now, ttl) then state == live[Position(live, id)].state
                    else fresh(state) && state.fingerprint.None?)
      ensures id != "" && maxEntries > 0 ==>
                forall i :: 0 <= i < |old(lru)| && old(lru)[i].id == id && old(lru)[i].state.context == context
                            && (ttl <= 0 || now - old(lru)[i].lastAccess < ttl) ==>
                  state == old(lru)[i].state
      ensures fresh(state) || exists i :: 0 <= i < |old(lru)| && old(lru)[i].id == id && old(lru)[i].state == state
                                          && (ttl <= 0 || now - old(lru)[i].lastAccess < ttl)
      ensures steady && id != "" && maxEntries > 0 ==>
                forall i :: 0 <= i < |lru| ==> ttl <= 0 || now - lru[i].lastAccess < ttl
    {
      hide Agree, Acquired, DropExpired, DistinctIds, Position, Ordered, Live, Expired;
      Tick(now);
      ghost var before := lru;
      CacheDistinct();
      metrics := metrics.(acquires := metrics.acquires + 1);
      if id == "" || maxEntries <= 0 {
        metrics := metrics.(ephemeral := metrics.ephemeral + 1);
        state := new ScanState(context);
        return;
      }
      state := Take(id, context, now);
      ReuseByAge(before, id, context, now, ttl);
      assert !fresh(state) ==> before[Position(DropExpired(before, now, ttl), id)].state == state;
      if steady {
        AcquiredByAge(before, id, state, now, ttl, maxEntries);
      }
    }

    /** The part of `Acquire` under the lock: expired entries go, then the entry of the request
        is looked at, and made when there is none. */
    method Take(id: string, context: ScanContext, now: int) returns (state: ScanState)
      requires Agree(entries, lru) && id != "" && |lru| <= maxEntries && maxEntries > 0
      modifies `entries, `lru, `metrics
      ensures Agree(entries, lru) && |lru| <= maxEntries && state.context == context
      ensures var live := DropExpired(old(lru), now, ttl);
              lru == Acquired(live, id, state, now, maxEntries)
              && (if Reusable(live, id, context, now, ttl) then state == live[Position(live, id)].state
                  else fresh(state) && state.fingerprint.None?)
      ensures metrics.acquires == old(metrics.acquires) && metrics.ephemeral == old(metrics.ephemeral)
              && metrics.created + metrics.reused == old(metrics.created + metrics.reused) + 1
      ensures metrics.created - |lru| - metrics.expirations - metrics.contextResets - metrics.evictions - metrics.completions
              == old(metrics.created - |lru| - metrics.expirations - metrics.contextResets - metrics.evictions - metrics.completions)
    {
      hide Agree, Without, DropExpired, DistinctIds, Position, Reusable, Expired;
      var removed := PruneExpired(now);
      metrics := metrics.(expirations := metrics.expirations + removed);
      var reused := Reuse(id, context, now);
      if reused != null {
        state := reused;
      } else {
        state := Create(id, context, now);
      }
    }

    /** The part of `Acquire` that makes a new entry and lets the cap push an old one out. */
    method Create(id: string, context: ScanContext, now: int) returns (state: ScanState)
      requires Agree(entries, lru) && id !in entries && id != ""
      modifies `entries, `lru, `metrics
      ensures Agree(entries, lru) && |lru| <= maxEntries && fresh(state) && state.context == context && state.fingerprint.None?
      ensures var list := [Slot(id, state, now)] + old(lru); lru == if |list| > maxEntries then list[..maxEntries] else list
      ensures metrics == old(metrics).(created := old(metrics).created + 1,
                                       evictions := old(metrics).evictions + |old(lru)| + 1 - |lru|)
    {
      hide Agree, Without, DistinctIds, Position;
      state := new ScanState(context);
      PushFront(Slot(id, state, now));
      metrics := metrics.(created := metrics.created + 1);
      var evicted := Evict();
      metrics := metrics.(evictions := metrics.evictions + evicted);
    }

    lemma CacheDistinct()
      requires Valid()
      ensures DistinctIds(lru)
    {
    }

    /** The part of `Acquire` that looks at an existing entry: it moves to the front, or goes
        because it has expired or belongs to another context. */
    method Reuse(id: string, context: ScanContext, now: int) returns (state: ScanState?)
      requires Agree(entries, lru) && id != ""
      modifies `entries, `lru, `metrics
      ensures Agree(entries, lru)
      ensures state != null <==> Reusable(old(lru), id, context, now, ttl)
      ensures state != null ==>
                state == old(lru)[Position(old(lru), id)].state && state.context == context
                && lru == [Slot(id, state, now)] + Without(old(lru), id) && |lru| == |old(lru)|
                && metrics == old(metrics).(reused := old(metrics).reused + 1)
      ensures state == null ==>
                id !in entries && lru == Without(old(lru), id) && |lru| <= |old(lru)|
                && (metrics == old(metrics).(expirations := old(metrics).expirations + |old(lru)| - |lru|)
                    || metrics == old(metrics).(contextResets := old(metrics).contextResets + |old(lru)| - |lru|))
    {
      hide Agree, Without, DistinctIds, Position;
      AgreeAt(entries, lru, id);
      WithoutIds(lru, id);
      if id !in entries {
        return null;
      }
      var entry := entries[id];
      Remove(id);
      if Expired(entry, now, ttl) {
        metrics := metrics.(expirations := metrics.expirations + 1);
        return null;
      }
      if entry.state.context != context {
        metrics := metrics.(contextResets := metrics.contextResets + 1);
        return null;
      }
      PushFront(Slot(id, entry.state, now));
      metrics := metrics.(reused := metrics.reused + 1);
      state := entry.state;
    }

    /** Forgets a request; says whether it was retained. */
    method Complete(id: string) returns (ok: bool)
      requires Valid()
      modifies this
      ensures Valid() && cleared == old(cleared) && clock == old(clock) && steady == old(steady)
      ensures ok <==> id != "" && Position(old(lru), id) < |old(lru)|
      ensures lru == Without(old(lru), id)
    {
      hide Agree, Without, DistinctIds, Position, Ordered;
      CacheDistinct();
      if steady {
        OrderedWithout(lru, id, clock);
      }
      AgreeAt(entries, lru, id);
      WithoutIds(lru, id);
      EmptyAbsent();
      if id == "" {
        return false;
      }
      ok := id in entries;
      if ok {
        Remove(id);
        metrics := metrics.(completions := metrics.completions + 1);
      }
    }

    lemma EmptyAbsent()
      requires Valid()
      ensures Position(lru, "") == |lru| && Without(lru, "") == lru
    {
    }

    /** Removes what has expired; exactly that, as long as clock readings do not go back. */
    method Prune(now: int) returns (removed: nat)
      requires Valid()
      modifies this
      ensures Valid() && cleared == old(cleared) && removed == |old(lru)| - |lru|
      ensures lru == if ttl <= 0 then old(lru) else DropExpired(old(lru), now, ttl)
      ensures clock == Some(now) && (steady <==> old(steady && Forward(now)))
      ensures steady || old(ByRecency(lru)) ==> lru == Live(old(lru), now, ttl)
      ensures lru <= old(lru) && (ttl <= 0 ==> lru == old(lru))
      ensures forall i :: |lru| <= i < |old(lru)| ==> now - old(lru)[i].lastAccess >= ttl
      ensures ttl > 0 && (steady || old(ByRecency(lru))) ==>
                forall i :: 0 <= i < |old(lru)| ==> (i < |lru| <==> now - old(lru)[i].lastAccess < ttl)
    {
      hide Agree, DropExpired, DistinctIds, Position, Ordered, Live;
      if ByRecency(lru) {
        DropIsExact(lru, now, ttl);
      }
      Tick(now);
      ghost var before := lru;
      if ttl <= 0 {
        NeverExpired(lru, now, ttl);
        return 0;
      }
      removed := PruneExpired(now);
      DropByAge(before, now, ttl);
      if steady {
        OrderedPrefix(before, lru, clock);
        InOrder(before, now);
      }
      metrics := metrics.(expirations := metrics.expirations + removed);
    }

    method Clear() returns (removed: nat)
      requires Valid()
      modifies this
      ensures Valid() && lru == [] && removed == |old(lru)| && cleared == old(cleared) + removed && metrics == old(metrics)
      ensures clock == old(clock) && steady == old(steady)
    {
      removed := |entries|;
      cleared := cleared + |entries|;
      entries, lru := map[], [];
    }
  }

  lemma LastIn(entries: map<string, Slot>, lru: seq<Slot>)
    requires Agree(entries, lru) && lru != []
    ensures lru[|lru| - 1].id in entries
  {
  }

  lemma WithoutIds(lru: seq<Slot>, id: string)
    ensures forall i :: 0 <= i < |Without(lru, id)| ==> Without(lru, id)[i] in lru
    ensures Position(lru, id) == |lru| ==> Without(lru, id) == lru
  {
    hide Position;
    forall i | 0 <= i < |Without(lru, id)| ensures Without(lru, id)[i] in lru {
      WithoutFrom(lru, id, i);
    }
  }

  lemma {:induction false} NeverExpired(list: seq<Slot>, now: int, ttl: int)
    requires ttl <= 0
    ensures DropExpired(list, now, ttl) == list && Live(list, now, ttl) == list
  {
    AllLive(list, now, ttl);
  }
}

/** The search route's cache: promises shared per key for a while, oldest evicted first, failures
    never kept. A search is the promise of one provider call, known by its number. */
module SearchCache {
  import opened Collections

  const TTL_MS := 60_000
  const MAX_ENTRIES := 500

  /** A provider call: its key, when it started, and which calls had failed by then. */
  datatype Started = Started(key: string, at: int, failedBefore: set<nat>)

  datatype Cached = Cached(expiresAt: int, search: nat)

  /** The cache, with every search ever started and those that failed. */
  datatype State = State(cache: OrderedMap<string, Cached>, started: seq<Started>, settled: set<nat>, failed: set<nat>)

  const EMPTY := State(EmptyMap(), [], {}, {})

  // ---------------------------------------------------------------- operations

  predicate Hit(st: State, key: string, now: int) {
    key in st.cache.at && st.cache.at[key].expiresAt > now
  }

  /** Drop entries from the front until the bound holds. */
  function Evict(m: OrderedMap<string, Cached>): OrderedMap<string, Cached>
    decreases |m.keys|
  {
    if |m.keys| > MAX_ENTRIES then Evict(OrderedMap(m.keys[1..], m.at - {m.keys[0]})) else m
  }

  function Insert(m: OrderedMap<string, Cached>, key: string, entry: Cached): OrderedMap<string, Cached> {
    Evict(m.Remove(key).Put(key, entry))
  }

  /** The state after a lookup, and the search whose result the caller gets. */
  function Lookup(st: State, key: string, now: int): (State, nat) {
    if Hit(st, key, now) then (st, st.cache.at[key].search) else
      (st.(cache := Insert(st.cache, key, Cached(now + TTL_MS, |st.started|)),
           started := st.started + [Started(key, now, st.failed)]),
       |st.started|)
  }

  /** A promise rejects: it leaves the cache if it is still the one cached for its key. */
  function Reject(st: State, search: nat): State {
    if search >= |st.started| || search in st.settled then st else
      var key := st.started[search].key;
      st.(settled := st.settled + {search}, failed := st.failed + {search},
          cache := if key in st.cache.at && st.cache.at[key].search == search then st.cache.Remove(key) else st.cache)
  }

  function Resolve(st: State, search: nat): State {
    if search >= |st.started| then st else st.(settled := st.settled + {search})
  }

  datatype Op = CachedSearch(key: string) | Rejects(search: nat) | Resolves(search: nat)

  datatype Timed = Timed(op: Op, now: int)

  function After(st: State, op: Op, now: int): State {
    match op
    case CachedSearch(key) => Lookup(st, key, now).0
    case Rejects(search) => Reject(st, search)
    case Resolves(search) => Resolve(st, search)
  }

  function StateAfter(run: seq<Timed>): State {
    if run == [] then EMPTY else After(StateAfter(Init(run)), Last(run).op, Last(run).now)
  }

  ghost predicate MonotoneUpTo(run: seq<Timed>, now: int) {
    run == [] || (Last(run).now <= now && MonotoneUpTo(Init(run), Last(run).now))
  }

  // ---------------------------------------------------------------- the invariant

  /** The keys other than `i`'s own that searches after the i-th were started for. */
  function OthersSince(started: seq<Started>, i: nat, j: nat): set<string>
    requires i < |started| && j <= |started|
  {
    set k | i < k < j && started[k].key != started[i].key :: started[k].key
  }

  /** Searches for as many other keys as the cache holds were started between the two. */
  predicate Crowded(started: seq<Started>, i: nat, j: nat)
    requires i < |started| && j <= |started|
  {
    |OthersSince(started, i, j)| >= MAX_ENTRIES
  }

  /** Entries stand in the order their searches started, each for its own key, expiring a minute after its search
      began. */
  ghost predicate CacheOk(st: State) {
    && st.cache.Valid() && |st.cache.keys| <= MAX_ENTRIES
    && (forall key :: key in st.cache.at ==> EntryOk(st, key))
    && InSearchOrder(st.cache.keys, st.cache.at)
  }

  ghost predicate InSearchOrder(keys: seq<string>, at: map<string, Cached>)
    requires forall k :: k in keys ==> k in at
  {
    forall i, j :: 0 <= i < j < |keys| ==> at[keys[i]].search < at[keys[j]].search
  }

  predicate EntryOk(st: State, key: string)
    requires key in st.cache.at
  {
    var e := st.cache.at[key];
    e.search < |st.started| && st.started[e.search].key == key && e.expiresAt == st.started[e.search].at + TTL_MS
    && e.search !in st.failed
  }

  ghost predicate HistoryOk(st: State, now: int) {
    && (forall i, j :: 0 <= i <= j < |st.started| ==> st.started[i].at <= st.started[j].at)
    && (forall i :: 0 <= i < |st.started| ==> st.started[i].at <= now)
    && (forall i :: i in st.failed ==> i < |st.started|) && st.failed <= st.settled
    && (forall i :: 0 <= i < |st.started| ==> st.started[i].failedBefore <= st.failed)
  }

  /** No later search is for the same key. */
  predicate LatestIn(started: seq<Started>, i: nat)
    requires i < |started|
  {
    forall j :: i < j < |started| ==> started[j].key != started[i].key
  }

  predicate Latest(st: State, i: nat)
    requires i < |st.started|
  {
    LatestIn(st.started, i)
  }

  /** The latest search of a key, unless it failed, grew old or was crowded out, is the one cached. */
  ghost predicate LatestCached(st: State, now: int) {
    forall i :: 0 <= i < |st.started| && Latest(st, i) && i !in st.failed && st.started[i].at + TTL_MS > now ==>
      IsCached(st, i) || Crowded(st.started, i, |st.started|)
  }

  predicate IsCached(st: State, i: nat)
    requires i < |st.started|
  {
    st.started[i].key in st.cache.at && st.cache.at[st.started[i].key].search == i
  }

  /** Why a key was searched again so soon. */
  predicate Excused(started: seq<Started>, i: nat, j: nat)
    requires i < j < |started|
  {
    i in started[j].failedBefore || Crowded(started, i, j)
  }

  ghost predicate RepeatsExcused(started: seq<Started>) {
    forall i, j :: 0 <= i < j < |started|
                   && started[i].key == started[j].key && started[j].at - started[i].at < TTL_MS ==>
      Excused(started, i, j)
  }

  ghost predicate Inv(st: State, now: int) {
    CacheOk(st) && HistoryOk(st, now) && LatestCached(st, now) && RepeatsExcused(st.started)
  }

  // ---------------------------------------------------------------- the cache part

  lemma {:induction false} RemovalKeepsOrder(keys: seq<string>, at: map<string, Cached>, key: string)
    requires (forall k :: k in keys ==> k in at) && InSearchOrder(keys, at)
    ensures forall k :: k in Filter(keys, Not(key)) ==> k in keys
    ensures InSearchOrder(Filter(keys, Not(key)), at)
  {
    FilterMembers(keys, Not(key));
    if keys != [] {
      var h := Init(keys);
      assert forall i :: 0 <= i < |h| ==> h[i] == keys[i];
      RemovalKeepsOrder(h, at, key);
      FilterMembers(h, Not(key));
      forall k | k in Filter(h, Not(key)) ensures at[k].search < at[Last(keys)].search {
        var i :| 0 <= i < |h| && h[i] == k;
        assert keys[i] == k && keys[|keys| - 1] == Last(keys);
      }
    }
  }

  lemma RemoveOk(st: State, key: string)
    requires CacheOk(st)
    ensures CacheOk(st.(cache := st.cache.Remove(key)))
    ensures key !in st.cache.Remove(key).at
  {
    RemoveValid(st.cache, key);
    RemovalKeepsOrder(st.cache.keys, st.cache.at, key);
    FilterShrinks(st.cache.keys, Not(key));
    var st' := st.(cache := st.cache.Remove(key));
    forall k | k in st'.cache.at ensures EntryOk(st', k) {
      assert EntryOk(st, k);
    }
  }

  /** `m` is `c` with the new entry last and, if `c` was full, without its front entry. */
  ghost predicate Inserted(c: OrderedMap<string, Cached>, key: string, entry: Cached, m: OrderedMap<string, Cached>) {
    if |c.keys| < MAX_ENTRIES then m == OrderedMap(c.keys + [key], c.at[key := entry])
    else m == OrderedMap(c.keys[1..] + [key], c.at[key := entry] - {c.keys[0]})
  }

  lemma InsertEffect(st: State, key: string, entry: Cached)
    requires CacheOk(st)
    ensures Inserted(st.cache.Remove(key), key, entry, Insert(st.cache, key, entry))
  {
    RemoveOk(st, key);
    var c := st.cache.Remove(key);
    var full := c.Put(key, entry);
    assert full == OrderedMap(c.keys + [key], c.at[key := entry]);
    if |c.keys| == MAX_ENTRIES {
      assert (c.keys + [key])[1..] == c.keys[1..] + [key];
      assert Evict(OrderedMap(full.keys[1..], full.at - {full.keys[0]})) ==
        OrderedMap(full.keys[1..], full.at - {full.keys[0]});
    }
  }

  /** The state after a miss that left the cache `m`. */
  function Missed(st: State, m: OrderedMap<string, Cached>, key: string, now: int): State {
    st.(cache := m, started := st.started + [Started(key, now, st.failed)])
  }

  /** The front entry's removal. */
  lemma PopFrontValid(m: OrderedMap<string, Cached>)
    requires m.Valid() && m.keys != [] && InSearchOrder(m.keys, m.at)
    ensures var r := OrderedMap(m.keys[1..], m.at - {m.keys[0]});
      r.Valid() && InSearchOrder(r.keys, r.at)
  {
    var r := OrderedMap(m.keys[1..], m.at - {m.keys[0]});
    assert forall i :: 0 <= i < |r.keys| ==> r.keys[i] == m.keys[i + 1];
    forall k | k in r.at ensures k in r.keys {
      var i :| 0 <= i < |m.keys| && m.keys[i] == k;
      assert r.keys[i - 1] == k;
    }
  }

  lemma AppendValid(m: OrderedMap<string, Cached>, key: string, entry: Cached)
    requires m.Valid() && key !in m.at && InSearchOrder(m.keys, m.at)
    requires forall k :: k in m.at ==> m.at[k].search < entry.search
    ensures var r := OrderedMap(m.keys + [key], m.at[key := entry]);
      r.Valid() && InSearchOrder(r.keys, r.at)
  {
    PutValid(m, key, entry);
    var r := OrderedMap(m.keys + [key], m.at[key := entry]);
    forall i, j | 0 <= i < j < |r.keys| ensures r.at[r.keys[i]].search < r.at[r.keys[j]].search {
      assert r.keys[i] in m.keys;
      if j < |m.keys| {
        assert r.keys[j] in m.keys;
      }
    }
  }

  /** Removing the key first: what is left, with the facts about it. */
  ghost predicate LeftOver(st: State, key: string, c: OrderedMap<string, Cached>) {
    && c == st.cache.Remove(key) && c.Valid() && InSearchOrder(c.keys, c.at)
    && key !in c.at && |c.keys| <= MAX_ENTRIES
    && forall k :: k in c.at ==> k in st.cache.at && c.at[k] == st.cache.at[k] && EntryOk(st, k)
  }

  lemma LeftOverOk(st: State, key: string)
    requires CacheOk(st)
    ensures LeftOver(st, key, st.cache.Remove(key))
  {
    RemoveOk(st, key);
  }

  lemma MissCacheValid(c: OrderedMap<string, Cached>, key: string, entry: Cached, m: OrderedMap<string, Cached>)
    requires c.Valid() && InSearchOrder(c.keys, c.at) && key !in c.at && |c.keys| <= MAX_ENTRIES
    requires Inserted(c, key, entry, m)
    requires forall k :: k in c.at ==> c.at[k].search < entry.search
    ensures m.Valid() && |m.keys| <= MAX_ENTRIES && InSearchOrder(m.keys, m.at)
    ensures forall k :: k in m.at ==> k == key || (k in c.at && m.at[k] == c.at[k])
  {
    if |c.keys| < MAX_ENTRIES {
      AppendValid(c, key, entry);
    } else {
      PopFrontValid(c);
      var c' := OrderedMap(c.keys[1..], c.at - {c.keys[0]});
      AppendValid(c', key, entry);
      assert key != c.keys[0];
      assert c'.at[key := entry] == c.at[key := entry] - {c.keys[0]};
    }
  }

  lemma MissCacheOk(st: State, key: string, now: int, c: OrderedMap<string, Cached>, m: OrderedMap<string, Cached>)
    requires HistoryOk(st, now) && LeftOver(st, key, c)
    requires Inserted(c, key, Cached(now + TTL_MS, |st.started|), m)
    ensures CacheOk(Missed(st, m, key, now))
  {
    var entry, st' := Cached(now + TTL_MS, |st.started|), Missed(st, m, key, now);
    MissCacheValid(c, key, entry, m);
    forall k | k in m.at ensures EntryOk(st', k) {
      if k == key {
        assert m.at[k] == entry;
      } else {
        assert EntryOk(st, k) && m.at[k] == st.cache.at[k];
      }
    }
  }

  // ---------------------------------------------------------------- the history part

  lemma OthersGrow(a: seq<Started>, i: nat, j: nat, b: seq<Started>, i': nat, j': nat)
    requires i < |a| && j <= |a| <= |b| && j <= j' <= |b| && i' <= i && a == b[..|a|]
    requires b[i'].key == a[i].key
    ensures |OthersSince(a, i, j)| <= |OthersSince(b, i', j')|
    ensures Crowded(a, i, j) ==> Crowded(b, i', j')
  {
    assert forall k :: 0 <= k < |a| ==> a[k] == b[k];
    forall x | x in OthersSince(a, i, j) ensures x in OthersSince(b, i', j') {
      var k :| i < k < j && a[k].key != a[i].key && a[k].key == x;
      assert b[k].key == x;
    }
    SubsetCount(OthersSince(a, i, j), OthersSince(b, i', j'));
  }

  /** Cached keys in search order: the first was followed by a search for each of the others. */
  ghost predicate Follows(started: seq<Started>, keys: seq<string>, at: map<string, Cached>) {
    && (forall k :: k in keys ==> k in at && at[k].search < |started| && started[at[k].search].key == k)
    && InSearchOrder(keys, at)
  }

  /** The entry pushed out at the front was crowded out by as many other keys as the cache holds. */
  lemma CrowdedOut(started: seq<Started>, keys: seq<string>, at: map<string, Cached>, key: string)
    requires started != [] && Last(started).key == key && Follows(Init(started), keys, at)
    requires Distinct(keys) && |keys| == MAX_ENTRIES && key !in keys
    ensures Crowded(started, at[keys[0]].search, |started|)
  {
    var i, later := at[keys[0]].search, keys[1..] + [key];
    var others, crowd := OthersSince(started, i, |started|), set x | x in later;
    assert forall k :: 0 <= k < |keys| - 1 ==> later[k] == keys[k + 1];
    assert Distinct(later);
    DistinctCount(later);
    assert started[i] == Init(started)[i] && keys[0] in keys;
    forall x | x in crowd ensures x in others {
      if x == key {
        assert started[|started| - 1].key == key;
      } else {
        var k :| 0 <= k < |keys| - 1 && keys[k + 1] == x;
        LaterKey(started, keys, at, k + 1);
      }
    }
    SubsetCount(crowd, others);
  }

  lemma LaterKey(started: seq<Started>, keys: seq<string>, at: map<string, Cached>, k: nat)
    requires started != [] && Follows(Init(started), keys, at) && Distinct(keys) && 0 < k < |keys|
    ensures at[keys[0]].search < |started| && keys[k] in OthersSince(started, at[keys[0]].search, |started|)
  {
    assert keys[0] in keys && keys[k] in keys;
    var i, j := at[keys[0]].search, at[keys[k]].search;
    assert started[i] == Init(started)[i] && started[j] == Init(started)[j];
    assert i < j && started[j].key == keys[k] != started[i].key;
  }

  lemma LeftOverFollows(st: State, key: string, c: OrderedMap<string, Cached>)
    requires LeftOver(st, key, c)
    ensures Follows(st.started, c.keys, c.at)
  {
    forall k | k in c.keys ensures k in c.at && c.at[k].search < |st.started| && st.started[c.at[k].search].key == k {
      assert EntryOk(st, k);
    }
  }

  lemma MissLatestCached(st: State, key: string, started: seq<Started>, now: int, c: OrderedMap<string, Cached>,
                         m: OrderedMap<string, Cached>, i: nat)
    requires LatestCached(st, now) && LeftOver(st, key, c)
    requires Inserted(c, key, Cached(now + TTL_MS, |st.started|), m)
    requires |started| == |st.started| + 1 && Init(started) == st.started && Last(started).key == key
    requires i < |st.started| && LatestIn(started, i) && i !in st.failed && st.started[i].at + TTL_MS > now
    ensures (st.started[i].key in m.at && m.at[st.started[i].key].search == i) || Crowded(started, i, |started|)
  {
    StillLatest(st.started, started, i);
    OthersGrow(st.started, i, |st.started|, started, i, |started|);
    if !Crowded(st.started, i, |st.started|) {
      assert IsCached(st, i);
      assert started[|started| - 1].key == key && started[i] == st.started[i];
      if |c.keys| == MAX_ENTRIES && c.keys[0] == st.started[i].key {
        LeftOverFollows(st, key, c);
        CrowdedOut(started, c.keys, c.at, key);
      }
    }
  }

  lemma StillLatest(a: seq<Started>, b: seq<Started>, i: nat)
    requires |a| <= |b| && a == b[..|a|] && i < |a|
    requires LatestIn(b, i)
    ensures LatestIn(a, i)
  {
    assert forall k :: 0 <= k < |a| ==> a[k] == b[k];
  }

  /** The last search of the key of the i-th. */
  lemma {:induction false} LastOfKey(st: State, i: nat) returns (l: nat)
    requires i < |st.started|
    ensures i <= l < |st.started| && Latest(st, l) && st.started[l].key == st.started[i].key
    decreases |st.started| - i
  {
    if Latest(st, i) {
      l := i;
    } else {
      var j :| i < j < |st.started| && st.started[j].key == st.started[i].key;
      l := LastOfKey(st, j);
    }
  }

  lemma MissExcused(st: State, key: string, now: int, i: nat)
    requires Inv(st, now) && !Hit(st, key, now)
    requires i < |st.started| && st.started[i].key == key && now - st.started[i].at < TTL_MS
    ensures Excused(st.started + [Started(key, now, st.failed)], i, |st.started|)
  {
    var started, n := st.started + [Started(key, now, st.failed)], |st.started|;
    var l := LastOfKey(st, i);
    assert started[..n] == st.started && started[n].failedBefore == st.failed;
    if l in st.failed {
      if i < l {
        assert Excused(st.started, i, l);
        assert st.started[l].failedBefore <= st.failed;
        OthersGrow(st.started, i, l, started, i, n);
      }
    } else {
      assert !IsCached(st, l) by {
        assert key in st.cache.at ==> EntryOk(st, key);
      }
      OthersGrow(st.started, l, n, started, i, n);
    }
  }

  lemma MissRepeats(st: State, key: string, now: int)
    requires Inv(st, now) && !Hit(st, key, now)
    ensures RepeatsExcused(st.started + [Started(key, now, st.failed)])
  {
    var started, n := st.started + [Started(key, now, st.failed)], |st.started|;
    assert started[..n] == st.started;
    assert forall k :: 0 <= k < n ==> started[k] == st.started[k];
    forall i, j | 0 <= i < j < n + 1 && started[i].key == started[j].key && started[j].at - started[i].at < TTL_MS
      ensures Excused(started, i, j)
    {
      if j == n {
        MissExcused(st, key, now, i);
      } else {
        assert Excused(st.started, i, j);
        OthersGrow(st.started, i, j, started, i, j);
      }
    }
  }

  lemma MissHistoryOk(st: State, m: OrderedMap<string, Cached>, key: string, now: int)
    requires HistoryOk(st, now)
    ensures HistoryOk(Missed(st, m, key, now), now)
  {
    var started := Missed(st, m, key, now).started;
    assert forall k :: 0 <= k < |st.started| ==> started[k] == st.started[k];
  }

  lemma MissedInv(st: State, key: string, now: int, c: OrderedMap<string, Cached>, m: OrderedMap<string, Cached>)
    requires Inv(st, now) && !Hit(st, key, now) && LeftOver(st, key, c)
    requires Inserted(c, key, Cached(now + TTL_MS, |st.started|), m)
    ensures Inv(Missed(st, m, key, now), now)
  {
    var st' := Missed(st, m, key, now);
    MissCacheOk(st, key, now, c, m);
    MissHistoryOk(st, m, key, now);
    MissRepeats(st, key, now);
    assert Init(st'.started) == st.started;
    assert LatestCached(st', now) by {
      forall i | 0 <= i < |st'.started| && Latest(st', i) && i !in st'.failed && st'.started[i].at + TTL_MS > now
        ensures IsCached(st', i) || Crowded(st'.started, i, |st'.started|)
      {
        if i < |st.started| {
          MissLatestCached(st, key, st'.started, now, c, m, i);
        }
      }
    }
  }

  lemma MissKeepsInv(st: State, key: string, now: int)
    requires Inv(st, now) && !Hit(st, key, now)
    ensures Inv(Lookup(st, key, now).0, now)
  {
    var c, entry := st.cache.Remove(key), Cached(now + TTL_MS, |st.started|);
    LeftOverOk(st, key);
    InsertEffect(st, key, entry);
    MissedInv(st, key, now, c, Insert(st.cache, key, entry));
  }

  lemma RejectedCacheOk(st: State, search: nat)
    requires CacheOk(st) && search < |st.started| && search !in st.settled
    ensures CacheOk(Reject(st, search))
  {
    var key, st' := st.started[search].key, Reject(st, search);
    RemoveOk(st, key);
    forall k | k in st'.cache.at ensures EntryOk(st', k) {
      assert EntryOk(st, k);
    }
  }

  lemma RejectKeepsCached(st: State, search: nat, i: nat)
    requires search < |st.started| && search !in st.settled && i < |st.started| && i != search
    ensures IsCached(st, i) ==> i < |Reject(st, search).started| && IsCached(Reject(st, search), i)
  {
  }

  lemma RejectKeepsInv(st: State, search: nat, now: int)
    requires Inv(st, now)
    ensures Inv(Reject(st, search), now)
  {
    if search < |st.started| && search !in st.settled {
      var st' := Reject(st, search);
      RejectedCacheOk(st, search);
      assert st'.started == st.started;
      forall i | 0 <= i < |st.started| && Latest(st', i) && i !in st'.failed && st.started[i].at + TTL_MS > now
        ensures IsCached(st', i) || Crowded(st.started, i, |st.started|)
      {
        RejectKeepsCached(st, search, i);
        assert LatestIn(st.started, i);
      }
    }
  }

  lemma StepKeepsInv(st: State, op: Op, now: int)
    requires Inv(st, now)
    ensures Inv(After(st, op, now), now)
  {
    match op
    case CachedSearch(key) =>
      if !Hit(st, key, now) {
        MissKeepsInv(st, key, now);
      }
    case Rejects(search) => RejectKeepsInv(st, search, now);
    case Resolves(_) =>
  }

  lemma LaterKeepsInv(st: State, now: int, later: int)
    requires Inv(st, now) && now <= later
    ensures Inv(st, later)
  {
  }

  lemma {:induction false} RunKeepsInv(run: seq<Timed>, now: int)
    requires MonotoneUpTo(run, now)
    ensures Inv(StateAfter(run), now)
  {
    if run != [] {
      var st, l := StateAfter(Init(run)), Last(run);
      RunKeepsInv(Init(run), l.now);
      StepKeepsInv(st, l.op, l.now);
      LaterKeepsInv(StateAfter(run), l.now, now);
    }
  }

  // ---------------------------------------------------------------- theorems

  /** After any calls and any failures the cache holds at most 500 entries, ordered by expiry. */
  lemma BoundedAndOrdered(run: seq<Timed>, now: int)
    requires MonotoneUpTo(run, now)
    ensures var m := StateAfter(run).cache;
      && m.Valid() && |m.keys| <= MAX_ENTRIES
      && forall i, j :: 0 <= i < j < |m.keys| ==> m.at[m.keys[i]].expiresAt <= m.at[m.keys[j]].expiresAt
  {
    var st := StateAfter(run);
    RunKeepsInv(run, now);
    forall i, j | 0 <= i < j < |st.cache.keys|
      ensures st.cache.at[st.cache.keys[i]].expiresAt <= st.cache.at[st.cache.keys[j]].expiresAt
    {
      assert EntryOk(st, st.cache.keys[i]) && EntryOk(st, st.cache.keys[j]);
    }
  }

  /** A caller always gets a search of its own key that started less than a minute ago and has not
      failed so far. */
  lemma ResultIsFresh(run: seq<Timed>, key: string, now: int)
    requires MonotoneUpTo(run, now)
    ensures var (st', search) := Lookup(StateAfter(run), key, now);
      && search < |st'.started| && st'.started[search].key == key
      && now - TTL_MS < st'.started[search].at <= now && search !in st'.failed
  {
    var st := StateAfter(run);
    RunKeepsInv(run, now);
    if Hit(st, key, now) {
      assert EntryOk(st, key);
    }
  }

  /** Two provider searches for one key start less than a minute apart only if the first had failed by
      then, or searches for at least 500 other keys started in between. */
  lemma RepeatedOnlyForReason(run: seq<Timed>, now: int, i: nat, j: nat)
    requires MonotoneUpTo(run, now) && i < j < |StateAfter(run).started|
    requires var s := StateAfter(run).started; s[i].key == s[j].key && s[j].at - s[i].at < TTL_MS
    ensures var s := StateAfter(run).started;
      i in s[j].failedBefore || |OthersSince(s, i, j)| >= MAX_ENTRIES
  {
    RunKeepsInv(run, now);
    assert Excused(StateAfter(run).started, i, j);
  }

  /** A late failure takes away its own entry and no other. */
  lemma FailureEvictsOnlyItself(st: State, search: nat)
    requires search < |st.started|
    ensures var m, m' := st.cache, Reject(st, search).cache;
      && (forall k :: k in m'.at ==> k in m.at && m'.at[k] == m.at[k])
      && (forall k :: k in m.at && m.at[k].search != search ==> k in m'.at)
  {
  }

  // ---------------------------------------------------------------- the object

  class SearchRoute {
    var cache: OrderedMap<string, Cached>
    ghost var started: seq<Started>
    ghost var settled: set<nat>
    ghost var failed: set<nat>
    var nextSearch: nat

    constructor ()
      ensures Model() == EMPTY && nextSearch == 0
    {
      cache := EmptyMap();
      started := [];
      settled := {};
      failed := {};
      nextSearch := 0;
    }

    ghost function Model(): State
      reads this
    {
      State(cache, started, settled, failed)
    }

    method DropExpired(key: string)
      modifies this`cache
      ensures cache == if key in old(cache).at then old(cache).Remove(key) else old(cache)
    {
      if key in cache.at {
        cache := cache.Remove(key);
      }
    }

    /** One search per key and minute; callers in between share its promise. */
    method CachedSearch(key: string, now: int) returns (search: nat)
      requires nextSearch == |started| && CacheOk(Model())
      modifies this
      ensures nextSearch == |started|
      ensures (Model(), search) == Lookup(old(Model()), key, now)
    {
      if key in cache.at && cache.at[key].expiresAt > now {
        return cache.at[key].search;
      }
      if key !in cache.at {
        AbsentRemove(cache, key);
      }
      DropExpired(key);
      search := nextSearch;
      nextSearch := nextSearch + 1;
      started := started + [Started(key, now, failed)];
      cache := cache.Put(key, Cached(now + TTL_MS, search));
      ghost var full := cache;
      while |cache.keys| > MAX_ENTRIES
        invariant Evict(cache) == Evict(full)
        invariant nextSearch == |started| && started == old(started) + [Started(key, now, failed)]
        invariant failed == old(failed) && settled == old(settled)
        decreases |cache.keys|
      {
        var oldest := cache.keys[0];
        cache := OrderedMap(cache.keys[1..], cache.at - {oldest});
      }
    }

    lemma AbsentRemove(m: OrderedMap<string, Cached>, key: string)
      requires m.Valid() && key !in m.at
      ensures m.Remove(key) == m
    {
      FilterAll(m.keys, Not(key));
    }

    /** The `catch` attached to the promise. */
    method OnRejected(key: string, search: nat)
      requires search < |started| && started[search].key == key && search !in settled
      modifies this
      ensures Model() == Reject(old(Model()), search) && nextSearch == old(nextSearch)
      ensures forall k :: k in old(cache.at) && old(cache.at)[k].search != search ==>
        k in cache.at && cache.at[k] == old(cache.at)[k]
    {
      FailureEvictsOnlyItself(Model(), search);
      settled := settled + {search};
      failed := failed + {search};
      if key in cache.at && cache.at[key].search == search {
        cache := cache.Remove(key);
      }
    }
  }
}

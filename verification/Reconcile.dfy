/** What one poller tick does to the queue: the retry pump, the auto-skip of rejected tracks and the
    terminal statuses, as functions of the rows it read. */
module Reconcile {
  import opened Collections
  import opened QueueTypes

  const RECONCILE_GRACE_MS := 30_000
  const RETRY_AFTER_PUSH_MS := 12_000
  const SKIP_SETTLE_MS := 1_500

  /** What the tick knows when it reconciles: the instant, the playing URI, the provider's queue, and
      which provider calls would succeed. */
  datatype View = View(
    now: int,
    playing: Option<string>,
    queued: set<string>,
    canPush: bool,          // a provider was resolved and takes queue pushes
    pushWorks: set<string>) // items whose push succeeds

  predicate IsCurrent(r: Row, v: View) {
    v.playing == Some(r.trackUri)
  }

  predicate IsOnProvider(r: Row, v: View) {
    r.trackUri in v.queued
  }

  predicate Young(r: Row, now: int) {
    now - r.createdAt < RECONCILE_GRACE_MS
  }

  // ---------------------------------------------------------------- statuses

  /** The status a pass writes to an approved or playing row, if it writes one. */
  function Verdict(r: Row, v: View): Option<Status> {
    if !(r.status.Approved? || r.status.Playing?) || Young(r, v.now) then None
    else if IsCurrent(r, v) && !r.status.Playing? then Some(Playing)
    else if !IsCurrent(r, v) && !IsOnProvider(r, v) then Some(Played)
    else None
  }

  /** `setStatus`: a decision time is recorded with `played` only. */
  function Written(r: Row, s: Status, now: int): Row {
    if s.Played? then r.(status := s, decidedAt := Some(now)) else r.(status := s)
  }

  /** One row after a pass; `tombstone` is the rejected row whose track was just skipped. */
  function RowAfter(r: Row, v: View, tombstone: Option<string>): Row {
    if tombstone == Some(r.id) then Written(r, Played, v.now) else
      match Verdict(r, v)
      case None => r
      case Some(s) => Written(r, s, v.now)
  }

  /** The store after a pass over session `sid`. */
  function StoreAfter(items: OrderedMap<string, Row>, sid: string, v: View, tombstone: Option<string>)
    : OrderedMap<string, Row>
  {
    OrderedMap(items.keys, map id | id in items.at ::
      if items.at[id].sessionId == sid then RowAfter(items.at[id], v, tombstone) else items.at[id])
  }

  /** The rejected row to skip: the first one whose track is playing, unless another active row wants
      the same track. */
  function RejectedHit(rows: seq<Row>, playing: Option<string>): (r: Option<Row>)
    ensures r.Some? ==> r.value in rows && r.value.status.Rejected? && playing == Some(r.value.trackUri)
  {
    if playing.None? || (exists i | 0 <= i < |rows| :: WantsTrack(rows[i], playing.value)) then None
    else FirstRejected(rows, playing.value)
  }

  predicate WantsTrack(r: Row, uri: string) {
    r.trackUri == uri && (r.status.Approved? || r.status.Queued? || r.status.Playing?)
  }

  function FirstRejected(rows: seq<Row>, uri: string): (r: Option<Row>)
    ensures r.Some? ==> r.value in rows && r.value.status.Rejected? && r.value.trackUri == uri
  {
    if rows == [] then None
    else if rows[0].status.Rejected? && rows[0].trackUri == uri then Some(rows[0])
    else FirstRejected(rows[1..], uri)
  }

  /** approved < playing < played and rejected < played; pending and queued rows are never written. */
  function Rank(s: Status): nat {
    match s
    case Played => 2
    case Playing => 1
    case Rejected => 1
    case _ => 0
  }

  /** A tombstone names a rejected row of the session, as `RejectedHit` guarantees. */
  ghost predicate GoodTombstone(items: OrderedMap<string, Row>, sid: string, tombstone: Option<string>) {
    forall id :: id in items.at && items.at[id].sessionId == sid && tombstone == Some(items.at[id].id)
                 ==> items.at[id].status.Rejected?
  }

  /** A pass is a run of status writes, and every write strictly raises the row's rank. */
  lemma WritesRaiseRank(items: OrderedMap<string, Row>, sid: string, v: View, tombstone: Option<string>)
    requires GoodTombstone(items, sid, tombstone)
    ensures var after := StoreAfter(items, sid, v, tombstone);
      forall id :: id in items.at ==>
        && after.at[id].(status := items.at[id].status, decidedAt := items.at[id].decidedAt) == items.at[id]
        && (after.at[id] == items.at[id] || Rank(items.at[id].status) < Rank(after.at[id].status))
        && (after.at[id].status == items.at[id].status ==> after.at[id] == items.at[id])
  {
  }

  /** After a pass an approved or playing row is young, or its track is playing or still in the
      provider's queue; and a young approved or playing row was not touched. */
  lemma PassSettlesOldRows(items: OrderedMap<string, Row>, sid: string, v: View, tombstone: Option<string>, id: string)
    requires GoodTombstone(items, sid, tombstone)
    requires id in items.at && items.at[id].sessionId == sid
    ensures var before, after := items.at[id], StoreAfter(items, sid, v, tombstone).at[id];
      && (after.status.Approved? || after.status.Playing? ==>
            Young(after, v.now) || IsCurrent(after, v) || IsOnProvider(after, v))
      && (after.status.Approved? && !Young(after, v.now) ==> !IsCurrent(after, v))
      && ((before.status.Approved? || before.status.Playing?) && after.status.Played? ==>
            !Young(before, v.now) && !IsCurrent(before, v) && !IsOnProvider(before, v))
      && ((before.status.Approved? || before.status.Playing?) && Young(before, v.now) ==> after == before)
  {
  }

  /** One pass of a poller-only run. */
  datatype Pass = Pass(view: View, tombstone: Option<string>)

  ghost predicate PassesGood(items: OrderedMap<string, Row>, sid: string, passes: seq<Pass>)
    decreases |passes|
  {
    passes == [] ||
    (GoodTombstone(items, sid, passes[0].tombstone)
     && PassesGood(StoreAfter(items, sid, passes[0].view, passes[0].tombstone), sid, passes[1..]))
  }

  /** How many of the passes write row `id`. */
  ghost function WriteCount(items: OrderedMap<string, Row>, sid: string, passes: seq<Pass>, id: string): nat
    requires id in items.at
    decreases |passes|
  {
    if passes == [] then 0 else
      var after := StoreAfter(items, sid, passes[0].view, passes[0].tombstone);
      (if after.at[id] != items.at[id] then 1 else 0) + WriteCount(after, sid, passes[1..], id)
  }

  ghost function StoreAfterAll(items: OrderedMap<string, Row>, sid: string, passes: seq<Pass>): OrderedMap<string, Row>
    decreases |passes|
  {
    if passes == [] then items
    else StoreAfterAll(StoreAfter(items, sid, passes[0].view, passes[0].tombstone), sid, passes[1..])
  }

  /** Over every poller-only run the writes to a row are paid for by its rank, so there are at most
      two, and at most one for a row that starts out playing or rejected. */
  lemma {:induction false} WritesBoundedByRank(items: OrderedMap<string, Row>, sid: string, passes: seq<Pass>,
                                               id: string)
    requires id in items.at && PassesGood(items, sid, passes)
    ensures id in StoreAfterAll(items, sid, passes).at
    ensures WriteCount(items, sid, passes, id) + Rank(items.at[id].status)
            <= Rank(StoreAfterAll(items, sid, passes).at[id].status) <= 2
    decreases |passes|
  {
    if passes != [] {
      WritesRaiseRank(items, sid, passes[0].view, passes[0].tombstone);
      WritesBoundedByRank(StoreAfter(items, sid, passes[0].view, passes[0].tombstone), sid, passes[1..], id);
    }
  }

  // ---------------------------------------------------------------- the retry pump

  function LastPush(r: Row, lastPushed: map<string, int>): int {
    if r.id in lastPushed then lastPushed[r.id] else r.createdAt
  }

  /** Is the row re-pushed, successfully, in this pass? */
  predicate Pushes(r: Row, lastPushed: map<string, int>, v: View) {
    && r.status.Approved? && Young(r, v.now)
    && !IsCurrent(r, v) && !IsOnProvider(r, v)
    && v.canPush && v.now - LastPush(r, lastPushed) >= RETRY_AFTER_PUSH_MS
    && r.id in v.pushWorks
  }

  function PushedIds(rows: seq<Row>, lastPushed: map<string, int>, v: View): set<string> {
    set r | r in rows && Pushes(r, lastPushed, v) :: r.id
  }

  function LastPushedAfter(rows: seq<Row>, lastPushed: map<string, int>, v: View): map<string, int> {
    var pushed := PushedIds(rows, lastPushed, v);
    map id | id in lastPushed.Keys + pushed :: if id in pushed then v.now else lastPushed[id]
  }

  /** What a pass reads, over one entry's lifetime. */
  datatype Reading = Reading(rows: seq<Row>, view: View)

  /** The passes of one tick chain: the clock does not run backwards, ids are keys, and a row keeps
      the creation time `created` gives its id. */
  ghost predicate ChainOf(readings: seq<Reading>, created: map<string, int>) {
    && (forall i :: 0 <= i < |readings| ==> forall r :: r in readings[i].rows ==>
          r.id in created && r.createdAt == created[r.id])
    && (forall i, j :: 0 <= i < j < |readings| ==> readings[i].view.now <= readings[j].view.now)
  }

  /** The entry's push map after the passes, starting empty. */
  ghost function PushMap(readings: seq<Reading>): map<string, int> {
    if readings == [] then map[]
    else LastPushedAfter(Last(readings).rows, PushMap(Init(readings)), Last(readings).view)
  }

  /** When row `id` was successfully re-pushed, oldest first. */
  ghost function PushTimes(readings: seq<Reading>, id: string): seq<int> {
    if readings == [] then [] else
      var l := Last(readings);
      PushTimes(Init(readings), id)
      + (if id in PushedIds(l.rows, PushMap(Init(readings)), l.view) then [l.view.now] else [])
  }

  /** Pushes are at least twelve seconds after creation and after each other, and before thirty. */
  ghost predicate WellSpaced(times: seq<int>, createdAt: int) {
    && (forall k :: 0 <= k < |times| ==> createdAt + (k + 1) * RETRY_AFTER_PUSH_MS <= times[k])
    && (forall k :: 0 <= k < |times| ==> times[k] < createdAt + RECONCILE_GRACE_MS)
    && (forall k :: 0 <= k < |times| - 1 ==> times[k] + RETRY_AFTER_PUSH_MS <= times[k + 1])
  }

  lemma {:induction false} PushTimesSpaced(readings: seq<Reading>, created: map<string, int>, id: string)
    requires ChainOf(readings, created) && id in created
    ensures WellSpaced(PushTimes(readings, id), created[id])
    ensures var times := PushTimes(readings, id);
      && (times == [] <==> id !in PushMap(readings))
      && (times != [] ==> PushMap(readings)[id] == Last(times))
  {
    if readings != [] {
      var h, l := Init(readings), Last(readings);
      assert l == readings[|readings| - 1];
      assert ChainOf(h, created) by {
        assert forall i :: 0 <= i < |h| ==> h[i] == readings[i];
      }
      PushTimesSpaced(h, created, id);
      var before := PushTimes(h, id);
      if id in PushedIds(l.rows, PushMap(h), l.view) {
        var r :| r in l.rows && Pushes(r, PushMap(h), l.view) && r.id == id;
        NextPushSpaced(before, created[id], l.view.now);
      } else {
        assert PushTimes(readings, id) == before;
      }
    }
  }

  lemma NextPushSpaced(times: seq<int>, createdAt: int, now: int)
    requires WellSpaced(times, createdAt)
    requires now < createdAt + RECONCILE_GRACE_MS
    requires (if times == [] then createdAt else Last(times)) + RETRY_AFTER_PUSH_MS <= now
    ensures WellSpaced(times + [now], createdAt)
  {
    if times != [] {
      assert createdAt + |times| * RETRY_AFTER_PUSH_MS <= times[|times| - 1];
    }
  }

  /** Each queue item gets at most two successful retry pushes in an entry's lifetime. */
  lemma AtMostTwoPushes(readings: seq<Reading>, created: map<string, int>, id: string)
    requires ChainOf(readings, created) && id in created
    ensures |PushTimes(readings, id)| <= 2
    ensures WellSpaced(PushTimes(readings, id), created[id])
  {
    PushTimesSpaced(readings, created, id);
    var times := PushTimes(readings, id);
    var latest := |times| - 1;
    assert times != [] ==>
      created[id] + (latest + 1) * RETRY_AFTER_PUSH_MS <= times[latest] < created[id] + RECONCILE_GRACE_MS;
  }

  /** The bound of two is reached: created at 0, pushed at 12 and 24 seconds. */
  lemma TwoPushesHappen(r: Row)
    requires r.createdAt == 0 && r.status.Approved?
    ensures var v1 := View(12_000, None, {}, true, {r.id});
      var v2 := View(24_000, None, {}, true, {r.id});
      PushTimes([Reading([r], v1), Reading([r], v2)], r.id) == [12_000, 24_000]
  {
    var v1, v2 := View(12_000, None, {}, true, {r.id}), View(24_000, None, {}, true, {r.id});
    var a, b := Reading([r], v1), Reading([r], v2);
    assert Init([a]) == [] && Init([a, b]) == [a];
    assert r in a.rows && Pushes(r, map[], v1) && r.id in PushedIds(a.rows, map[], v1);
    assert PushMap([a]) == map[r.id := 12_000];
    assert r in b.rows && Pushes(r, PushMap([a]), v2) && r.id in PushedIds(b.rows, PushMap([a]), v2);
    assert PushTimes([a], r.id) == [12_000];
  }

  // ---------------------------------------------------------------- reading the provider's queue

  /** Does this tick need a fresh read of the provider's queue? */
  predicate ShouldReadQueue(lastReadAt: Option<int>, lastReadUri: Option<string>, playing: Option<string>,
                            queueRefreshMs: int, rows: seq<Row>, now: int)
  {
    || lastReadAt.None?
    || playing != lastReadUri
    || now - lastReadAt.value >= queueRefreshMs
    || exists i | 0 <= i < |rows| :: rows[i].status.Approved? && Young(rows[i], now)
  }

  /** A tick that skips the read never re-pushes, so the pump never acts on a queue the poller chose
      not to refresh. The pass runs at or after the decision. */
  lemma NoPushWithoutRead(lastReadAt: Option<int>, lastReadUri: Option<string>, queueRefreshMs: int,
                          rows: seq<Row>, now: int, lastPushed: map<string, int>, v: View)
    requires !ShouldReadQueue(lastReadAt, lastReadUri, v.playing, queueRefreshMs, rows, now)
    requires now <= v.now
    ensures PushedIds(rows, lastPushed, v) == {}
  {
    forall r | r in rows ensures !Pushes(r, lastPushed, v) {
      var i :| 0 <= i < |rows| && rows[i] == r;
      assert r.status.Approved? ==> !Young(rows[i], now);
    }
  }

  // ---------------------------------------------------------------- auto-skips

  /** What the environment adds to one pass of a skip path: the settle guard is read at `checkedAt`, a
      dispatch would be recorded at `recordedAt`, and the provider does or does not skip. */
  datatype SkipCall = SkipCall(checkedAt: int, recordedAt: int, works: bool)

  /** One pass of either skip path, with whether it found a track to skip. */
  datatype SkipAttempt = SkipAttempt(checkedAt: int, recordedAt: int, wanted: bool, works: bool)

  function Attempt(call: SkipCall, wanted: bool): SkipAttempt {
    SkipAttempt(call.checkedAt, call.recordedAt, wanted, call.works)
  }

  predicate Dispatches(a: SkipAttempt, lastSkipAt: int) {
    a.wanted && a.works && a.checkedAt - lastSkipAt >= SKIP_SETTLE_MS
  }

  function LastSkipAfter(a: SkipAttempt, lastSkipAt: int): int {
    if Dispatches(a, lastSkipAt) then a.recordedAt else lastSkipAt
  }

  /** `lastSkipAtMs` after the attempts, in order. */
  function LastSkip(attempts: seq<SkipAttempt>): int {
    if attempts == [] then 0 else LastSkipAfter(Last(attempts), LastSkip(Init(attempts)))
  }

  /** When skips were recorded, oldest first. */
  function SkipTimes(attempts: seq<SkipAttempt>): seq<int> {
    if attempts == [] then [] else
      SkipTimes(Init(attempts))
      + (if Dispatches(Last(attempts), LastSkip(Init(attempts))) then [Last(attempts).recordedAt] else [])
  }

  /** On a monotone clock a dispatch is recorded no earlier than its guard was read. On one tick chain
      an attempt ends before the next begins, so each guard reads the latest record. */
  ghost predicate OneChain(attempts: seq<SkipAttempt>) {
    forall i :: 0 <= i < |attempts| ==> 0 <= attempts[i].checkedAt <= attempts[i].recordedAt
  }

  ghost predicate Settled(times: seq<int>) {
    forall i, j :: 0 <= i < j < |times| ==> times[i] + SKIP_SETTLE_MS <= times[j]
  }

  /** Any two recorded auto-skips, from either path, are at least the settle time apart. */
  lemma {:induction false} SkipsAreSpaced(attempts: seq<SkipAttempt>)
    requires OneChain(attempts)
    ensures Settled(SkipTimes(attempts))
      && (SkipTimes(attempts) != [] ==> LastSkip(attempts) == Last(SkipTimes(attempts)))
  {
    if attempts != [] {
      var h := Init(attempts);
      assert Last(attempts) == attempts[|attempts| - 1];
      assert OneChain(h) by {
        assert forall i :: 0 <= i < |h| ==> h[i] == attempts[i];
      }
      SkipsAreSpaced(h);
      if Dispatches(Last(attempts), LastSkip(h)) {
        SettledSnoc(SkipTimes(h), Last(attempts).recordedAt);
      } else {
        assert SkipTimes(attempts) == SkipTimes(h);
      }
    }
  }

  lemma SettledSnoc(times: seq<int>, next: int)
    requires Settled(times) && (times != [] ==> Last(times) + SKIP_SETTLE_MS <= next)
    ensures Settled(times + [next])
  {
    forall i | 0 <= i < |times| ensures times[i] <= Last(times) {
    }
  }
}

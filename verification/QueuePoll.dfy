/** The poller's pass over the queue as it runs: rows rewritten in the repository one by one, pushes and
    skips recorded in the session's record. */
module QueuePoll {
  import opened Collections
  import opened QueueTypes
  import opened Stores
  import opened PollerObject
  import opened Reconcile
  import H = Hydration
  import L = LiveSession

  function RowIds(rows: seq<Row>): set<string> {
    set r | r in rows :: r.id
  }

  /** The store when the rows in `done`, and the tombstone, have been dealt with. */
  function StoreSoFar(items: OrderedMap<string, Row>, v: View, tombstone: Option<string>,
                      done: set<string>): OrderedMap<string, Row>
  {
    OrderedMap(items.keys, map id | id in items.at ::
      if id in done || tombstone == Some(id) then RowAfter(items.at[id], v, tombstone) else items.at[id])
  }

  /** The rows read are the session's rows, each once, as the store has them. */
  ghost predicate Read(items: OrderedMap<string, Row>, sid: string, rows: seq<Row>) {
    && (forall id :: id in items.at ==> items.at[id].id == id && id in items.keys)
    && H.DistinctRowIds(rows)
    && (forall i :: 0 <= i < |rows| ==>
          rows[i].id in items.at && items.at[rows[i].id] == rows[i] && rows[i].sessionId == sid)
    && (forall id :: id in items.at && items.at[id].sessionId == sid ==> items.at[id] in rows)
  }

  lemma SessionRowsRead(items: OrderedMap<string, Row>, sid: string)
    requires items.Valid() && forall id :: id in items.at ==> items.at[id].id == id
    ensures Read(items, sid, L.SessionRows(items, sid))
  {
    var rows := L.SessionRows(items, sid);
    H.SessionRowsOk(items, items.at.Keys, sid);
    forall i | 0 <= i < |rows|
      ensures rows[i].id in items.at && items.at[rows[i].id] == rows[i] && rows[i].sessionId == sid
    {
      assert rows[i] in rows;
    }
  }

  /** Once every row read is done, the store is where the pass takes it. */
  lemma AllDone(items: OrderedMap<string, Row>, sid: string, rows: seq<Row>, v: View, tombstone: Option<string>)
    requires Read(items, sid, rows)
    requires tombstone.Some? ==> tombstone.value in RowIds(rows)
    ensures StoreSoFar(items, v, tombstone, RowIds(rows)) == StoreAfter(items, sid, v, tombstone)
  {
    forall id | id in items.at ensures items.at[id].sessionId == sid <==> id in RowIds(rows) {
      if id in RowIds(rows) {
        var r :| r in rows && r.id == id;
        var i :| 0 <= i < |rows| && rows[i] == r;
      }
    }
  }

  /** A row is rewritten in place. */
  lemma OneMore(items: OrderedMap<string, Row>, v: View, tombstone: Option<string>, done: set<string>, r: Row)
    requires r.id in items.at && r.id in items.keys && items.at[r.id] == r
    ensures var before, after := StoreSoFar(items, v, tombstone, done), StoreSoFar(items, v, tombstone, done + {r.id});
      && after == before.Put(r.id, RowAfter(r, v, tombstone))
      && (RowAfter(r, v, tombstone) == before.at[r.id] ==> after == before)
  {
    var before, after := StoreSoFar(items, v, tombstone, done), StoreSoFar(items, v, tombstone, done + {r.id});
    assert after.at == before.at[r.id := RowAfter(r, v, tombstone)];
  }

  lemma NobodyDone(items: OrderedMap<string, Row>, v: View)
    ensures StoreSoFar(items, v, None, {}) == items
  {
  }

  lemma PushedSnoc(rows: seq<Row>, r: Row, lastPushed: map<string, int>, v: View)
    requires r.id !in RowIds(rows)
    ensures LastPushedAfter(rows + [r], lastPushed, v) ==
      if Pushes(r, lastPushed, v) then LastPushedAfter(rows, lastPushed, v)[r.id := v.now]
        else LastPushedAfter(rows, lastPushed, v)
    ensures LastPush(r, LastPushedAfter(rows, lastPushed, v)) == LastPush(r, lastPushed)
  {
    var before, after := PushedIds(rows, lastPushed, v), PushedIds(rows + [r], lastPushed, v);
    assert forall x :: x in rows + [r] <==> x in rows || x == r;
    assert r.id !in before;
    assert after == if Pushes(r, lastPushed, v) then before + {r.id} else before;
  }

  // ---------------------------------------------------------------- vote-rejected tracks

  function RejectedUris(bySession: map<string, set<string>>, sid: string): set<string> {
    if sid in bySession then bySession[sid] else {}
  }

  /** Tracks of the provider's own queue that were voted out and wait to be skipped. */
  class ProviderRejections {
    var bySession: map<string, set<string>>

    constructor ()
      ensures bySession == map[]
    {
      bySession := map[];
    }

    /** No session is kept with nothing rejected. */
    predicate Valid()
      reads this
    {
      forall sid :: sid in bySession ==> bySession[sid] != {}
    }

    method ConsumeProviderRejection(sid: string, uri: string) returns (had: bool)
      requires Valid()
      modifies this
      ensures Valid() && had == (uri in RejectedUris(old(bySession), sid))
      ensures forall s :: RejectedUris(bySession, s) == RejectedUris(old(bySession), s) - if s == sid then {uri} else {}
    {
      if sid !in bySession {
        return false;
      }
      var uris := bySession[sid];
      had := uri in uris;
      if uris - {uri} == {} {
        bySession := bySession - {sid};
      } else {
        bySession := bySession[sid := uris - {uri}];
      }
    }
  }

  class QueueReconciler {
    const queueItems: InMemoryQueueItemRepository
    const rejections: ProviderRejections
    const entry: PerSession
    ghost var attempts: seq<SkipAttempt>   // every pass of either skip path since the record was made

    constructor (queueItems: InMemoryQueueItemRepository, rejections: ProviderRejections, entry: PerSession)
      requires entry.lastSkipAtMs == 0 && rejections.Valid()
      ensures this.queueItems == queueItems && this.rejections == rejections && this.entry == entry
      ensures attempts == [] && Valid()
    {
      this.queueItems := queueItems;
      this.rejections := rejections;
      this.entry := entry;
      attempts := [];
    }

    /** The record remembers the last skip of either path. */
    ghost predicate Valid()
      reads this, entry, rejections
    {
      rejections.Valid() && OneChain(attempts) && entry.lastSkipAtMs == LastSkip(attempts)
    }

    /** The tick's early path: skip a vote-rejected track the moment it plays, unless the last skip is
        still settling. A skip that works uses the rejection up. */
    method SkipVoteRejected(sid: string, playing: Option<string>, call: SkipCall) returns (skipped: bool)
      requires rejections.Valid()
      modifies rejections, entry`lastSkipAtMs
      ensures rejections.Valid()
      ensures var wanted := playing.Some? && playing.value in RejectedUris(old(rejections.bySession), sid);
        var attempt := Attempt(call, wanted);
        && skipped == Dispatches(attempt, old(entry.lastSkipAtMs))
        && entry.lastSkipAtMs == LastSkipAfter(attempt, old(entry.lastSkipAtMs))
      ensures skipped ==> playing.Some?
      ensures forall s :: RejectedUris(rejections.bySession, s) ==
                          RejectedUris(old(rejections.bySession), s) - if skipped && s == sid then {playing.value}
                            else {}
    {
      var skipSettling := call.checkedAt - entry.lastSkipAtMs < SKIP_SETTLE_MS;
      if playing.None? || skipSettling || playing.value !in RejectedUris(rejections.bySession, sid) || !call.works {
        return false;
      }
      entry.lastSkipAtMs := call.recordedAt;
      var had := rejections.ConsumeProviderRejection(sid, playing.value);
      skipped := true;
    }

    /** Skip a rejected track that is playing, unless the last skip is still settling. The row becomes a
        tombstone, so that the same rejection does not fire again. */
    method SkipRejected(rows: seq<Row>, v: View, call: SkipCall) returns (tombstone: Option<string>)
      requires forall r :: r in rows ==>
        r.id in queueItems.rows.at && queueItems.rows.at[r.id] == r && r.id in queueItems.rows.keys
      modifies queueItems, entry`lastSkipAtMs
      ensures var attempt := Attempt(call, RejectedHit(rows, v.playing).Some?);
        && entry.lastSkipAtMs == LastSkipAfter(attempt, old(entry.lastSkipAtMs))
        && tombstone == if Dispatches(attempt, old(entry.lastSkipAtMs))
             then Some(RejectedHit(rows, v.playing).value.id) else None
      ensures queueItems.rows == StoreSoFar(old(queueItems.rows), v, tombstone, {})
    {
      NobodyDone(queueItems.rows, v);
      if call.checkedAt - entry.lastSkipAtMs < SKIP_SETTLE_MS {
        return None;
      }
      var hit := RejectedHit(rows, v.playing);
      if hit.None? || !call.works {
        return None;
      }
      entry.lastSkipAtMs := call.recordedAt;
      tombstone := Some(hit.value.id);
      OneMore(queueItems.rows, v, tombstone, {}, hit.value);
      var updated := queueItems.SetStatus(hit.value.id, Played, Some(v.now));
      assert queueItems.rows.at == StoreSoFar(old(queueItems.rows), v, tombstone, {}).at;
    }

    /** One row past the pump and the verdict. */
    method SettleRow(item: Row, v: View)
      requires item.id in queueItems.rows.at && (Verdict(item, v).Some? ==> queueItems.rows.at[item.id] == item)
      modifies queueItems
      ensures queueItems.rows == if Verdict(item, v).Some?
        then old(queueItems.rows).Put(item.id, Written(item, Verdict(item, v).value, v.now))
                                 else old(queueItems.rows)
    {
      if !(item.status.Approved? || item.status.Playing?) || v.now - item.createdAt < RECONCILE_GRACE_MS {
        return;
      }
      var isCurrent := v.playing == Some(item.trackUri);
      var isQueued := item.trackUri in v.queued;
      if isCurrent && !item.status.Playing? {
        var updated := queueItems.SetStatus(item.id, Playing, None);
      } else if !isCurrent && !isQueued {
        var updated := queueItems.SetStatus(item.id, Played, Some(v.now));
      }
    }

    /** The retry pump for one row. */
    method PumpRow(item: Row, v: View)
      modifies entry`lastPushedAt
      ensures entry.lastPushedAt == if Pushes(item, old(entry.lastPushedAt), v)
        then old(entry.lastPushedAt)[item.id := v.now]
                                    else old(entry.lastPushedAt)
    {
      if !item.status.Approved? || v.now - item.createdAt >= RECONCILE_GRACE_MS {
        return;
      }
      var lastPush := if item.id in entry.lastPushedAt then entry.lastPushedAt[item.id] else item.createdAt;
      if v.playing != Some(item.trackUri) && item.trackUri !in v.queued && v.canPush
        && v.now - lastPush >= RETRY_AFTER_PUSH_MS {
        if item.id in v.pushWorks {
          entry.lastPushedAt := entry.lastPushedAt[item.id := v.now];
        }
      }
    }

    /** One row of the pass. */
    method ReconcileRow(
        item: Row, v: View, ghost items: OrderedMap<string, Row>, ghost tombstone: Option<string>,
        ghost done: set<string>)
      requires item.id in items.at && item.id in items.keys && items.at[item.id] == item && item.id !in done
      requires tombstone == Some(item.id) ==> item.status.Rejected?
      requires queueItems.rows == StoreSoFar(items, v, tombstone, done)
      modifies queueItems, entry`lastPushedAt
      ensures queueItems.rows == StoreSoFar(items, v, tombstone, done + {item.id})
      ensures entry.lastPushedAt == if Pushes(item, old(entry.lastPushedAt), v)
        then old(entry.lastPushedAt)[item.id := v.now]
                                    else old(entry.lastPushedAt)
    {
      OneMore(items, v, tombstone, done, item);
      SettleRow(item, v);
      PumpRow(item, v);
    }

    method ReconcileRows(
        rows: seq<Row>, sid: string, v: View, ghost items: OrderedMap<string, Row>, ghost tombstone: Option<string>)
      requires Read(items, sid, rows) && queueItems.rows == StoreSoFar(items, v, tombstone, {})
      requires tombstone.Some? ==> exists r :: r in rows && r.id == tombstone.value && r.status.Rejected?
      modifies queueItems, entry`lastPushedAt
      ensures queueItems.rows == StoreAfter(items, sid, v, tombstone)
      ensures entry.lastPushedAt == LastPushedAfter(rows, old(entry.lastPushedAt), v)
    {
      ghost var pushed := entry.lastPushedAt;
      assert LastPushedAfter(rows[..0], pushed, v) == pushed;
      for i := 0 to |rows|
        invariant queueItems.rows == StoreSoFar(items, v, tombstone, RowIds(rows[..i]))
        invariant entry.lastPushedAt == LastPushedAfter(rows[..i], pushed, v)
      {
        NextRow(rows, i);
        TombstoneRow(items, sid, rows, i, tombstone);
        PushedSnoc(rows[..i], rows[i], pushed, v);
        SamePush(rows[i], entry.lastPushedAt, pushed, v);
        ReconcileRow(rows[i], v, items, tombstone, RowIds(rows[..i]));
      }
      assert rows[..|rows|] == rows;
      AllDone(items, sid, rows, v, tombstone);
    }

    lemma TombstoneRow(items: OrderedMap<string, Row>, sid: string, rows: seq<Row>, i: nat, tombstone: Option<string>)
      requires Read(items, sid, rows) && i < |rows|
      requires tombstone.Some? ==> exists r :: r in rows && r.id == tombstone.value && r.status.Rejected?
      ensures tombstone == Some(rows[i].id) ==> rows[i].status.Rejected?
    {
      if tombstone == Some(rows[i].id) {
        var r :| r in rows && r.id == tombstone.value && r.status.Rejected?;
        var j :| 0 <= j < |rows| && rows[j] == r;
        assert i == j;
      }
    }

    /** The whole pass over the rows read at its start. */
    method ReconcileQueue(sid: string, v: View, call: SkipCall) returns (skipDispatched: bool)
      requires queueItems.rows.Valid() && forall id :: id in queueItems.rows.at ==> queueItems.rows.at[id].id == id
      modifies queueItems, entry`lastSkipAtMs, entry`lastPushedAt
      ensures var rows := L.SessionRows(old(queueItems.rows), sid);
        var attempt := Attempt(call, RejectedHit(rows, v.playing).Some?);
        && skipDispatched == Dispatches(attempt, old(entry.lastSkipAtMs))
        && entry.lastSkipAtMs == LastSkipAfter(attempt, old(entry.lastSkipAtMs))
        && queueItems.rows == StoreAfter(old(queueItems.rows), sid, v,
             if skipDispatched then Some(RejectedHit(rows, v.playing).value.id) else None)
        && entry.lastPushedAt == LastPushedAfter(rows, old(entry.lastPushedAt), v)
    {
      ghost var items := queueItems.rows;
      var rows := queueItems.FindAllForSession(sid);
      SessionRowsRead(items, sid);
      assert forall r :: r in rows ==> exists i :: 0 <= i < |rows| && rows[i] == r;
      var tombstone := SkipRejected(rows, v, call);
      skipDispatched := tombstone.Some?;
      ReconcileRows(rows, sid, v, items, tombstone);
    }

    /** Both skip paths of a tick, the second with the pass over the rows. Whatever ticks went before, any
        two skips recorded so far are at least the settle time apart. */
    method TickSkips(sid: string, v: View, early: SkipCall, late: SkipCall) returns (skipDispatched: bool)
      requires Valid() && queueItems.rows.Valid()
      requires forall id :: id in queueItems.rows.at ==> queueItems.rows.at[id].id == id
      requires 0 <= early.checkedAt <= early.recordedAt && 0 <= late.checkedAt <= late.recordedAt
      modifies this`attempts, queueItems, rejections, entry`lastSkipAtMs, entry`lastPushedAt
      ensures Valid() && Settled(SkipTimes(attempts)) && attempts != []
      ensures var rows := L.SessionRows(old(queueItems.rows), sid);
        var voted := v.playing.Some? && v.playing.value in RejectedUris(old(rejections.bySession), sid);
        && attempts == old(attempts) + [Attempt(early, voted)] + [Attempt(late, RejectedHit(rows, v.playing).Some?)]
        && skipDispatched == (|SkipTimes(attempts)| > |SkipTimes(old(attempts))|)
        && (forall s :: RejectedUris(rejections.bySession, s) == RejectedUris(old(rejections.bySession), s) -
                        if Dispatches(Attempt(early, voted), LastSkip(old(attempts))) && s == sid
                          then {v.playing.value} else {})
      ensures var rows := L.SessionRows(old(queueItems.rows), sid);
        && queueItems.rows == StoreAfter(old(queueItems.rows), sid, v,
             if Dispatches(Last(attempts), LastSkip(Init(attempts))) then Some(RejectedHit(rows, v.playing).value.id)
               else None)
        && entry.lastPushedAt == LastPushedAfter(rows, old(entry.lastPushedAt), v)
    {
      ghost var voted := v.playing.Some? && v.playing.value in RejectedUris(rejections.bySession, sid);
      ghost var hit := RejectedHit(L.SessionRows(queueItems.rows, sid), v.playing).Some?;
      OneAttemptMore(attempts, Attempt(early, voted));
      OneAttemptMore(attempts + [Attempt(early, voted)], Attempt(late, hit));
      var first := SkipVoteRejected(sid, v.playing, early);
      var second := ReconcileQueue(sid, v, late);
      skipDispatched := first || second;
      attempts := attempts + [Attempt(early, voted)] + [Attempt(late, hit)];
      assert Init(attempts) == old(attempts) + [Attempt(early, voted)];
      SkipsAreSpaced(attempts);
    }

    lemma OneAttemptMore(attempts: seq<SkipAttempt>, a: SkipAttempt)
      requires OneChain(attempts) && 0 <= a.checkedAt <= a.recordedAt
      ensures OneChain(attempts + [a]) && LastSkip(attempts + [a]) == LastSkipAfter(a, LastSkip(attempts))
      ensures SkipTimes(attempts + [a]) == SkipTimes(attempts) + if Dispatches(a, LastSkip(attempts))
        then [a.recordedAt] else []
    {
      assert Init(attempts + [a]) == attempts;
    }

    lemma NextRow(rows: seq<Row>, i: nat)
      requires i < |rows| && H.DistinctRowIds(rows)
      ensures rows[..i + 1] == rows[..i] + [rows[i]]
      ensures RowIds(rows[..i + 1]) == RowIds(rows[..i]) + {rows[i].id} && rows[i].id !in RowIds(rows[..i])
    {
      assert rows[..i + 1] == rows[..i] + [rows[i]];
      assert forall r :: r in rows[..i + 1] <==> r in rows[..i] || r == rows[i];
    }

    lemma SamePush(r: Row, a: map<string, int>, b: map<string, int>, v: View)
      requires LastPush(r, a) == LastPush(r, b)
      ensures Pushes(r, a, v) == Pushes(r, b, v)
    {
    }
  }
}

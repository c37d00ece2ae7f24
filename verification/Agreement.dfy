/** The snapshot is a faithful cache of the stores: what it shows for the session is exactly what the
    rows, claims and karaoke state say. */
module Agreement {
  import opened Collections
  import opened QueueTypes
  import opened Snapshot
  import opened ItemIndex
  import opened Claims
  import opened LiveSession

  // ---------------------------------------------------------------- what the lists should show

  /** A summary without the two fields events leave behind: the vote count of a pending item and the
      decision time. */
  function CoreOf(i: ItemSummary): ItemSummary {
    i.(skipVotes := 0, decidedAtEpochMs := None)
  }

  function RowCore(r: Row, claims: seq<Claim>): ItemSummary {
    CoreOf(ToSummary(r, Singers(claims, r.id)))
  }

  /** The statuses of the pending list, and those of the queue list. */
  predicate Side(pending: bool, s: Status) {
    if pending then s.Pending? else s.Approved? || s.Queued? || s.Playing?
  }

  function OnSide(sid: string, pending: bool): Row -> bool {
    (r: Row) => r.sessionId == sid && Side(pending, r.status)
  }

  function ShownWith(claims: seq<Claim>): Row -> ItemSummary {
    (r: Row) => RowCore(r, claims)
  }

  function View(items: map<string, Row>, claims: seq<Claim>, sid: string, pending: bool): map<string, ItemSummary> {
    Select(items, OnSide(sid, pending), ShownWith(claims))
  }

  /** The snapshot's two lists hold `p` and `q`. */
  ghost predicate Shows(s: Snapshot, p: map<string, ItemSummary>, q: map<string, ItemSummary>) {
    Lists(s.pending, CoreOf, p) && Lists(s.queue, CoreOf, q)
  }

  /** Pending ids are exactly the pending rows, queue ids exactly the approved, queued and playing
      ones, nothing is listed twice, and each entry has the row's status, fields and singers. */
  ghost predicate Agrees(w: World) {
    Shows(w.snap, View(w.items.at, w.claims, w.sid, true), View(w.items.at, w.claims, w.sid, false))
  }

  /** Rows are kept under their own ids, all of them issued. */
  ghost predicate ItemsOk(items: OrderedMap<string, Row>, issued: set<string>) {
    items.Valid() && forall id :: id in items.at ==> items.at[id].id == id && id in issued
  }

  /** Claims are keyed, one per guest and item, about issued items, and none is from the future. */
  ghost predicate ClaimsOk(claims: seq<Claim>, issued: set<string>, clock: int) {
    && ClaimsDistinct(claims)
    && forall c :: c in claims ==> c.id in issued && c.queueItemId in issued && c.createdAt <= clock
  }

  /** A claim on one of the session's items is the session's claim. */
  ghost predicate ClaimsHome(claims: seq<Claim>, items: map<string, Row>, sid: string) {
    forall c :: c in claims && c.queueItemId in items && items[c.queueItemId].sessionId == sid ==> c.sessionId == sid
  }

  /** What the stores guarantee by themselves. */
  ghost predicate StoreOk(w: World) {
    && ItemsOk(w.items, w.issued)
    && ClaimsOk(w.claims, w.issued, w.clock)
    && ClaimsHome(w.claims, w.items.at, w.sid)
  }

  ghost predicate KaraokeMirrored(w: World) {
    w.karaoke == w.snap.karaoke && KaraokeWellFormed(w.karaoke)
  }

  ghost predicate Inv(w: World) {
    StoreOk(w) && Agrees(w) && KaraokeMirrored(w)
  }

  // ---------------------------------------------------------------- views under store changes

  lemma ViewPut(items: map<string, Row>, claims: seq<Claim>, sid: string, pending: bool, r: Row)
    ensures View(items[r.id := r], claims, sid, pending) ==
      if r.sessionId == sid && Side(pending, r.status)
      then View(items, claims, sid, pending)[r.id := RowCore(r, claims)]
      else View(items, claims, sid, pending) - {r.id}
  {
    SelectPut(items, OnSide(sid, pending), ShownWith(claims), r.id, r);
  }

  lemma ViewRemove(items: map<string, Row>, claims: seq<Claim>, sid: string, pending: bool, id: string)
    ensures View(items - {id}, claims, sid, pending) == View(items, claims, sid, pending) - {id}
  {
    SelectRemove(items, OnSide(sid, pending), ShownWith(claims), id);
  }

  /** Claims that differ on one item change that item's entry only. */
  lemma ViewClaims(items: map<string, Row>, claims: seq<Claim>, claims': seq<Claim>, sid: string, pending: bool,
                   id: string)
    requires forall k :: k in items ==> items[k].id == k
    requires forall k :: k != id ==> Singers(claims', k) == Singers(claims, k)
    ensures var v := View(items, claims, sid, pending);
      View(items, claims', sid, pending) ==
        if id in v then v[id := v[id].(karaokeClaims := Singers(claims', id))] else v
  {
    var f, g := ShownWith(claims), ShownWith(claims');
    forall k | k in items && k != id ensures g(items[k]) == f(items[k]) {
      assert items[k].id == k;
    }
    SelectEdit(items, OnSide(sid, pending), f, g, id);
  }

  lemma SidesAreDisjoint(items: map<string, Row>, claims: seq<Claim>, sid: string)
    ensures View(items, claims, sid, true).Keys !! View(items, claims, sid, false).Keys
  {
  }

  // ---------------------------------------------------------------- what events do to the lists

  lemma AfterRequested(s: Snapshot, item: ItemSummary, p: map<string, ItemSummary>, q: map<string, ItemSummary>)
    requires Shows(s, p, q) && item.id !in p
    ensures Shows(ApplyEvent(s, ItemRequested(item)), p[item.id := CoreOf(item)], q)
  {
    ListsAppend(s.pending, CoreOf, p, item);
  }

  lemma AfterApproved(s: Snapshot, id: string, p: map<string, ItemSummary>, q: map<string, ItemSummary>)
    requires Shows(s, p, q) && p.Keys !! q.Keys
    ensures Shows(ApplyEvent(s, ItemApproved(id)),
                  p - {id},
                  if id in p then q[id := p[id].(status := Approved)]
                  else if id in q then q[id := q[id].(status := Approved)] else q)
  {
    FindInIndex(s.pending, CoreOf, id);
    FindInIndex(s.queue, CoreOf, id);
    var k, j := FindIndex(s.pending, id), FindIndex(s.queue, id);
    if k >= 0 {
      ListsRemoveAt(s.pending, CoreOf, p, k);
      ListsAppend(s.queue, CoreOf, q, s.pending[k].(status := Approved));
    } else {
      assert p - {id} == p;
      if j >= 0 {
        ListsUpdate(s.queue, CoreOf, q, j, s.queue[j].(status := Approved));
      }
    }
  }

  lemma AfterRejected(s: Snapshot, id: string, p: map<string, ItemSummary>, q: map<string, ItemSummary>)
    requires Shows(s, p, q) && p.Keys !! q.Keys
    ensures Shows(ApplyEvent(s, ItemRejected(id)), p - {id}, q - {id})
  {
    FindInIndex(s.pending, CoreOf, id);
    FindInIndex(s.queue, CoreOf, id);
    var k, j := FindIndex(s.pending, id), FindIndex(s.queue, id);
    if k >= 0 {
      ListsRemoveAt(s.pending, CoreOf, p, k);
      assert q - {id} == q;
    } else {
      assert p - {id} == p;
      if j >= 0 {
        ListsRemoveAt(s.queue, CoreOf, q, j);
      } else {
        assert q - {id} == q;
      }
    }
  }

  lemma AfterRemoved(s: Snapshot, id: string, p: map<string, ItemSummary>, q: map<string, ItemSummary>)
    requires Shows(s, p, q)
    ensures Shows(ApplyEvent(s, ItemRemoved(id)), p - {id}, q - {id})
  {
    ListsRemoveId(s.pending, CoreOf, p, id);
    ListsRemoveId(s.queue, CoreOf, q, id);
  }

  function EditEntry(m: map<string, ItemSummary>, id: string, edit: ClaimsEdit): map<string, ItemSummary> {
    if id in m then m[id := m[id].(karaokeClaims := EditClaims(m[id].karaokeClaims, edit))] else m
  }

  lemma AfterClaimsEdit(s: Snapshot, id: string, edit: ClaimsEdit, p: map<string, ItemSummary>,
                        q: map<string, ItemSummary>)
    requires Shows(s, p, q) && p.Keys !! q.Keys
    ensures Shows(UpdateItemById(s, id, edit), EditEntry(p, id, edit), EditEntry(q, id, edit))
  {
    FindInIndex(s.pending, CoreOf, id);
    FindInIndex(s.queue, CoreOf, id);
    var k, j := FindIndex(s.pending, id), FindIndex(s.queue, id);
    if k >= 0 {
      ListsUpdate(s.pending, CoreOf, p, k, EditAt(s.pending, k, edit)[k]);
    } else if j >= 0 {
      ListsUpdate(s.queue, CoreOf, q, j, EditAt(s.queue, j, edit)[j]);
    }
  }

  lemma AfterVote(s: Snapshot, id: string, votes: nat, threshold: int, p: map<string, ItemSummary>,
                  q: map<string, ItemSummary>)
    requires Shows(s, p, q)
    ensures Shows(ApplyEvent(s, SkipVoteUpdated(id, votes, threshold)), p, q)
  {
    FindInIndex(s.queue, CoreOf, id);
    var j := FindIndex(s.queue, id);
    if j >= 0 {
      ListsUpdate(s.queue, CoreOf, q, j, s.queue[j].(skipVotes := votes));
      assert q[id := q[id]] == q;
    }
  }

  /** Events other components publish about the session; they carry no queue item and no karaoke. */
  predicate Elsewhere(e: Event) {
    e.NowPlayingUpdated? || e.NowPlayingSkipVoteUpdated? || e.ProviderQueueUpdated? || e.ProviderQueueSkipVoteUpdated?
    || e.ProviderStatusUpdated? || e.GuestSlotsUpdated? || e.ClockSampled? || e.LyricsLoaded? || e.NotFolded?
  }

  // ---------------------------------------------------------------- the steps

  /** Would this approval bring back a row the snapshot no longer shows? */
  predicate Revives(w: World, c: Command) {
    && c.CModerate? && c.approve
    && c.itemId in w.items.at && w.items.at[c.itemId].sessionId == w.sid
    && (w.items.at[c.itemId].status.Rejected? || w.items.at[c.itemId].status.Played?)
  }

  /** Is an approval turned away because the provider is rate limiting the session's account? */
  predicate ApprovalLimited(w: World, limitedUntil: Option<int>) {
    w.dir.session.Some? && limitedUntil.Some?
  }

  /** What the environment promises about a step: the clock moves forward, generated ids are new,
      and other components' events are about other things. */
  ghost predicate Plausible(w: World, c: Command, now: int) {
    && w.clock <= now
    && (c.CRequest? ==> c.env.itemId !in w.issued && c.env.claimId !in w.issued && c.env.itemId != c.env.claimId)
    && (c.CClaim? ==> c.claimId !in w.issued)
    && (c.COtherEvent? ==> Elsewhere(c.event))
  }

  // Stores.

  lemma PutRowStore(items: OrderedMap<string, Row>, issued: set<string>, r: Row)
    requires ItemsOk(items, issued)
    ensures ItemsOk(items.Put(r.id, r), issued + {r.id})
  {
    PutValid(items, r.id, r);
  }

  lemma RemoveRowStore(items: OrderedMap<string, Row>, issued: set<string>, id: string)
    requires ItemsOk(items, issued)
    ensures ItemsOk(items.Remove(id), issued)
  {
    RemoveValid(items, id);
  }

  lemma AddClaimStore(claims: seq<Claim>, issued: set<string>, clock: int, c: Claim, now: int)
    requires ClaimsOk(claims, issued, clock) && clock <= now
    requires c.id !in issued && c.queueItemId in issued && c.createdAt <= now
    requires forall d :: d in claims ==> !(d.queueItemId == c.queueItemId && d.guestId == c.guestId)
    ensures ClaimsOk(claims + [c], issued + {c.id}, now)
  {
    var claims' := claims + [c];
    forall i, j | 0 <= i < j < |claims'|
      ensures claims'[i].id != claims'[j].id
      ensures !(claims'[i].queueItemId == claims'[j].queueItemId && claims'[i].guestId == claims'[j].guestId)
    {
      assert claims'[i] in claims;
    }
  }

  lemma DeleteClaimStore(claims: seq<Claim>, issued: set<string>, clock: int, claimId: string)
    requires ClaimsOk(claims, issued, clock)
    ensures ClaimsOk(DeleteClaim(claims, claimId), issued, clock)
    ensures forall c :: c in DeleteClaim(claims, claimId) ==> c in claims
  {
    FilterKeepsDistinct(claims, OtherThan(claimId));
    FilterMembers(claims, OtherThan(claimId));
  }

  lemma NoClaimsYet(claims: seq<Claim>, issued: set<string>, clock: int, id: string)
    requires ClaimsOk(claims, issued, clock) && id !in issued
    ensures Singers(claims, id) == []
  {
    FilterNone(claims, OnItem(id));
  }

  // Replacing a row and broadcasting its new standing.

  lemma SetRowStore(w: World, row: Row, e: Event, now: int)
    requires StoreOk(w) && w.clock <= now && row.sessionId == w.sid
    requires row.id in w.items.at ==> w.items.at[row.id].sessionId == w.sid
    requires row.id !in w.items.at ==> row.id !in w.issued
    ensures StoreOk(SetRow(w, row, e, now).(issued := w.issued + {row.id}, clock := now))
  {
    PutRowStore(w.items, w.issued, row);
  }

  lemma DeleteRowStore(w: World, id: string, now: int)
    requires StoreOk(w) && w.clock <= now
    ensures StoreOk(DeleteRow(w, id, now).(clock := now))
  {
    RemoveRowStore(w.items, w.issued, id);
    CascadeStore(w, id);
  }

  /** What is left of the claims was there before, and other items keep their singers. */
  lemma CascadeStore(w: World, id: string)
    ensures forall c :: c in ClaimsWithoutItem(w, id) ==> c in w.claims
    ensures ClaimsDistinct(w.claims) ==> ClaimsDistinct(ClaimsWithoutItem(w, id))
    ensures forall k :: k != id ==> Singers(ClaimsWithoutItem(w, id), k) == Singers(w.claims, k)
  {
    if w.cascades {
      FilterMembers(w.claims, OffItem(id));
      if ClaimsDistinct(w.claims) {
        FilterKeepsDistinct(w.claims, OffItem(id));
      }
      forall k | k != id ensures Singers(ClaimsWithoutItem(w, id), k) == Singers(w.claims, k) {
        SingersAfterCascade(w.claims, id, k);
      }
    }
  }

  lemma ApprovedShows(w: World, row: Row, now: int)
    requires Agrees(w) && row.sessionId == w.sid && row.id in w.items.at && w.items.at[row.id].id == row.id
    requires w.items.at[row.id].sessionId == w.sid && IsActive(w.items.at[row.id].status)
    requires RowCore(row, w.claims) == RowCore(w.items.at[row.id], w.claims).(status := Approved)
    ensures Agrees(SetRow(w, row, ItemApproved(row.id), now))
  {
    var p, q := View(w.items.at, w.claims, w.sid, true), View(w.items.at, w.claims, w.sid, false);
    SidesAreDisjoint(w.items.at, w.claims, w.sid);
    ViewPut(w.items.at, w.claims, w.sid, true, row);
    ViewPut(w.items.at, w.claims, w.sid, false, row);
    AfterApproved(w.snap, row.id, p, q);
  }

  lemma RejectedShows(w: World, row: Row, now: int)
    requires Agrees(w) && row.sessionId == w.sid && row.status.Rejected?
    ensures Agrees(SetRow(w, row, ItemRejected(row.id), now))
  {
    var p, q := View(w.items.at, w.claims, w.sid, true), View(w.items.at, w.claims, w.sid, false);
    SidesAreDisjoint(w.items.at, w.claims, w.sid);
    ViewPut(w.items.at, w.claims, w.sid, true, row);
    ViewPut(w.items.at, w.claims, w.sid, false, row);
    AfterRejected(w.snap, row.id, p, q);
  }

  lemma VotedShows(w: World, item: Row, threshold: int, now: int)
    requires Agrees(w) && item.id in w.items.at && item == w.items.at[item.id] && item.sessionId == w.sid
    ensures Agrees(SetRow(w, Voted(item), SkipVoteUpdated(item.id, item.skipVotes + 1, threshold), now))
  {
    var p, q := View(w.items.at, w.claims, w.sid, true), View(w.items.at, w.claims, w.sid, false);
    var voted := Voted(item);
    assert RowCore(voted, w.claims) == RowCore(item, w.claims);
    SelfPut(w.items.at, w.claims, w.sid, true, voted);
    SelfPut(w.items.at, w.claims, w.sid, false, voted);
    AfterVote(w.snap, item.id, item.skipVotes + 1, threshold, p, q);
  }

  lemma SelfPut(items: map<string, Row>, claims: seq<Claim>, sid: string, pending: bool, r: Row)
    requires r.id in items && items[r.id].sessionId == r.sessionId && items[r.id].status == r.status
    requires RowCore(r, claims) == RowCore(items[r.id], claims)
    ensures View(items[r.id := r], claims, sid, pending) == View(items, claims, sid, pending)
  {
    ViewPut(items, claims, sid, pending, r);
  }

  lemma DeletedView(w: World, id: string, pending: bool)
    requires ItemsOk(w.items, w.issued)
    ensures View(w.items.at - {id}, ClaimsWithoutItem(w, id), w.sid, pending) ==
      View(w.items.at, w.claims, w.sid, pending) - {id}
  {
    CascadeStore(w, id);
    ViewClaims(w.items.at, w.claims, ClaimsWithoutItem(w, id), w.sid, pending, id);
    ViewRemove(w.items.at, ClaimsWithoutItem(w, id), w.sid, pending, id);
  }

  lemma DeletedShows(w: World, id: string, now: int)
    requires ItemsOk(w.items, w.issued) && Agrees(w)
    ensures Agrees(DeleteRow(w, id, now))
  {
    DeletedView(w, id, true);
    DeletedView(w, id, false);
    AfterRemoved(w.snap, id, View(w.items.at, w.claims, w.sid, true), View(w.items.at, w.claims, w.sid, false));
  }
}

/** The vote counts and decision times of the shown items. Events refresh neither in every case, so they
    agree with the stored rows less often than the rest of an item does: exactly how often is settled here. */
module FullAgreement {
  import opened Collections
  import opened QueueTypes
  import opened Snapshot
  import opened ItemIndex
  import opened Claims
  import opened LiveSession
  import opened Agreement
  import opened AgreementSteps
  import opened Hydration
  import opened LiveTheorems
  import opened Limits
  import Reconcile

  // ---------------------------------------------------------------- what the lists say

  /** What an entry says about the votes and the decision on its item. */
  datatype Fact = Fact(id: string, votes: nat, decidedAt: Option<int>)

  function FactOf(i: ItemSummary): Fact {
    Fact(i.id, i.skipVotes, i.decidedAtEpochMs)
  }

  function FactsIn(list: seq<ItemSummary>): set<Fact> {
    set i | i in list :: FactOf(i)
  }

  function Facts(s: Snapshot): set<Fact> {
    FactsIn(s.pending) + FactsIn(s.queue)
  }

  /** Every shown vote count is the row's. */
  ghost predicate CountsAgree(w: World) {
    forall f :: f in Facts(w.snap) ==> f.id in w.items.at && f.votes == w.items.at[f.id].skipVotes
  }

  /** Every shown decision time is the row's. */
  ghost predicate TimesAgree(w: World) {
    forall f :: f in Facts(w.snap) ==> f.id in w.items.at && f.decidedAt == w.items.at[f.id].decidedAt
  }

  /** The lists hold the right items, and every entry is its row's summary, no field left out. */
  ghost predicate FullyAgrees(w: World) {
    && Agrees(w)
    && forall i :: i in w.snap.pending || i in w.snap.queue ==>
         i.id in w.items.at && i == ToSummary(w.items.at[i.id], Singers(w.claims, i.id))
  }

  lemma EntryShowsRow(w: World, list: seq<ItemSummary>, pending: bool, i: ItemSummary)
    requires Lists(list, CoreOf, View(w.items.at, w.claims, w.sid, pending)) && i in list
    ensures i.id in w.items.at && OnSide(w.sid, pending)(w.items.at[i.id])
    ensures CoreOf(i) == RowCore(w.items.at[i.id], w.claims)
  {
    var k :| 0 <= k < |list| && list[k] == i;
    IndexAt(list, CoreOf, k);
  }

  lemma RowIsListed(w: World, list: seq<ItemSummary>, pending: bool, id: string)
    requires Lists(list, CoreOf, View(w.items.at, w.claims, w.sid, pending))
    requires id in w.items.at && OnSide(w.sid, pending)(w.items.at[id])
    ensures exists f :: f in FactsIn(list) && f.id == id
  {
    IndexKeys(list, CoreOf);
    assert id in View(w.items.at, w.claims, w.sid, pending);
    var k :| 0 <= k < |list| && list[k].id == id;
    assert FactOf(list[k]) in FactsIn(list);
  }

  /** The lists speak of the session's active rows, and of each of them. */
  lemma FactsAreOfActiveRows(w: World, f: Fact)
    requires Agrees(w) && f in Facts(w.snap)
    ensures f.id in w.items.at && ActiveIn(w.items.at[f.id], w.sid)
    ensures f in FactsIn(w.snap.pending) <==> w.items.at[f.id].status.Pending?
  {
    forall i | i in w.snap.pending ensures i.id in w.items.at && OnSide(w.sid, true)(w.items.at[i.id]) {
      EntryShowsRow(w, w.snap.pending, true, i);
    }
    forall i | i in w.snap.queue ensures i.id in w.items.at && OnSide(w.sid, false)(w.items.at[i.id]) {
      EntryShowsRow(w, w.snap.queue, false, i);
    }
  }

  lemma ActiveRowHasFact(w: World, id: string) returns (f: Fact)
    requires Agrees(w) && id in w.items.at && ActiveIn(w.items.at[id], w.sid)
    ensures f in Facts(w.snap) && f.id == id
  {
    if w.items.at[id].status.Pending? {
      RowIsListed(w, w.snap.pending, true, id);
    } else {
      RowIsListed(w, w.snap.queue, false, id);
    }
    f :| f in Facts(w.snap) && f.id == id;
  }

  lemma EntryIsSummary(w: World, list: seq<ItemSummary>, pending: bool, i: ItemSummary)
    requires Lists(list, CoreOf, View(w.items.at, w.claims, w.sid, pending)) && i in list
    requires ItemsOk(w.items, w.issued)
    ensures i.id in w.items.at
    ensures i == ToSummary(w.items.at[i.id], Singers(w.claims, i.id)) <==>
      i.skipVotes == w.items.at[i.id].skipVotes && i.decidedAtEpochMs == w.items.at[i.id].decidedAt
  {
    EntryShowsRow(w, list, pending, i);
    var row := w.items.at[i.id];
    assert row.id == i.id;
    assert CoreOf(i) == CoreOf(ToSummary(row, Singers(w.claims, i.id)));
    assert i == CoreOf(i).(skipVotes := i.skipVotes, decidedAtEpochMs := i.decidedAtEpochMs);
  }

  /** Complete agreement is agreement with right counts and times. */
  lemma FullyAgreesExact(w: World)
    requires StoreOk(w)
    ensures FullyAgrees(w) <==> Agrees(w) && CountsAgree(w) && TimesAgree(w)
  {
    if Agrees(w) {
      forall i | i in w.snap.pending || i in w.snap.queue
        ensures FactOf(i) in Facts(w.snap) && i.id in w.items.at
        ensures i == ToSummary(w.items.at[i.id], Singers(w.claims, i.id)) <==>
          i.skipVotes == w.items.at[i.id].skipVotes && i.decidedAtEpochMs == w.items.at[i.id].decidedAt
      {
        if i in w.snap.pending {
          EntryIsSummary(w, w.snap.pending, true, i);
        } else {
          EntryIsSummary(w, w.snap.queue, false, i);
        }
      }
      if FullyAgrees(w) {
        forall f | f in Facts(w.snap)
          ensures f.id in w.items.at && f == Fact(f.id, w.items.at[f.id].skipVotes, w.items.at[f.id].decidedAt)
        {
          var i :| (i in w.snap.pending || i in w.snap.queue) && FactOf(i) == f;
        }
      }
    }
  }

  // ---------------------------------------------------------------- what events do to it

  lemma SplitFacts(list: seq<ItemSummary>, k: nat)
    requires k < |list|
    ensures FactsIn(list) == FactsIn(RemoveAt(list, k)) + {FactOf(list[k])}
  {
    var rest := RemoveAt(list, k);
    forall i | i in list ensures i in rest || i == list[k] {
      var j :| 0 <= j < |list| && list[j] == i;
      assert j < k ==> rest[j] == i;
      assert j > k ==> rest[j - 1] == i;
    }
    assert forall i :: i in rest ==> i in list;
  }

  lemma AppendFacts(list: seq<ItemSummary>, x: ItemSummary)
    ensures FactsIn(list + [x]) == FactsIn(list) + {FactOf(x)}
  {
    assert forall i :: i in list + [x] <==> i in list || i == x;
  }

  lemma UpdateFacts(list: seq<ItemSummary>, k: nat, y: ItemSummary)
    requires k < |list| && FactOf(y) == FactOf(list[k])
    ensures FactsIn(list[k := y]) == FactsIn(list)
  {
    var after := list[k := y];
    forall i | i in after ensures FactOf(i) in FactsIn(list) {
      var j :| 0 <= j < |list| && after[j] == i;
      assert list[j] in list;
    }
    forall i | i in list ensures FactOf(i) in FactsIn(after) {
      var j :| 0 <= j < |list| && list[j] == i;
      assert after[j] in after;
    }
  }

  lemma RemoveIdFacts(list: seq<ItemSummary>, id: string)
    ensures FactsIn(RemoveId(list, id)) <= FactsIn(list)
  {
    FilterMembers(list, (i: ItemSummary) => i.id != id);
  }

  lemma UpdateItemFacts(s: Snapshot, id: string, edit: ClaimsEdit)
    ensures Facts(UpdateItemById(s, id, edit)) == Facts(s)
  {
    var k, j := FindIndex(s.pending, id), FindIndex(s.queue, id);
    if k >= 0 {
      UpdateFacts(s.pending, k, EditAt(s.pending, k, edit)[k]);
    } else if j >= 0 {
      UpdateFacts(s.queue, j, EditAt(s.queue, j, edit)[j]);
    }
  }

  lemma ApprovalFacts(s: Snapshot, id: string)
    ensures Facts(ApplyApproved(s, id)) == Facts(s)
  {
    var k, j := FindIndex(s.pending, id), FindIndex(s.queue, id);
    if k >= 0 {
      SplitFacts(s.pending, k);
      AppendFacts(s.queue, s.pending[k].(status := Approved));
    } else if j >= 0 {
      UpdateFacts(s.queue, j, s.queue[j].(status := Approved));
    }
  }

  lemma RejectionFacts(s: Snapshot, id: string)
    ensures Facts(ApplyRejected(s, id)) <= Facts(s)
  {
    var k, j := FindIndex(s.pending, id), FindIndex(s.queue, id);
    if k >= 0 {
      SplitFacts(s.pending, k);
    } else if j >= 0 {
      SplitFacts(s.queue, j);
    }
  }

  /** No event but a request or a vote makes the lists say anything new. */
  lemma EventFacts(s: Snapshot, e: Event, now: int)
    requires !e.ItemRequested? && !e.SkipVoteUpdated?
    ensures Facts(Published(s, e, now)) <= Facts(s)
  {
    match e
    case ItemApproved(id) => ApprovalFacts(s, id);
    case ItemRejected(id) => RejectionFacts(s, id);
    case ItemRemoved(id) =>
      RemoveIdFacts(s.pending, id);
      RemoveIdFacts(s.queue, id);
    case ClaimAdded(id, claim) => UpdateItemFacts(s, id, AddSinger(claim));
    case ClaimRemoved(id, guestId) => UpdateItemFacts(s, id, DropSinger(guestId));
    case Spotlight(id, claims) =>
      if id.Some? {
        UpdateItemFacts(s, id.value, SetSingers(claims));
      }
    case _ => OtherEventLists(s, e);
  }

  lemma OtherEventLists(s: Snapshot, e: Event)
    requires !e.ItemRequested? && !e.SkipVoteUpdated? && !e.ItemApproved? && !e.ItemRejected? && !e.ItemRemoved?
    requires !e.ClaimAdded? && !e.ClaimRemoved? && !e.Spotlight?
    ensures ApplyEvent(s, e).pending == s.pending && ApplyEvent(s, e).queue == s.queue
  {
  }

  lemma RequestedFacts(s: Snapshot, item: ItemSummary, now: int)
    ensures Facts(Published(s, ItemRequested(item), now)) == Facts(s) + {FactOf(item)}
  {
    AppendFacts(s.pending, item);
  }

  /** A vote's event touches the one entry of its item, and only in the queue list. */
  lemma VoteEventFacts(w: World, id: string, votes: nat, threshold: int, now: int, f: Fact)
    requires Agrees(w)
    requires f in Facts(Published(w.snap, SkipVoteUpdated(id, votes, threshold), now))
    ensures f.id != id ==> f in Facts(w.snap)
    ensures exists g :: g in Facts(w.snap) && g.id == f.id && g.decidedAt == f.decidedAt
    ensures f.id == id && id in w.items.at && !w.items.at[id].status.Pending? ==> f.votes == votes
    ensures f.id == id && id in w.items.at && w.items.at[id].status.Pending? ==> f in Facts(w.snap)
  {
    var s := w.snap;
    var s' := Published(s, SkipVoteUpdated(id, votes, threshold), now);
    var j := FindIndex(s.queue, id);
    if f in FactsIn(s.pending) {
      FactsAreOfActiveRows(w, f);
    } else {
      var i :| i in s'.queue && FactOf(i) == f;
      var k :| 0 <= k < |s.queue| && s'.queue[k] == i;
      assert FactOf(s.queue[k]) in FactsIn(s.queue);
      EntryShowsRow(w, s.queue, false, s.queue[k]);
      if f.id == id {
        assert k == j;
      }
    }
  }

  // ---------------------------------------------------------------- what steps do to it

  lemma DeleteRowFacts(w: World, id: string, now: int)
    ensures Facts(DeleteRow(w, id, now).snap) <= Facts(w.snap)
  {
    EventFacts(w.snap, ItemRemoved(id), now);
  }

  lemma InsertFacts(w: World, row: Row, name: Option<string>, env: RequestEnv)
    ensures Facts(InsertRequest(w, row, name, env).snap) <= Facts(w.snap) + {Fact(row.id, row.skipVotes, row.decidedAt)}
  {
    var item := ToSummary(row, RequestSingers(w, row, name));
    RequestedFacts(w.snap, item, env.now);
    if name.Some? {
      EventFacts(Published(w.snap, ItemRequested(item), env.now),
                 ClaimAdded(row.id, ClaimSummary(row.guestId, name.value)), env.now);
    }
  }

  lemma PlaceFacts(w: World, row: Row, name: Option<string>, env: RequestEnv)
    ensures Facts(PlaceRequest(w, row, name, env).0.snap) <=
      Facts(w.snap) + {Fact(row.id, row.skipVotes, row.decidedAt)}
  {
    var w1, placed := InsertRequest(w, row, name, env), PlaceRequest(w, row, name, env).0;
    var w2 := Publish(w1, ItemApproved(row.id), env.now);
    InsertFacts(w, row, name, env);
    EventFacts(w1.snap, ItemApproved(row.id), env.now);
    DeleteRowFacts(w2, row.id, env.now);
    assert placed == w1 || placed == w2 || placed == DeleteRow(w2, row.id, env.now);
  }

  lemma RequestFacts(w: World, token: string, track: Track, karaoke: Option<string>, env: RequestEnv)
    ensures Facts(RequestTrack(w, token, track, karaoke, env).0.snap) <= Facts(w.snap) + {Fact(env.itemId, 0, None)}
  {
    var admitted := AdmitRequest(w, token, track, karaoke, env);
    if admitted.Ok? {
      var (session, guestId, name) := admitted.value;
      PlaceFacts(w, NewRow(w.sid, session, guestId, track, env), name, env);
    }
  }

  lemma ModerateFacts(w: World, itemId: string, approve: bool, now: int, until: Option<int>)
    ensures Facts(Moderate(w, itemId, approve, now, until).0.snap) <= Facts(w.snap)
  {
    EventFacts(w.snap, ItemApproved(itemId), now);
    EventFacts(w.snap, ItemRejected(itemId), now);
  }

  lemma RemoveOwnFacts(w: World, itemId: string, token: string, now: int)
    ensures Facts(RemoveOwn(w, itemId, token, now).0.snap) <= Facts(w.snap)
  {
    DeleteRowFacts(w, itemId, now);
    var w' := RemoveOwn(w, itemId, token, now).0;
    assert w' == w || w' == DeleteRow(w, itemId, now);
  }

  lemma ClaimFacts(w: World, c: Command, now: int)
    requires c.CClaim? || c.CRemoveClaim? || c.CHostRemoveClaim?
    ensures Facts(Step(w, c, now).snap) <= Facts(w.snap)
  {
    var s' := Step(w, c, now).snap;
    forall id, claim ensures Facts(Published(w.snap, ClaimAdded(id, claim), now)) <= Facts(w.snap) {
      EventFacts(w.snap, ClaimAdded(id, claim), now);
    }
    forall id, guestId ensures Facts(Published(w.snap, ClaimRemoved(id, guestId), now)) <= Facts(w.snap) {
      EventFacts(w.snap, ClaimRemoved(id, guestId), now);
    }
  }

  lemma SpotlightFacts(w: World, target: Option<string>, now: int)
    ensures Facts(SetSpotlight(w, target, now).snap) <= Facts(w.snap)
  {
    EventFacts(w.snap, Spotlight(target, if target.None? then [] else Singers(w.claims, target.value)), now);
  }

  lemma TrackChangeFacts(w: World, uri: Option<string>, now: int)
    ensures Facts(HandleTrackChange(w, uri, now).snap) <= Facts(w.snap)
  {
    var move := TrackChangeMove(w, uri, now);
    if move.MoveTo? {
      SpotlightFacts(w, move.target, now);
      if move.holdUntil.Some? {
        EventFacts(SetSpotlight(w, move.target, now).snap, KaraokePaused(move.target.value, move.holdUntil.value), now);
      }
    }
  }

  /** The lists of an agreeing room are complete, so hydration leaves them alone. */
  lemma HydrateStands(w: World)
    requires StoreOk(w) && Agrees(w)
    ensures Hydrate(w) == w
  {
    var rows := SessionRows(w.items, w.sid);
    SessionRowsOk(w.items, w.issued, w.sid);
    SeenAreShown(w.snap);
    forall r | r in rows && IsActive(r.status) ensures r.id in SeenIds(w.snap) {
      assert OnSide(w.sid, true)(r) || OnSide(w.sid, false)(r);
      assert r.id in View(w.items.at, w.claims, w.sid, true) || r.id in View(w.items.at, w.claims, w.sid, false);
    }
    HydrateListsIdle(rows, SeenIds(w.snap), SessionClaims(w.claims, w.sid), w.snap.pending, w.snap.queue);
  }

  lemma HoldFacts(w: World, itemId: string, until: int, now: int)
    ensures Facts(SetPaused(w, itemId, until, now).snap) == Facts(w.snap)
    ensures Facts(ClearPause(w, now).snap) == Facts(w.snap)
  {
  }

  lemma PauseFacts(w: World, token: string, now: int)
    ensures Facts(Pause(w, token, now).0.snap) == Facts(w.snap)
  {
    var claimer, paused := SpotlightClaimer(w, token), Pause(w, token, now).0;
    if claimer.Ok? {
      var (session, itemId) := claimer.value;
      var until := now + session.karaokePauseTimeoutSec * 1000;
      assert paused == w || paused == SetPaused(w, itemId, until, now);
      HoldFacts(w, itemId, until, now);
    } else {
      assert paused == w;
    }
  }

  lemma ResumeFacts(w: World, token: string, isPlaying: bool, now: int)
    ensures Facts(Ready(w, token, now).0.snap) == Facts(w.snap)
    ensures Facts(ReconcilePlayback(w, isPlaying, now).snap) == Facts(w.snap)
  {
    var w', w'' := Ready(w, token, now).0, ReconcilePlayback(w, isPlaying, now);
    HoldFacts(w, "", 0, now);
    assert w' == w || w' == ClearPause(w, now);
    assert w'' == w || w'' == ClearPause(w, now);
  }

  /** No step but a request or a vote makes the lists say anything new, and a request only its own row. */
  lemma StepFacts(w: World, c: Command, now: int)
    requires Inv(w) && Plausible(w, c, now) && !c.CVote?
    ensures Facts(Step(w, c, now).snap) <= Facts(w.snap) + if c.CRequest? then {Fact(c.env.itemId, 0, None)} else {}
  {
    match c
    case CRequest(token, track, karaoke, env) => RequestFacts(w, token, track, karaoke, env.(now := now));
    case CModerate(itemId, approve, until) => ModerateFacts(w, itemId, approve, now, until);
    case CRemoveOwn(itemId, token) => RemoveOwnFacts(w, itemId, token, now);
    case CTrackChange(uri) => TrackChangeFacts(w, uri, now);
    case CHydrate => HydrateStands(w);
    case COtherEvent(e) => EventFacts(w.snap, e, now);
    case CPoll(view, skipWorked) => PollStep(w, view, skipWorked, now);
    case CDirectory(_) =>
    case CPause(token) => PauseFacts(w, token, now);
    case CReady(token) => ResumeFacts(w, token, true, now);
    case CReconcilePlayback(isPlaying) => ResumeFacts(w, "", isPlaying, now);
    case _ => ClaimFacts(w, c, now);
  }

  // ---------------------------------------------------------------- what steps do to the rows

  /** The vote and decision a row stands for. */
  function RowFact(r: Row): Fact {
    Fact(r.id, r.skipVotes, r.decidedAt)
  }

  lemma SilentPassRowFact(w: World, v: Reconcile.View, skipWorked: bool, id: string)
    requires ItemsOk(w.items, w.issued) && !FindsOverdue(w, v) && id in w.items.at
    requires ActiveIn(PassStore(w, v, skipWorked).at[id], w.sid)
    ensures PassStore(w, v, skipWorked).at[id] == w.items.at[id]
  {
    SilentPassRow(w, v, skipWorked, true, id);
    SilentPassRow(w, v, skipWorked, false, id);
    var after := PassStore(w, v, skipWorked).at[id];
    assert OnSide(w.sid, true)(after) || OnSide(w.sid, false)(after);
  }

  /** But for votes and decisions, a row the room still shows keeps its count and time. */
  lemma StepRowFact(w: World, c: Command, now: int, id: string)
    requires StoreOk(w) && Plausible(w, c, now) && !Missed(w, c, now) && !c.CVote? && !c.CModerate?
    requires id in w.items.at && id in Step(w, c, now).items.at && ActiveIn(Step(w, c, now).items.at[id], w.sid)
    ensures Step(w, c, now).items.at[id] == w.items.at[id]
  {
    match c
    case CRequest(token, track, karaoke, env) =>
      assert Step(w, c, now).items == RequestTrack(w, token, track, karaoke, env.(now := now)).0.items;
      RequestItems(w, token, track, karaoke, env.(now := now));
    case CRemoveOwn(itemId, token) =>
      assert Step(w, c, now).items == RemoveOwn(w, itemId, token, now).0.items;
    case CPoll(view, skipWorked) =>
      PollStep(w, view, skipWorked, now);
      SilentPassRowFact(w, view.(now := now), skipWorked, id);
    case _ => OtherStepItems(w, c, now);
  }

  lemma NewRowFact(w: World, c: Command, now: int)
    requires StoreOk(w) && Plausible(w, c, now) && c.CRequest?
    requires c.env.itemId in Step(w, c, now).items.at
    ensures RowFact(Step(w, c, now).items.at[c.env.itemId]) == Fact(c.env.itemId, 0, None)
  {
    assert Step(w, c, now).items == RequestTrack(w, c.token, c.track, c.karaoke, c.env.(now := now)).0.items;
    RequestItems(w, c.token, c.track, c.karaoke, c.env.(now := now));
  }

  /** Steps other than votes and decisions leave every shown count and time right. */
  lemma QuietStepFacts(w: World, c: Command, now: int, f: Fact)
    requires Inv(w) && Plausible(w, c, now) && !Missed(w, c, now) && !c.CVote? && !c.CModerate?
    requires f in Facts(Step(w, c, now).snap)
    ensures f.id in Step(w, c, now).items.at
    ensures CountsAgree(w) ==> f.votes == Step(w, c, now).items.at[f.id].skipVotes
    ensures TimesAgree(w) ==> f.decidedAt == Step(w, c, now).items.at[f.id].decidedAt
  {
    StepKeepsInv(w, c, now);
    StepKeepsDirectory(w, c, now);
    StepFacts(w, c, now);
    FactsAreOfActiveRows(Step(w, c, now), f);
    if f in Facts(w.snap) {
      FactsAreOfActiveRows(w, f);
      StepRowFact(w, c, now, f.id);
    } else {
      NewRowFact(w, c, now);
    }
  }

  // ---------------------------------------------------------------- votes

  /** A vote that is admitted on a pending item and does not reject it at once: the event looks for the
      item in the queue list only. */
  predicate CountLost(w: World, c: Command) {
    && c.CVote? && AdmitVote(w, c.itemId, c.token).Ok? && c.itemId in w.items.at && w.dir.session.Some?
    && w.items.at[c.itemId].status.Pending?
    && !AutoRejects(w.dir.session.value, w.items.at[c.itemId].skipVotes + 1)
  }

  lemma RecordVoteFacts(w: World, session: Session, guestId: string, item: Row, now: int, f: Fact)
    requires f in Facts(RecordVote(w, session, guestId, item, now).snap)
    ensures f in Facts(Published(w.snap, SkipVoteUpdated(item.id, item.skipVotes + 1, session.voteSkipThreshold), now))
  {
    var s1, s' := Published(w.snap, SkipVoteUpdated(item.id, item.skipVotes + 1, session.voteSkipThreshold), now),
                  RecordVote(w, session, guestId, item, now).snap;
    assert s' == s1 || s' == Published(s1, ItemRejected(item.id), now);
    EventFacts(s1, ItemRejected(item.id), now);
  }

  /** After a vote everything shown is as before, but for the count of a queued item that took the vote. */
  lemma VotedFacts(w: World, session: Session, guestId: string, item: Row, now: int, f: Fact)
    requires Inv(w) && w.clock <= now && f in Facts(RecordVote(w, session, guestId, item, now).snap)
    requires item.id in w.items.at && w.items.at[item.id] == item && item.sessionId == w.sid
    ensures var w' := RecordVote(w, session, guestId, item, now);
      && f.id in w'.items.at
      && (f.id == item.id ==> !AutoRejects(session, item.skipVotes + 1))
      && (TimesAgree(w) ==> f.decidedAt == w'.items.at[f.id].decidedAt)
      && (CountsAgree(w) && !(f.id == item.id && item.status.Pending?) ==> f.votes == w'.items.at[f.id].skipVotes)
      && (CountsAgree(w) && f.id == item.id && item.status.Pending? ==> f.votes != w'.items.at[f.id].skipVotes)
  {
    var w' := RecordVote(w, session, guestId, item, now);
    RecordVoteKeepsInv(w, session, guestId, item, now);
    VotedItems(w, session, guestId, item, now);
    FactsAreOfActiveRows(w'.(clock := now), f);
    RecordVoteFacts(w, session, guestId, item, now, f);
    VoteEventFacts(w, item.id, item.skipVotes + 1, session.voteSkipThreshold, now, f);
    var g :| g in Facts(w.snap) && g.id == f.id && g.decidedAt == f.decidedAt;
    FactsAreOfActiveRows(w, g);
  }

  lemma VotedCounts(w: World, session: Session, guestId: string, item: Row, now: int)
    requires Inv(w) && w.clock <= now && CountsAgree(w)
    requires item.id in w.items.at && w.items.at[item.id] == item && item.sessionId == w.sid
    ensures CountsAgree(RecordVote(w, session, guestId, item, now)) <==>
      !(item.status.Pending? && !AutoRejects(session, item.skipVotes + 1))
  {
    var w' := RecordVote(w, session, guestId, item, now);
    forall f | f in Facts(w'.snap)
      ensures f.id in w'.items.at
      ensures f.id == item.id ==> !AutoRejects(session, item.skipVotes + 1)
      ensures f.votes == w'.items.at[f.id].skipVotes <==> !(f.id == item.id && item.status.Pending?)
    {
      VotedFacts(w, session, guestId, item, now, f);
    }
    if item.status.Pending? && !AutoRejects(session, item.skipVotes + 1) {
      RecordVoteKeepsInv(w, session, guestId, item, now);
      VotedItems(w, session, guestId, item, now);
      var f := ActiveRowHasFact(w'.(clock := now), item.id);
      assert f in Facts(w'.snap);
    }
  }

  lemma VotedTimes(w: World, session: Session, guestId: string, item: Row, now: int)
    requires Inv(w) && w.clock <= now && TimesAgree(w)
    requires item.id in w.items.at && w.items.at[item.id] == item && item.sessionId == w.sid
    ensures TimesAgree(RecordVote(w, session, guestId, item, now))
  {
    forall f | f in Facts(RecordVote(w, session, guestId, item, now).snap)
      ensures f.id in RecordVote(w, session, guestId, item, now).items.at
      ensures f.decidedAt == RecordVote(w, session, guestId, item, now).items.at[f.id].decidedAt
    {
      VotedFacts(w, session, guestId, item, now, f);
    }
  }

  lemma VoteStepExact(w: World, itemId: string, token: string, now: int)
    requires Inv(w) && w.clock <= now
    ensures var w' := CastSkipVote(w, itemId, token, now).0;
      && (CountsAgree(w) ==> (CountsAgree(w') <==> !CountLost(w, CVote(itemId, token))))
      && (TimesAgree(w) ==> TimesAgree(w'))
  {
    var admitted := AdmitVote(w, itemId, token);
    if admitted.Ok? {
      var (session, guestId, item) := admitted.value;
      assert CastSkipVote(w, itemId, token, now).0 == RecordVote(w, session, guestId, item, now);
      if CountsAgree(w) {
        VotedCounts(w, session, guestId, item, now);
      }
      if TimesAgree(w) {
        VotedTimes(w, session, guestId, item, now);
      }
    }
  }

  // ---------------------------------------------------------------- decisions

  /** An approval of a shown item that goes through and is not the repetition of one made at the same
      instant: the event carries no time. */
  predicate TimeLost(w: World, c: Command, now: int) {
    && c.CModerate? && c.approve && !ApprovalLimited(w, c.limitedUntil)
    && c.itemId in w.items.at && ActiveIn(w.items.at[c.itemId], w.sid)
    && w.items.at[c.itemId].decidedAt != Some(now)
  }

  lemma DecidedRow(w: World, itemId: string, approve: bool, now: int, until: Option<int>, id: string)
    requires ItemsOk(w.items, w.issued) && id in w.items.at && w.items.at[id].sessionId == w.sid
    ensures var w' := Moderate(w, itemId, approve, now, until).0;
      && id in w'.items.at && w'.items.at[id].skipVotes == w.items.at[id].skipVotes
      && (id == itemId && !approve ==> w'.items.at[id].status.Rejected?)
      && (id != itemId ==> w'.items.at[id].decidedAt == w.items.at[id].decidedAt)
      && (id == itemId && approve ==>
            w'.items.at[id].decidedAt == if ApprovalLimited(w, until) then w.items.at[id].decidedAt else Some(now))
  {
  }

  lemma DecidedAgrees(w: World, itemId: string, approve: bool, now: int, until: Option<int>)
    requires Inv(w) && w.clock <= now && !Missed(w, CModerate(itemId, approve, until), now)
    ensures Agrees(Moderate(w, itemId, approve, now, until).0)
  {
    ModerateExact(w, itemId, approve, now, until);
  }

  /** After a decision everything shown is as before; the decided row itself is shown only if approved. */
  lemma DecidedFacts(w: World, itemId: string, approve: bool, now: int, until: Option<int>, f: Fact)
    requires Inv(w) && w.clock <= now && !Missed(w, CModerate(itemId, approve, until), now)
    requires f in Facts(Moderate(w, itemId, approve, now, until).0.snap)
    ensures var w' := Moderate(w, itemId, approve, now, until).0;
      && f in Facts(w.snap) && f.id in w.items.at && f.id in w'.items.at
      && w'.items.at[f.id].skipVotes == w.items.at[f.id].skipVotes
      && w'.items.at[f.id].decidedAt ==
           if f.id == itemId && approve && !ApprovalLimited(w, until) then Some(now) else w.items.at[f.id].decidedAt
  {
    var c, w' := CModerate(itemId, approve, until), Moderate(w, itemId, approve, now, until).0;
    ModerateFacts(w, itemId, approve, now, until);
    FactsAreOfActiveRows(w, f);
    DecidedRow(w, itemId, approve, now, until, f.id);
    DecidedAgrees(w, itemId, approve, now, until);
    FactsAreOfActiveRows(w', f);
  }

  lemma ApprovedStaysActive(w: World, itemId: string, now: int, until: Option<int>)
    requires ItemsOk(w.items, w.issued) && itemId in w.items.at && ActiveIn(w.items.at[itemId], w.sid)
    ensures var w' := Moderate(w, itemId, true, now, until).0;
      itemId in w'.items.at && ActiveIn(w'.items.at[itemId], w'.sid)
  {
  }

  lemma ModerateStepExact(w: World, itemId: string, approve: bool, now: int, until: Option<int>)
    requires Inv(w) && w.clock <= now && !Missed(w, CModerate(itemId, approve, until), now)
    ensures var w' := Moderate(w, itemId, approve, now, until).0;
      && (CountsAgree(w) ==> CountsAgree(w'))
      && (TimesAgree(w) ==> (TimesAgree(w') <==> !TimeLost(w, CModerate(itemId, approve, until), now)))
  {
    var c, w' := CModerate(itemId, approve, until), Moderate(w, itemId, approve, now, until).0;
    forall f | f in Facts(w'.snap)
      ensures f in Facts(w.snap) && f.id in w.items.at && f.id in w'.items.at
      ensures w'.items.at[f.id].skipVotes == w.items.at[f.id].skipVotes
      ensures w'.items.at[f.id].decidedAt ==
        if f.id == itemId && approve && !ApprovalLimited(w, until) then Some(now) else w.items.at[f.id].decidedAt
    {
      DecidedFacts(w, itemId, approve, now, until, f);
    }
    if TimeLost(w, c, now) {
      DecidedAgrees(w, itemId, approve, now, until);
      ApprovedStaysActive(w, itemId, now, until);
      var f := ActiveRowHasFact(w', itemId);
    } else if TimesAgree(w) {
      forall f | f in Facts(w'.snap) ensures f.decidedAt == w'.items.at[f.id].decidedAt {
        FactsAreOfActiveRows(w, f);
      }
    }
  }

  // ---------------------------------------------------------------- the exact conditions

  lemma QuietStep(w: World, c: Command, now: int)
    requires Inv(w) && Plausible(w, c, now) && !Missed(w, c, now) && !c.CVote? && !c.CModerate?
    ensures CountsAgree(w) ==> CountsAgree(Step(w, c, now))
    ensures TimesAgree(w) ==> TimesAgree(Step(w, c, now))
  {
    forall f | f in Facts(Step(w, c, now).snap)
      ensures f.id in Step(w, c, now).items.at
      ensures CountsAgree(w) ==> f.votes == Step(w, c, now).items.at[f.id].skipVotes
      ensures TimesAgree(w) ==> f.decidedAt == Step(w, c, now).items.at[f.id].decidedAt
    {
      QuietStepFacts(w, c, now, f);
    }
  }

  /** Of the steps that are not missed, one alone makes a shown vote count wrong: an admitted vote on a
      pending item that does not reject it at once. */
  lemma CountsExact(w: World, c: Command, now: int)
    requires Inv(w) && CountsAgree(w) && Plausible(w, c, now) && !Missed(w, c, now)
    ensures CountsAgree(Step(w, c, now)) <==> !CountLost(w, c)
  {
    match c
    case CVote(itemId, token) => VoteStepExact(w, itemId, token, now);
    case CModerate(itemId, approve, until) => ModerateStepExact(w, itemId, approve, now, until);
    case _ => QuietStep(w, c, now);
  }

  /** ... and one alone a shown decision time: an approval of a shown item. */
  lemma TimesExact(w: World, c: Command, now: int)
    requires Inv(w) && TimesAgree(w) && Plausible(w, c, now) && !Missed(w, c, now)
    ensures TimesAgree(Step(w, c, now)) <==> !TimeLost(w, c, now)
  {
    match c
    case CVote(itemId, token) => VoteStepExact(w, itemId, token, now);
    case CModerate(itemId, approve, until) => ModerateStepExact(w, itemId, approve, now, until);
    case _ => QuietStep(w, c, now);
  }

  /** The steps that leave an entry other than its row's summary, or an item listed wrongly. */
  ghost predicate Lost(w: World, c: Command, now: int) {
    Missed(w, c, now) || CountLost(w, c) || TimeLost(w, c, now)
  }

  /** From complete agreement, field by field, a step keeps it if and only if it is none of those. */
  lemma StepFullyExact(w: World, c: Command, now: int)
    requires Inv(w) && FullyAgrees(w) && Plausible(w, c, now)
    ensures Inv(Step(w, c, now)) && FullyAgrees(Step(w, c, now)) <==> !Lost(w, c, now)
  {
    StepExact(w, c, now);
    if !Missed(w, c, now) {
      FullyAgreesExact(w);
      FullyAgreesExact(Step(w, c, now));
      CountsExact(w, c, now);
      TimesExact(w, c, now);
    }
  }

  ghost predicate NothingLost(w: World, run: seq<Timed>) {
    run == [] ||
    (NothingLost(w, Init(run)) && !Lost(RunFrom(w, Init(run)), Last(run).c, Last(run).now))
  }

  /** Over every run without such a step each entry of the room is its row's summary, counts and times
      included. */
  lemma {:induction false} RunFullyAgrees(w: World, run: seq<Timed>)
    requires Inv(w) && FullyAgrees(w) && PlausibleRun(w, run) && NothingLost(w, run)
    ensures Inv(RunFrom(w, run)) && FullyAgrees(RunFrom(w, run))
  {
    if run != [] {
      RunFullyAgrees(w, Init(run));
      StepFullyExact(RunFrom(w, Init(run)), Last(run).c, Last(run).now);
    }
  }
}

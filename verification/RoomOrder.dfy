/** What holds of the room over every run, steps that miss it included: its lists stay in order, and its
    karaoke slice stays the service's. */
module RoomOrder {
  import opened Collections
  import opened QueueTypes
  import opened Snapshot
  import opened ItemIndex
  import opened Claims
  import opened LiveSession
  import opened Agreement
  import opened AgreementSteps
  import opened Hydration
  import opened LiveTheorems
  import opened Limits

  function Ids(list: seq<ItemSummary>): set<string> {
    set i | i in list :: i.id
  }

  /** No id is listed twice, none in both lists, and every listed one is of `known`. */
  ghost predicate Tidy(s: Snapshot, known: set<string>) {
    && DistinctIds(s.pending) && DistinctIds(s.queue)
    && Ids(s.pending) !! Ids(s.queue) && Ids(s.pending) <= known && Ids(s.queue) <= known
  }

  /** The same seen through what the lists hold. */
  ghost predicate Holds(s: Snapshot, p: map<string, ItemSummary>, q: map<string, ItemSummary>, known: set<string>) {
    Shows(s, p, q) && p.Keys !! q.Keys && p.Keys <= known && q.Keys <= known
  }

  lemma IndexIds(list: seq<ItemSummary>)
    ensures Index(list, CoreOf).Keys == Ids(list)
  {
    IndexKeys(list, CoreOf);
  }

  lemma TidyHolds(s: Snapshot, known: set<string>)
    requires Tidy(s, known)
    ensures Holds(s, Index(s.pending, CoreOf), Index(s.queue, CoreOf), known)
  {
    IndexIds(s.pending);
    IndexIds(s.queue);
  }

  lemma HoldsTidy(s: Snapshot, p: map<string, ItemSummary>, q: map<string, ItemSummary>, known: set<string>)
    requires Holds(s, p, q, known)
    ensures Tidy(s, known)
  {
    IndexIds(s.pending);
    IndexIds(s.queue);
  }

  // ---------------------------------------------------------------- events

  lemma ItemEventTidy(s: Snapshot, e: Event, known: set<string>)
    requires Tidy(s, known) && (e.ItemApproved? || e.ItemRejected? || e.ItemRemoved? || e.SkipVoteUpdated?)
    ensures Tidy(ApplyEvent(s, e), known)
  {
    var p, q := Index(s.pending, CoreOf), Index(s.queue, CoreOf);
    TidyHolds(s, known);
    match e
    case ItemApproved(id) =>
      AfterApproved(s, id, p, q);
      HoldsTidy(ApplyEvent(s, e), p - {id},
                if id in p then q[id := p[id].(status := Approved)]
                else if id in q then q[id := q[id].(status := Approved)] else q, known);
    case ItemRejected(id) =>
      AfterRejected(s, id, p, q);
      HoldsTidy(ApplyEvent(s, e), p - {id}, q - {id}, known);
    case ItemRemoved(id) =>
      AfterRemoved(s, id, p, q);
      HoldsTidy(ApplyEvent(s, e), p - {id}, q - {id}, known);
    case SkipVoteUpdated(id, votes, threshold) =>
      AfterVote(s, id, votes, threshold, p, q);
      HoldsTidy(ApplyEvent(s, e), p, q, known);
  }

  lemma EditTidy(s: Snapshot, id: string, edit: ClaimsEdit, known: set<string>)
    requires Tidy(s, known)
    ensures Tidy(UpdateItemById(s, id, edit), known)
  {
    var p, q := Index(s.pending, CoreOf), Index(s.queue, CoreOf);
    TidyHolds(s, known);
    AfterClaimsEdit(s, id, edit, p, q);
    HoldsTidy(UpdateItemById(s, id, edit), EditEntry(p, id, edit), EditEntry(q, id, edit), known);
  }

  lemma RequestedTidy(s: Snapshot, item: ItemSummary, known: set<string>)
    requires Tidy(s, known) && item.id !in known
    ensures Tidy(ApplyEvent(s, ItemRequested(item)), known + {item.id})
  {
    var p, q := Index(s.pending, CoreOf), Index(s.queue, CoreOf);
    TidyHolds(s, known);
    AfterRequested(s, item, p, q);
    HoldsTidy(ApplyEvent(s, ItemRequested(item)), p[item.id := CoreOf(item)], q, known + {item.id});
  }

  lemma StampTidy(s: Snapshot, now: int, known: set<string>, more: set<string>)
    requires Tidy(s, known) && known <= more
    ensures Tidy(s.(snapshotAtEpochMs := now), more)
  {
  }

  /** No event but a request brings an id into the lists. */
  lemma EventTidy(s: Snapshot, e: Event, now: int, known: set<string>)
    requires Tidy(s, known) && !e.ItemRequested?
    ensures Tidy(Published(s, e, now), known)
  {
    match e
    case ItemApproved(_) => ItemEventTidy(s, e, known);
    case ItemRejected(_) => ItemEventTidy(s, e, known);
    case ItemRemoved(_) => ItemEventTidy(s, e, known);
    case SkipVoteUpdated(_, _, _) => ItemEventTidy(s, e, known);
    case ClaimAdded(id, claim) => EditTidy(s, id, AddSinger(claim), known);
    case ClaimRemoved(id, guestId) => EditTidy(s, id, DropSinger(guestId), known);
    case Spotlight(id, claims) =>
      if id.Some? {
        EditTidy(s, id.value, SetSingers(claims), known);
      }
    case _ =>
  }

  // ---------------------------------------------------------------- steps

  ghost predicate TidyRoom(w: World) {
    Tidy(w.snap, w.issued)
  }

  lemma PublishTidy(w: World, e: Event, now: int)
    requires TidyRoom(w) && !e.ItemRequested?
    ensures TidyRoom(Publish(w, e, now))
  {
    EventTidy(w.snap, e, now, w.issued);
  }

  lemma DeleteRowTidy(w: World, id: string, now: int)
    requires TidyRoom(w)
    ensures TidyRoom(DeleteRow(w, id, now))
  {
    EventTidy(w.snap, ItemRemoved(id), now, w.issued);
  }

  lemma SetRowTidy(w: World, row: Row, e: Event, now: int)
    requires TidyRoom(w) && !e.ItemRequested?
    ensures TidyRoom(SetRow(w, row, e, now))
  {
    EventTidy(w.snap, e, now, w.issued);
  }

  lemma AddClaimTidy(w: World, c: Claim)
    requires TidyRoom(w)
    ensures TidyRoom(AddClaim(w, c))
  {
    EventTidy(w.snap, ClaimAdded(c.queueItemId, ClaimSummary(c.guestId, c.displayName)), c.createdAt, w.issued);
    StampTidy(AddClaim(w, c).snap, c.createdAt, w.issued, w.issued + {c.id});
  }

  lemma InsertTidy(w: World, row: Row, name: Option<string>, env: RequestEnv)
    requires TidyRoom(w) && row.id == env.itemId && env.itemId !in w.issued
    ensures TidyRoom(InsertRequest(w, row, name, env))
  {
    var item := ToSummary(row, RequestSingers(w, row, name));
    var w1 := SetRow(w.(issued := w.issued + {env.itemId}), row, ItemRequested(item), env.now);
    RequestedTidy(w.snap, item, w.issued);
    StampTidy(ApplyEvent(w.snap, ItemRequested(item)), env.now, w.issued + {item.id}, w.issued + {item.id});
    assert TidyRoom(w1);
    if name.Some? {
      AddClaimTidy(w1, Claim(env.claimId, w.sid, row.id, row.guestId, name.value, env.now));
    }
  }

  lemma PlaceTidy(w: World, row: Row, name: Option<string>, env: RequestEnv)
    requires TidyRoom(w) && row.id == env.itemId && env.itemId !in w.issued
    ensures TidyRoom(PlaceRequest(w, row, name, env).0)
  {
    var w1, placed := InsertRequest(w, row, name, env), PlaceRequest(w, row, name, env).0;
    var w2 := Publish(w1, ItemApproved(row.id), env.now);
    InsertTidy(w, row, name, env);
    PublishTidy(w1, ItemApproved(row.id), env.now);
    DeleteRowTidy(w2, row.id, env.now);
    assert placed == w1 || placed == w2 || placed == DeleteRow(w2, row.id, env.now);
  }

  lemma RequestTidy(w: World, token: string, track: Track, karaoke: Option<string>, env: RequestEnv)
    requires TidyRoom(w) && env.itemId !in w.issued
    ensures TidyRoom(RequestTrack(w, token, track, karaoke, env).0)
  {
    var admitted := AdmitRequest(w, token, track, karaoke, env);
    if admitted.Ok? {
      var (session, guestId, name) := admitted.value;
      PlaceTidy(w, NewRow(w.sid, session, guestId, track, env), name, env);
    }
  }

  lemma ModerateTidy(w: World, itemId: string, approve: bool, now: int, until: Option<int>)
    requires TidyRoom(w)
    ensures TidyRoom(Moderate(w, itemId, approve, now, until).0)
  {
    if Moderate(w, itemId, approve, now, until).1.Ok? {
      var row := Decided(w.items.at[itemId], if approve then Approved else Rejected, now);
      SetRowTidy(w, row, if approve then ItemApproved(itemId) else ItemRejected(itemId), now);
    }
  }

  lemma RemoveOwnTidy(w: World, itemId: string, token: string, now: int)
    requires TidyRoom(w)
    ensures TidyRoom(RemoveOwn(w, itemId, token, now).0)
  {
    var w' := RemoveOwn(w, itemId, token, now).0;
    DeleteRowTidy(w, itemId, now);
    assert w' == w || w' == DeleteRow(w, itemId, now);
  }

  lemma VoteTidy(w: World, itemId: string, token: string, now: int)
    requires TidyRoom(w)
    ensures TidyRoom(CastSkipVote(w, itemId, token, now).0)
  {
    var admitted := AdmitVote(w, itemId, token);
    if admitted.Ok? {
      RecordVoteTidy(w, admitted.value.0, admitted.value.1, admitted.value.2, now);
    }
  }

  lemma RecordVoteTidy(w: World, session: Session, guestId: string, item: Row, now: int)
    requires TidyRoom(w)
    ensures TidyRoom(RecordVote(w, session, guestId, item, now))
  {
    var voted, w0 := Voted(item), w.(votes := w.votes + {(item.id, guestId)});
    var w1 := SetRow(w0, voted, SkipVoteUpdated(item.id, voted.skipVotes, session.voteSkipThreshold), now);
    assert TidyRoom(w0);
    SetRowTidy(w0, voted, SkipVoteUpdated(item.id, voted.skipVotes, session.voteSkipThreshold), now);
    SetRowTidy(w1, Decided(voted, Rejected, now), ItemRejected(item.id), now);
  }

  lemma ClaimMicTidy(w: World, token: string, itemId: string, rawName: string, now: int, claimId: string)
    requires TidyRoom(w)
    ensures TidyRoom(ClaimMic(w, token, itemId, rawName, now, claimId).0)
  {
    var admitted := AdmitClaim(w, token, itemId, rawName);
    if admitted.Ok? {
      AddClaimTidy(w, Claim(claimId, w.sid, itemId, admitted.value.0, admitted.value.1, now));
    }
  }

  lemma DropClaimTidy(w: World, claim: Claim, now: int)
    requires TidyRoom(w)
    ensures TidyRoom(DropClaim(w, claim, now))
  {
    EventTidy(w.snap, ClaimRemoved(claim.queueItemId, claim.guestId), now, w.issued);
  }

  lemma RemoveClaimTidy(w: World, token: string, itemId: string, now: int)
    requires TidyRoom(w)
    ensures TidyRoom(RemoveClaim(w, token, itemId, now).0)
  {
    if RemoveClaim(w, token, itemId, now).1.None? {
      DropClaimTidy(w, FindClaim(w.claims, itemId, ResolveActor(w.dir, w.sid, token).value.1).value, now);
    }
  }

  lemma HostRemoveClaimTidy(w: World, itemId: string, guestId: string, now: int)
    requires TidyRoom(w)
    ensures TidyRoom(HostRemoveClaim(w, itemId, guestId, now).0)
  {
    if HostRemoveClaim(w, itemId, guestId, now).1.None? {
      DropClaimTidy(w, FindClaim(w.claims, itemId, guestId).value, now);
    }
  }

  /** Steps that leave the lists alone, or refresh singers in them. */
  lemma KaraokeTidy(w: World, itemId: Option<string>, until: int, now: int)
    requires TidyRoom(w)
    ensures TidyRoom(SetSpotlight(w, itemId, now)) && TidyRoom(ClearPause(w, now))
    ensures itemId.Some? ==> TidyRoom(SetPaused(w, itemId.value, until, now))
  {
    EventTidy(w.snap, Spotlight(itemId, if itemId.None? then [] else Singers(w.claims, itemId.value)), now, w.issued);
    if itemId.Some? {
      EventTidy(w.snap, KaraokePaused(itemId.value, until), now, w.issued);
    }
    if w.karaoke.spotlightItemId.Some? {
      EventTidy(w.snap, KaraokeResumed(w.karaoke.spotlightItemId.value), now, w.issued);
    }
  }

  lemma TrackChangeTidy(w: World, uri: Option<string>, now: int)
    requires TidyRoom(w)
    ensures TidyRoom(HandleTrackChange(w, uri, now))
  {
    var move := TrackChangeMove(w, uri, now);
    if move.MoveTo? {
      KaraokeTidy(w, move.target, 0, now);
      if move.holdUntil.Some? {
        KaraokeTidy(SetSpotlight(w, move.target, now), move.target, move.holdUntil.value, now);
      }
    }
  }

  lemma PauseTidy(w: World, token: string, now: int)
    requires TidyRoom(w)
    ensures TidyRoom(Pause(w, token, now).0)
  {
    if Pause(w, token, now).1.Ok? {
      var (session, itemId) := SpotlightClaimer(w, token).value;
      KaraokeTidy(w, Some(itemId), now + session.karaokePauseTimeoutSec * 1000, now);
    }
  }

  lemma ResumeTidy(w: World, token: string, isPlaying: bool, now: int)
    requires TidyRoom(w)
    ensures TidyRoom(Ready(w, token, now).0) && TidyRoom(ReconcilePlayback(w, isPlaying, now))
  {
    KaraokeTidy(w, None, 0, now);
    var w', w'' := Ready(w, token, now).0, ReconcilePlayback(w, isPlaying, now);
    assert w' == w || w' == ClearPause(w, now);
    assert w'' == w || w'' == ClearPause(w, now);
  }

  lemma AddedApart(rows: seq<Row>, seen: set<string>, claims: seq<Claim>)
    requires DistinctRowIds(rows)
    ensures Added(rows, seen, claims, true).Keys !! Added(rows, seen, claims, false).Keys
    ensures Added(rows, seen, claims, true).Keys !! seen && Added(rows, seen, claims, false).Keys !! seen
    ensures forall id, pending :: id in Added(rows, seen, claims, pending) ==> exists r :: r in rows && r.id == id
  {
    AddedEntries(rows, seen, claims, true);
    AddedEntries(rows, seen, claims, false);
    forall id | id in Added(rows, seen, claims, true) ensures id !in Added(rows, seen, claims, false) {
      var a :| a in rows && a.id == id && Side(true, a.status);
      forall b | b in rows && b.id == id ensures !Side(false, b.status) {
        OneRowPerId(rows, a, b);
      }
    }
  }

  lemma OneRowPerId(rows: seq<Row>, a: Row, b: Row)
    requires DistinctRowIds(rows) && a in rows && b in rows && a.id == b.id
    ensures a == b
  {
    var i :| 0 <= i < |rows| && rows[i] == a;
    var j :| 0 <= j < |rows| && rows[j] == b;
  }

  /** Hydration adds stored rows that are not listed, each once and to one list. */
  lemma HydrateTidy(w: World)
    requires TidyRoom(w) && StoreOk(w)
    ensures TidyRoom(Hydrate(w))
  {
    var rows, seen := SessionRows(w.items, w.sid), SeenIds(w.snap);
    var p, q := Index(w.snap.pending, CoreOf), Index(w.snap.queue, CoreOf);
    TidyHolds(w.snap, w.issued);
    SessionRowsOk(w.items, w.issued, w.sid);
    SeenAreShown(w.snap);
    HydrateListsShow(rows, seen, w.claims, w.sid, w.snap, p, q);
    AddedApart(rows, seen, w.claims);
    HoldsTidy(Hydrate(w).snap, p + Added(rows, seen, w.claims, true), q + Added(rows, seen, w.claims, false), w.issued);
  }

  lemma QueueStepTidy(w: World, c: Command, now: int)
    requires TidyRoom(w) && Plausible(w, c, now) && (c.CRequest? || c.CModerate? || c.CRemoveOwn? || c.CVote?)
    ensures TidyRoom(Step(w, c, now))
  {
    match c
    case CRequest(token, track, karaoke, env) => RequestTidy(w, token, track, karaoke, env.(now := now));
    case CModerate(itemId, approve, until) => ModerateTidy(w, itemId, approve, now, until);
    case CRemoveOwn(itemId, token) => RemoveOwnTidy(w, itemId, token, now);
    case CVote(itemId, token) => VoteTidy(w, itemId, token, now);
  }

  lemma ClaimStepTidy(w: World, c: Command, now: int)
    requires TidyRoom(w) && (c.CClaim? || c.CRemoveClaim? || c.CHostRemoveClaim?)
    ensures TidyRoom(Step(w, c, now))
  {
    match c
    case CClaim(token, itemId, rawName, claimId) => ClaimMicTidy(w, token, itemId, rawName, now, claimId);
    case CRemoveClaim(token, itemId) => RemoveClaimTidy(w, token, itemId, now);
    case CHostRemoveClaim(itemId, guestId) => HostRemoveClaimTidy(w, itemId, guestId, now);
  }

  lemma PlaybackStepTidy(w: World, c: Command, now: int)
    requires TidyRoom(w) && (c.CTrackChange? || c.CReconcilePlayback? || c.CPause? || c.CReady?)
    ensures TidyRoom(Step(w, c, now))
  {
    match c
    case CTrackChange(uri) => TrackChangeTidy(w, uri, now);
    case CReconcilePlayback(isPlaying) => ResumeTidy(w, "", isPlaying, now);
    case CPause(token) => PauseTidy(w, token, now);
    case CReady(token) => ResumeTidy(w, token, true, now);
  }

  /** Every step keeps the lists in order, whether the room hears of it or not. */
  lemma StepKeepsTidy(w: World, c: Command, now: int)
    requires TidyRoom(w) && StoreOk(w) && Plausible(w, c, now)
    ensures TidyRoom(Step(w, c, now))
  {
    if c.CRequest? || c.CModerate? || c.CRemoveOwn? || c.CVote? {
      QueueStepTidy(w, c, now);
    } else if c.CClaim? || c.CRemoveClaim? || c.CHostRemoveClaim? {
      ClaimStepTidy(w, c, now);
    } else if c.CHydrate? {
      HydrateTidy(w);
    } else if c.COtherEvent? {
      PublishTidy(w, c.event, now);
    } else if c.CPoll? {
      PollStep(w, c.view, c.skipWorked, now);
    } else if !c.CDirectory? {
      PlaybackStepTidy(w, c, now);
    }
  }

  // ---------------------------------------------------------------- the karaoke slice

  predicate TouchesKaraoke(e: Event) {
    e.Spotlight? || e.KaraokePaused? || e.KaraokeResumed?
  }

  lemma EventKeepsKaraoke(s: Snapshot, e: Event, now: int)
    requires !TouchesKaraoke(e)
    ensures Published(s, e, now).karaoke == s.karaoke
  {
  }

  lemma PlaceKeepsKaraoke(w: World, row: Row, name: Option<string>, env: RequestEnv)
    ensures var w' := PlaceRequest(w, row, name, env).0;
      w'.karaoke == w.karaoke && w'.snap.karaoke == w.snap.karaoke
  {
    var w1, placed := InsertRequest(w, row, name, env), PlaceRequest(w, row, name, env).0;
    var w2 := Publish(w1, ItemApproved(row.id), env.now);
    assert w1.karaoke == w.karaoke && w1.snap.karaoke == w.snap.karaoke;
    EventKeepsKaraoke(w1.snap, ItemApproved(row.id), env.now);
    EventKeepsKaraoke(w2.snap, ItemRemoved(row.id), env.now);
    assert placed == w1 || placed == w2 || placed == DeleteRow(w2, row.id, env.now);
  }

  lemma QueueStepKaraoke(w: World, c: Command, now: int)
    requires c.CRequest? || c.CModerate? || c.CRemoveOwn? || c.CVote?
    ensures Step(w, c, now).karaoke == w.karaoke && Step(w, c, now).snap.karaoke == w.snap.karaoke
  {
    match c
    case CRequest(token, track, karaoke, env) =>
      var admitted := AdmitRequest(w, token, track, karaoke, env.(now := now));
      if admitted.Ok? {
        var (session, guestId, name) := admitted.value;
        var row := NewRow(w.sid, session, guestId, track, env.(now := now));
        PlaceKeepsKaraoke(w, row, name, env.(now := now));
      }
    case CModerate(itemId, approve, until) =>
      assert Step(w, c, now) == Moderate(w, itemId, approve, now, until).0.(clock := now);
    case CRemoveOwn(itemId, token) =>
      assert Step(w, c, now) == RemoveOwn(w, itemId, token, now).0.(clock := now);
    case CVote(itemId, token) => VoteKaraoke(w, itemId, token, now);
  }

  lemma VoteKaraoke(w: World, itemId: string, token: string, now: int)
    ensures var w' := CastSkipVote(w, itemId, token, now).0;
      w'.karaoke == w.karaoke && w'.snap.karaoke == w.snap.karaoke
  {
  }

  lemma ClaimStepKaraoke(w: World, c: Command, now: int)
    requires c.CClaim? || c.CRemoveClaim? || c.CHostRemoveClaim?
    ensures Step(w, c, now).karaoke == w.karaoke && Step(w, c, now).snap.karaoke == w.snap.karaoke
  {
    match c
    case CClaim(token, itemId, rawName, claimId) =>
      var admitted, w' := AdmitClaim(w, token, itemId, rawName), ClaimMic(w, token, itemId, rawName, now, claimId).0;
      assert Step(w, c, now) == w'.(clock := now);
      if admitted.Ok? {
        var claim := Claim(claimId, w.sid, itemId, admitted.value.0, admitted.value.1, now);
        assert w' == AddClaim(w, claim);
        EventKeepsKaraoke(w.snap, ClaimAdded(itemId, ClaimSummary(claim.guestId, claim.displayName)), now);
      }
    case CRemoveClaim(token, itemId) =>
      var w' := RemoveClaim(w, token, itemId, now).0;
      assert Step(w, c, now) == w'.(clock := now);
      if RemoveClaim(w, token, itemId, now).1.None? {
        var claim := FindClaim(w.claims, itemId, ResolveActor(w.dir, w.sid, token).value.1).value;
        assert w' == DropClaim(w, claim, now);
        DropKeepsKaraoke(w, claim, now);
      }
    case CHostRemoveClaim(itemId, guestId) =>
      var w' := HostRemoveClaim(w, itemId, guestId, now).0;
      assert Step(w, c, now) == w'.(clock := now);
      if HostRemoveClaim(w, itemId, guestId, now).1.None? {
        assert w' == DropClaim(w, FindClaim(w.claims, itemId, guestId).value, now);
        DropKeepsKaraoke(w, FindClaim(w.claims, itemId, guestId).value, now);
      }
  }

  lemma DropKeepsKaraoke(w: World, claim: Claim, now: int)
    ensures var w' := DropClaim(w, claim, now); w'.karaoke == w.karaoke && w'.snap.karaoke == w.snap.karaoke
  {
    EventKeepsKaraoke(w.snap, ClaimRemoved(claim.queueItemId, claim.guestId), now);
  }

  lemma SpotlightMirrors(w: World, target: Option<string>, now: int)
    requires KaraokeMirrored(w) && target != w.karaoke.spotlightItemId
    ensures KaraokeMirrored(SetSpotlight(w, target, now))
  {
  }

  lemma HoldMirrors(w: World, itemId: string, until: int, now: int)
    requires KaraokeMirrored(w)
    ensures KaraokeMirrored(SetPaused(w, itemId, until, now))
    ensures w.karaoke.paused ==> KaraokeMirrored(ClearPause(w, now))
  {
  }

  lemma PlaybackStepMirrors(w: World, c: Command, now: int)
    requires KaraokeMirrored(w) && (c.CTrackChange? || c.CReconcilePlayback? || c.CPause? || c.CReady?)
    ensures KaraokeMirrored(Step(w, c, now))
  {
    match c
    case CTrackChange(uri) => TrackChangeMirrors(w, uri, now);
    case CReconcilePlayback(isPlaying) => HoldMirrors(w, "", 0, now);
    case CPause(token) => PauseMirrors(w, token, now);
    case CReady(token) => ReadyMirrors(w, token, now);
  }

  lemma TrackChangeMirrors(w: World, uri: Option<string>, now: int)
    requires KaraokeMirrored(w)
    ensures KaraokeMirrored(HandleTrackChange(w, uri, now))
  {
    var move := TrackChangeMove(w, uri, now);
    if move.MoveTo? {
      SpotlightMirrors(w, move.target, now);
      if move.holdUntil.Some? {
        HoldMirrors(SetSpotlight(w, move.target, now), move.target.value, move.holdUntil.value, now);
      }
    }
  }

  lemma PauseMirrors(w: World, token: string, now: int)
    requires KaraokeMirrored(w)
    ensures KaraokeMirrored(Pause(w, token, now).0)
  {
    if Pause(w, token, now).1.Ok? {
      var (session, itemId) := SpotlightClaimer(w, token).value;
      HoldMirrors(w, itemId, now + session.karaokePauseTimeoutSec * 1000, now);
    }
  }

  lemma ReadyMirrors(w: World, token: string, now: int)
    requires KaraokeMirrored(w)
    ensures KaraokeMirrored(Ready(w, token, now).0)
  {
    var w' := Ready(w, token, now).0;
    assert w' == w || (w.karaoke.paused && w' == ClearPause(w, now));
    if w.karaoke.paused {
      HoldMirrors(w, "", 0, now);
    }
  }

  /** Every step moves the karaoke state and the room's slice alike. */
  lemma StepKeepsMirror(w: World, c: Command, now: int)
    requires KaraokeMirrored(w) && Plausible(w, c, now)
    ensures KaraokeMirrored(Step(w, c, now))
  {
    if c.CRequest? || c.CModerate? || c.CRemoveOwn? || c.CVote? {
      QueueStepKaraoke(w, c, now);
    } else if c.CClaim? || c.CRemoveClaim? || c.CHostRemoveClaim? {
      ClaimStepKaraoke(w, c, now);
    } else if c.COtherEvent? {
      EventKeepsKaraoke(w.snap, c.event, now);
    } else if c.CTrackChange? || c.CReconcilePlayback? || c.CPause? || c.CReady? {
      PlaybackStepMirrors(w, c, now);
    }
  }

  // ---------------------------------------------------------------- runs

  lemma FreshSessionTidy(sid: string, dir: Directory, now: int, cascades: bool)
    ensures var w := FreshSession(sid, dir, now, cascades); StoreOk(w) && TidyRoom(w) && KaraokeMirrored(w)
  {
  }

  /** Over every run, steps the room misses included: the stores are in order, no id is listed twice or in
      both lists, every listed id is one the session gave out, and the karaoke state is the room's slice. */
  lemma {:induction false} RunKeepsOrder(w: World, run: seq<Timed>)
    requires StoreOk(w) && TidyRoom(w) && KaraokeMirrored(w) && PlausibleRun(w, run)
    ensures var w' := RunFrom(w, run); StoreOk(w') && TidyRoom(w') && KaraokeMirrored(w')
  {
    if run != [] {
      var before, l := RunFrom(w, Init(run)), Last(run);
      RunKeepsOrder(w, Init(run));
      StepStore(before, l.c, l.now);
      StepKeepsTidy(before, l.c, l.now);
      StepKeepsMirror(before, l.c, l.now);
    }
  }
}

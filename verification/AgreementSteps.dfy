/** Every service call keeps the snapshot in agreement with the stores, and the two steps that can
    break it, with exactly when they do. */
module AgreementSteps {
  import opened Collections
  import opened QueueTypes
  import opened Snapshot
  import opened ItemIndex
  import opened Claims
  import opened LiveSession
  import opened Agreement
  import Reconcile

  // ---------------------------------------------------------------- requests

  lemma SingerAddedOnce(singer: ClaimSummary)
    ensures EditClaims([singer], AddSinger(singer)) == [singer]
  {
    WithoutGuestSnoc([], singer, singer.guestId);
    assert [] + [singer] == [singer];
  }

  lemma AfterRequestedWithMic(s: Snapshot, item: ItemSummary, singer: ClaimSummary, now: int,
                              p: map<string, ItemSummary>, q: map<string, ItemSummary>)
    requires Shows(s, p, q) && item.id !in p && item.id !in q && p.Keys !! q.Keys
    requires item.karaokeClaims == [singer]
    ensures Shows(Published(Published(s, ItemRequested(item), now), ClaimAdded(item.id, singer), now),
                  p[item.id := CoreOf(item)], q)
  {
    var s1, p1 := Published(s, ItemRequested(item), now), p[item.id := CoreOf(item)];
    AfterRequested(s, item, p, q);
    assert Shows(s1, p1, q);
    assert p1.Keys !! q.Keys;
    EditSingleSinger(p, item.id, CoreOf(item), singer);
    AfterSingerOfEntry(s1, item.id, singer, now, p1, q);
  }

  lemma AfterSingerOfEntry(s: Snapshot, id: string, singer: ClaimSummary, now: int,
                           p: map<string, ItemSummary>, q: map<string, ItemSummary>)
    requires Shows(s, p, q) && p.Keys !! q.Keys && id !in q && EditEntry(p, id, AddSinger(singer)) == p
    ensures Shows(Published(s, ClaimAdded(id, singer), now), p, q)
  {
    AfterClaimsEdit(s, id, AddSinger(singer), p, q);
    assert EditEntry(q, id, AddSinger(singer)) == q;
  }

  lemma EditSingleSinger(p: map<string, ItemSummary>, id: string, core: ItemSummary, singer: ClaimSummary)
    requires core.karaokeClaims == [singer]
    ensures EditEntry(p[id := core], id, AddSinger(singer)) == p[id := core]
  {
    SingerAddedOnce(singer);
    assert core.(karaokeClaims := EditClaims(core.karaokeClaims, AddSinger(singer))) == core;
    PutTwice(p, id, core);
  }

  lemma PutTwice<V>(m: map<string, V>, k: string, v: V)
    ensures m[k := v][k := v] == m[k := v]
  {
  }

  function RequestSingers(w: World, row: Row, name: Option<string>): seq<ClaimSummary> {
    if name.Some? then [ClaimSummary(row.guestId, name.value)] else []
  }

  /** The claims after the insert show the new row's singer and nobody else's change. */
  lemma InsertSingers(w: World, row: Row, name: Option<string>, env: RequestEnv)
    requires ClaimsOk(w.claims, w.issued, w.clock) && w.clock <= env.now && row.id !in w.issued
    ensures var claims := InsertRequest(w, row, name, env).claims;
      && Singers(claims, row.id) == RequestSingers(w, row, name)
      && forall k :: k != row.id ==> Singers(claims, k) == Singers(w.claims, k)
  {
    NoClaimsYet(w.claims, w.issued, w.clock, row.id);
    if name.Some? {
      var c := Claim(env.claimId, w.sid, row.id, row.guestId, name.value, env.now);
      forall k ensures Singers(w.claims + [c], k) ==
        if k == row.id then Singers(w.claims, k) + [ClaimSummary(row.guestId, name.value)] else Singers(w.claims, k)
      {
        SingersAfterCreate(w.claims, c, k);
      }
      assert [] + [ClaimSummary(row.guestId, name.value)] == [ClaimSummary(row.guestId, name.value)];
    }
  }

  lemma InsertStore(w: World, row: Row, name: Option<string>, env: RequestEnv)
    requires StoreOk(w) && w.clock <= env.now
    requires row.id == env.itemId && row.sessionId == w.sid
    requires env.itemId !in w.issued && env.claimId !in w.issued && env.itemId != env.claimId
    ensures StoreOk(InsertRequest(w, row, name, env).(clock := env.now))
  {
    PutRowStore(w.items, w.issued, row);
    if name.Some? {
      AddClaimStore(w.claims, w.issued + {row.id}, w.clock,
                    Claim(env.claimId, w.sid, row.id, row.guestId, name.value, env.now), env.now);
    }
  }

  /** What the lists show right after the request events: the row in the pending list. */
  lemma InsertShows(w: World, row: Row, name: Option<string>, env: RequestEnv)
    requires Agrees(w) && row.id !in w.items.at
    ensures var p, q := View(w.items.at, w.claims, w.sid, true), View(w.items.at, w.claims, w.sid, false);
      Shows(InsertRequest(w, row, name, env).snap, p[row.id := CoreOf(ToSummary(row, RequestSingers(w, row, name)))], q)
  {
    var p, q := View(w.items.at, w.claims, w.sid, true), View(w.items.at, w.claims, w.sid, false);
    var item := ToSummary(row, RequestSingers(w, row, name));
    SidesAreDisjoint(w.items.at, w.claims, w.sid);
    if name.None? {
      AfterRequested(w.snap, item, p, q);
    } else {
      AfterRequestedWithMic(w.snap, item, item.karaokeClaims[0], env.now, p, q);
    }
  }

  lemma InsertView(w: World, row: Row, claims: seq<Claim>, pending: bool)
    requires ItemsOk(w.items, w.issued) && row.id !in w.issued && row.sessionId == w.sid
    requires forall k :: k != row.id ==> Singers(claims, k) == Singers(w.claims, k)
    ensures var v := View(w.items.at, w.claims, w.sid, pending);
      && row.id !in v
      && View(w.items.at, claims, w.sid, pending) == v
      && View(w.items.at[row.id := row], claims, w.sid, pending) ==
           if Side(pending, row.status) then v[row.id := RowCore(row, claims)] else v
  {
    var v := View(w.items.at, w.claims, w.sid, pending);
    ViewClaims(w.items.at, w.claims, claims, w.sid, pending, row.id);
    ViewPut(w.items.at, claims, w.sid, pending, row);
    assert v - {row.id} == v;
  }

  lemma PendingRequestShows(w: World, row: Row, name: Option<string>, env: RequestEnv)
    requires StoreOk(w) && Agrees(w) && w.clock <= env.now
    requires row.sessionId == w.sid && row.id !in w.issued && row.status.Pending?
    ensures Agrees(InsertRequest(w, row, name, env))
  {
    var claims := InsertRequest(w, row, name, env).claims;
    InsertSingers(w, row, name, env);
    InsertShows(w, row, name, env);
    InsertView(w, row, claims, true);
    InsertView(w, row, claims, false);
  }

  /** An auto-approved request passes through the pending list on its way to the queue. */
  lemma ApprovedRequestShows(w: World, row: Row, name: Option<string>, env: RequestEnv)
    requires StoreOk(w) && Agrees(w) && w.clock <= env.now
    requires row.sessionId == w.sid && row.id !in w.issued && row.status.Approved?
    ensures Agrees(Publish(InsertRequest(w, row, name, env), ItemApproved(row.id), env.now))
  {
    var w1 := InsertRequest(w, row, name, env);
    var p, q := View(w.items.at, w.claims, w.sid, true), View(w.items.at, w.claims, w.sid, false);
    var core := RowCore(row, w1.claims);
    InsertSingers(w, row, name, env);
    InsertShows(w, row, name, env);
    InsertView(w, row, w1.claims, true);
    InsertView(w, row, w1.claims, false);
    SidesAreDisjoint(w.items.at, w.claims, w.sid);
    AfterInsertApproved(w1.snap, row.id, core, p, q);
  }

  lemma AfterInsertApproved(s: Snapshot, id: string, core: ItemSummary, p: map<string, ItemSummary>,
                            q: map<string, ItemSummary>)
    requires Shows(s, p[id := core], q) && id !in p && id !in q && p.Keys !! q.Keys && core.status.Approved?
    ensures Shows(ApplyEvent(s, ItemApproved(id)), p, q[id := core])
  {
    var p1 := p[id := core];
    assert p1.Keys !! q.Keys && id in p1;
    AfterApproved(s, id, p1, q);
    PutThenRemove(p, id, core);
    assert p1[id].(status := Approved) == core;
  }

  lemma PutThenRemove<V>(m: map<string, V>, k: string, v: V)
    requires k !in m
    ensures m[k := v] - {k} == m
  {
  }

  /** Requests, with or without a bundled mic claim, moderated or auto-approved, and rolled back when
      the push trips the provider's rate limit, keep the room in agreement. */
  lemma RequestKeepsInv(w: World, token: string, track: Track, karaoke: Option<string>, env: RequestEnv)
    requires Inv(w) && w.clock <= env.now
    requires env.itemId !in w.issued && env.claimId !in w.issued && env.itemId != env.claimId
    ensures Inv(RequestTrack(w, token, track, karaoke, env).0.(clock := env.now))
  {
    var admitted := AdmitRequest(w, token, track, karaoke, env);
    if admitted.Ok? {
      var (session, guestId, name) := admitted.value;
      PlaceKeepsInv(w, NewRow(w.sid, session, guestId, track, env), name, env);
    } else {
      IdleKeepsInv(w, env.now);
    }
  }

  lemma PlaceKeepsInv(w: World, row: Row, name: Option<string>, env: RequestEnv)
    requires Inv(w) && w.clock <= env.now
    requires env.itemId !in w.issued && env.claimId !in w.issued && env.itemId != env.claimId
    requires row.id == env.itemId && row.sessionId == w.sid && (row.status.Pending? || row.status.Approved?)
    ensures Inv(PlaceRequest(w, row, name, env).0.(clock := env.now))
  {
    var w1, placed := InsertRequest(w, row, name, env), PlaceRequest(w, row, name, env).0;
    InsertStore(w, row, name, env);
    InsertKaraoke(w, row, name, env);
    if row.status.Pending? {
      assert placed == w1;
      PendingRequestShows(w, row, name, env);
      AssembleInv(w1.(clock := env.now));
    } else {
      var w2 := Publish(w1, ItemApproved(row.id), env.now);
      assert placed == w2 || placed == DeleteRow(w2, row.id, env.now);
      ApprovedRequestShows(w, row, name, env);
      ApprovedKeepsInv(w1, row.id, env.now);
    }
  }

  lemma ApprovedKeepsInv(w1: World, id: string, now: int)
    requires StoreOk(w1.(clock := now)) && KaraokeMirrored(w1) && Agrees(Publish(w1, ItemApproved(id), now))
    ensures var w2 := Publish(w1, ItemApproved(id), now);
      Inv(w2.(clock := now)) && Inv(DeleteRow(w2, id, now).(clock := now))
  {
    var v1 := w1.(clock := now);
    var v2 := Publish(v1, ItemApproved(id), now);
    assert Agrees(v2);
    ApprovedRequestInv(v1, id, now);
    DeleteRowKeepsInv(v2, id, now);
    var w2 := Publish(w1, ItemApproved(id), now);
    assert w2.(clock := now) == v2;
    assert DeleteRow(w2, id, now).(clock := now) == DeleteRow(v2, id, now).(clock := now);
  }

  lemma ApprovedRequestInv(w1: World, id: string, now: int)
    requires StoreOk(w1) && KaraokeMirrored(w1) && Agrees(Publish(w1, ItemApproved(id), now))
    ensures Inv(Publish(w1, ItemApproved(id), now))
  {
  }

  lemma InsertKaraoke(w: World, row: Row, name: Option<string>, env: RequestEnv)
    requires KaraokeMirrored(w)
    ensures KaraokeMirrored(InsertRequest(w, row, name, env))
  {
  }

  lemma AssembleInv(w: World)
    requires StoreOk(w) && Agrees(w) && KaraokeMirrored(w)
    ensures Inv(w)
  {
  }

  // ---------------------------------------------------------------- moderation, removal, votes

  lemma SameIssued(issued: set<string>, id: string)
    requires id in issued
    ensures issued + {id} == issued
  {
  }

  lemma ApproveKeepsInv(w: World, item: Row, now: int)
    requires Inv(w) && w.clock <= now
    requires item.id in w.items.at && w.items.at[item.id] == item && item.sessionId == w.sid && IsActive(item.status)
    ensures Inv(SetRow(w, Decided(item, Approved, now), ItemApproved(item.id), now).(clock := now))
  {
    var row := Decided(item, Approved, now);
    SameIssued(w.issued, item.id);
    ApprovedShows(w, row, now);
    SetRowStore(w, row, ItemApproved(item.id), now);
    AssembleInv(SetRow(w, row, ItemApproved(item.id), now).(clock := now));
  }

  lemma ModerateKeepsInv(w: World, itemId: string, approve: bool, now: int, limitedUntil: Option<int>)
    requires Inv(w) && w.clock <= now && !Revives(w, CModerate(itemId, approve, limitedUntil))
    ensures Inv(Moderate(w, itemId, approve, now, limitedUntil).0.(clock := now))
  {
    if Moderate(w, itemId, approve, now, limitedUntil).1.Ok? {
      if approve {
        ApproveKeepsInv(w, w.items.at[itemId], now);
      } else {
        RejectKeepsInv(w, w.items.at[itemId], now);
      }
    }
  }

  lemma RevivalBreaks(w: World, row: Row, now: int)
    requires Agrees(w) && row.id in w.items.at && w.items.at[row.id].id == row.id
    requires !IsActive(w.items.at[row.id].status) && row.status.Approved? && row.sessionId == w.sid
    ensures !Agrees(SetRow(w, row, ItemApproved(row.id), now))
  {
    var p, q := View(w.items.at, w.claims, w.sid, true), View(w.items.at, w.claims, w.sid, false);
    SidesAreDisjoint(w.items.at, w.claims, w.sid);
    AfterApproved(w.snap, row.id, p, q);
    var w' := SetRow(w, row, ItemApproved(row.id), now);
    assert row.id in View(w'.items.at, w'.claims, w'.sid, false);
    assert row.id !in q;
  }

  /** The host may decide about anything the snapshot still shows, and may reject anything. Approving
      a rejected or played row is the one decision the room misses: the event finds nothing to move. */
  lemma ModerateExact(w: World, itemId: string, approve: bool, now: int, limitedUntil: Option<int>)
    requires Inv(w) && w.clock <= now
    ensures Agrees(Moderate(w, itemId, approve, now, limitedUntil).0) <==>
      !(Revives(w, CModerate(itemId, approve, limitedUntil)) && !ApprovalLimited(w, limitedUntil))
  {
    if !Revives(w, CModerate(itemId, approve, limitedUntil)) {
      ModerateKeepsInv(w, itemId, approve, now, limitedUntil);
    } else if !ApprovalLimited(w, limitedUntil) {
      RevivalBreaks(w, Decided(w.items.at[itemId], Approved, now), now);
    }
  }

  lemma DeleteRowKeepsInv(w: World, itemId: string, now: int)
    requires Inv(w) && w.clock <= now
    ensures Inv(DeleteRow(w, itemId, now).(clock := now))
  {
    DeletedShows(w, itemId, now);
    DeleteRowStore(w, itemId, now);
    AssembleInv(DeleteRow(w, itemId, now).(clock := now));
  }

  lemma RemoveOwnKeepsInv(w: World, itemId: string, token: string, now: int)
    requires Inv(w) && w.clock <= now
    ensures Inv(RemoveOwn(w, itemId, token, now).0.(clock := now))
  {
    var w' := RemoveOwn(w, itemId, token, now).0;
    assert w' == w || w' == DeleteRow(w, itemId, now);
    DeleteRowKeepsInv(w, itemId, now);
    IdleKeepsInv(w, now);
  }

  lemma IdleKeepsInv(w: World, now: int)
    requires Inv(w) && w.clock <= now
    ensures Inv(w.(clock := now))
  {
  }

  lemma VotedKeepsInv(w: World, session: Session, guestId: string, item: Row, now: int)
    requires Inv(w) && w.clock <= now
    requires item.id in w.items.at && w.items.at[item.id] == item && item.sessionId == w.sid
    ensures Inv(SetRow(w.(votes := w.votes + {(item.id, guestId)}), Voted(item),
                       SkipVoteUpdated(item.id, Voted(item).skipVotes, session.voteSkipThreshold), now).(clock := now))
  {
    var w0 := w.(votes := w.votes + {(item.id, guestId)});
    var e := SkipVoteUpdated(item.id, Voted(item).skipVotes, session.voteSkipThreshold);
    SameIssued(w.issued, item.id);
    VotedShows(w0, item, session.voteSkipThreshold, now);
    SetRowStore(w0, Voted(item), e, now);
    AssembleInv(SetRow(w0, Voted(item), e, now).(clock := now));
  }

  lemma RejectKeepsInv(w: World, item: Row, now: int)
    requires Inv(w) && w.clock <= now
    requires item.id in w.items.at && w.items.at[item.id].sessionId == w.sid && item.sessionId == w.sid
    ensures Inv(SetRow(w, Decided(item, Rejected, now), ItemRejected(item.id), now).(clock := now))
  {
    var rejected := Decided(item, Rejected, now);
    SameIssued(w.issued, item.id);
    RejectedShows(w, rejected, now);
    SetRowStore(w, rejected, ItemRejected(item.id), now);
    AssembleInv(SetRow(w, rejected, ItemRejected(item.id), now).(clock := now));
  }

  lemma RecordVoteKeepsInv(w: World, session: Session, guestId: string, item: Row, now: int)
    requires Inv(w) && w.clock <= now
    requires item.id in w.items.at && w.items.at[item.id] == item && item.sessionId == w.sid
    ensures Inv(RecordVote(w, session, guestId, item, now).(clock := now))
  {
    VotedKeepsInv(w, session, guestId, item, now);
    if AutoRejects(session, Voted(item).skipVotes) {
      var e := SkipVoteUpdated(item.id, Voted(item).skipVotes, session.voteSkipThreshold);
      RejectKeepsInv(SetRow(w.(votes := w.votes + {(item.id, guestId)}), Voted(item), e, now).(clock := now),
                     Voted(item), now);
    }
  }

  lemma VoteKeepsInv(w: World, itemId: string, token: string, now: int)
    requires Inv(w) && w.clock <= now
    ensures Inv(CastSkipVote(w, itemId, token, now).0.(clock := now))
  {
    var admitted := AdmitVote(w, itemId, token);
    if admitted.Ok? {
      RecordVoteKeepsInv(w, admitted.value.0, admitted.value.1, admitted.value.2, now);
    }
  }

  // ---------------------------------------------------------------- claims

  /** An edit of one item's singers that both sides make keeps the agreement. */
  lemma SingersEditShows(w: World, claims': seq<Claim>, id: string, edit: ClaimsEdit)
    requires ItemsOk(w.items, w.issued) && Agrees(w)
    requires forall k :: k != id ==> Singers(claims', k) == Singers(w.claims, k)
    requires Singers(claims', id) == EditClaims(Singers(w.claims, id), edit)
    ensures Shows(UpdateItemById(w.snap, id, edit), View(w.items.at, claims', w.sid, true),
                  View(w.items.at, claims', w.sid, false))
  {
    SidesAreDisjoint(w.items.at, w.claims, w.sid);
    AfterClaimsEdit(w.snap, id, edit, View(w.items.at, w.claims, w.sid, true),
                    View(w.items.at, w.claims, w.sid, false));
    ViewClaims(w.items.at, w.claims, claims', w.sid, true, id);
    ViewClaims(w.items.at, w.claims, claims', w.sid, false, id);
  }

  lemma AddClaimShows(w: World, c: Claim)
    requires ItemsOk(w.items, w.issued) && Agrees(w)
    requires forall d :: d in w.claims ==> d.createdAt <= c.createdAt
    requires forall d :: d in w.claims ==> !(d.queueItemId == c.queueItemId && d.guestId == c.guestId)
    ensures Agrees(AddClaim(w, c))
  {
    CreateIsEdit(w.claims, c);
    SingersEditShows(w, w.claims + [c], c.queueItemId, AddSinger(ClaimSummary(c.guestId, c.displayName)));
  }

  lemma DropClaimShows(w: World, c: Claim, now: int)
    requires ItemsOk(w.items, w.issued) && Agrees(w) && ClaimsDistinct(w.claims) && c in w.claims
    ensures Agrees(DropClaim(w, c, now))
  {
    var w', edit := DropClaim(w, c, now), DropSinger(c.guestId);
    DeleteIsEdit(w.claims, c);
    SingersEditShows(w, DeleteClaim(w.claims, c.id), c.queueItemId, edit);
    assert w'.claims == DeleteClaim(w.claims, c.id) && w'.items == w.items && w'.sid == w.sid;
    assert w'.snap == UpdateItemById(w.snap, c.queueItemId, edit).(snapshotAtEpochMs := now);
  }

  /** The gate admits a guest only to an active item of the session they hold no claim on, with a mic
      free. */
  lemma AdmittedClaim(w: World, token: string, itemId: string, rawName: string)
    requires AdmitClaim(w, token, itemId, rawName).Ok? && ItemsOk(w.items, w.issued)
    ensures var guestId := AdmitClaim(w, token, itemId, rawName).value.0;
      && (forall c :: c in w.claims ==> !(c.queueItemId == itemId && c.guestId == guestId))
      && w.dir.session.Some? && |ItemClaims(w.claims, itemId)| < w.dir.session.value.karaokeMicCount
      && itemId in w.items.at && w.items.at[itemId].sessionId == w.sid && IsActive(w.items.at[itemId].status)
  {
    GateMeans(w.dir.session.value, w.items.at[itemId], w.claims, AdmitClaim(w, token, itemId, rawName).value.0);
  }

  lemma ClaimKeepsInv(w: World, token: string, itemId: string, rawName: string, now: int, claimId: string)
    requires Inv(w) && w.clock <= now && claimId !in w.issued
    ensures Inv(ClaimMic(w, token, itemId, rawName, now, claimId).0.(clock := now))
  {
    var admitted := AdmitClaim(w, token, itemId, rawName);
    if admitted.Ok? {
      AdmittedClaim(w, token, itemId, rawName);
      var c := Claim(claimId, w.sid, itemId, admitted.value.0, admitted.value.1, now);
      AddClaimKeepsInv(w, c);
    }
  }

  lemma AddClaimKeepsInv(w: World, c: Claim)
    requires Inv(w) && w.clock <= c.createdAt && c.id !in w.issued && c.sessionId == w.sid
      && c.queueItemId in w.items.at
    requires forall d :: d in w.claims ==> !(d.queueItemId == c.queueItemId && d.guestId == c.guestId)
    ensures Inv(AddClaim(w, c).(clock := c.createdAt))
  {
    AddClaimShows(w, c);
    AddClaimStore(w.claims, w.issued, w.clock, c, c.createdAt);
    AssembleInv(AddClaim(w, c).(clock := c.createdAt));
  }

  lemma DropClaimKeepsInv(w: World, c: Claim, now: int)
    requires Inv(w) && w.clock <= now && c in w.claims
    ensures Inv(DropClaim(w, c, now).(clock := now))
  {
    DropClaimShows(w, c, now);
    DeleteClaimStore(w.claims, w.issued, w.clock, c.id);
    AssembleInv(DropClaim(w, c, now).(clock := now));
  }

  // ---------------------------------------------------------------- spotlight and pause

  lemma SetSpotlightKeepsInv(w: World, target: Option<string>, now: int)
    requires Inv(w) && w.clock <= now && target != w.karaoke.spotlightItemId
    ensures Inv(SetSpotlight(w, target, now).(clock := now))
  {
    if target.Some? {
      SingersEditShows(w, w.claims, target.value, SetSingers(Singers(w.claims, target.value)));
    }
    AssembleInv(SetSpotlight(w, target, now).(clock := now));
  }

  lemma SetPausedKeepsInv(w: World, itemId: string, until: int, now: int)
    requires Inv(w) && w.clock <= now
    ensures Inv(SetPaused(w, itemId, until, now).(clock := now))
  {
    AssembleInv(SetPaused(w, itemId, until, now).(clock := now));
  }

  lemma ClearPauseKeepsInv(w: World, now: int)
    requires Inv(w) && w.clock <= now && w.karaoke.paused
    ensures Inv(ClearPause(w, now).(clock := now))
  {
    AssembleInv(ClearPause(w, now).(clock := now));
  }

  lemma AutoPauseKeepsInv(w: World, itemId: string, until: int, now: int)
    requires Inv(w) && w.clock <= now && w.karaoke.spotlightItemId != Some(itemId)
    ensures Inv(SetPaused(SetSpotlight(w, Some(itemId), now), itemId, until, now).(clock := now))
  {
    SetSpotlightKeepsInv(w, Some(itemId), now);
    SetPausedKeepsInv(SetSpotlight(w, Some(itemId), now).(clock := now), itemId, until, now);
  }

  lemma TrackChangeKeepsInv(w: World, uri: Option<string>, now: int)
    requires Inv(w) && w.clock <= now
    ensures Inv(HandleTrackChange(w, uri, now).(clock := now))
  {
    var move := TrackChangeMove(w, uri, now);
    if move.MoveTo? {
      if move.holdUntil.None? {
        SetSpotlightKeepsInv(w, move.target, now);
      } else {
        AutoPauseKeepsInv(w, move.target.value, move.holdUntil.value, now);
      }
    }
  }
}

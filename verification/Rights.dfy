/** Who may change what: exactly when rows and claims come and go, and what a refusal leaves behind. */
module Rights {
  import opened Collections
  import opened QueueTypes
  import opened Snapshot
  import opened Claims
  import opened LiveSession
  import opened Agreement
  import opened AgreementSteps
  import opened LiveTheorems
  import opened Hydration
  import opened Limits
  import Admission
  import Reconcile
  import Text

  // ---------------------------------------------------------------- rows

  /** The token stands for the guest, in this session. */
  predicate SpeaksFor(w: World, token: string, guestId: string) {
    && token in w.dir.slots && w.dir.slots[token].sessionId == w.sid
    && (w.sid, w.dir.slots[token].fingerprint) in w.dir.guests
    && w.dir.guests[(w.sid, w.dir.slots[token].fingerprint)] == guestId
  }

  /** A removal by the guest who asked for the track, before it plays. */
  predicate RemovedByOwner(w: World, c: Command, id: string)
    requires id in w.items.at
  {
    && c.CRemoveOwn? && c.itemId == id && w.items.at[id].sessionId == w.sid
    && SpeaksFor(w, c.token, w.items.at[id].guestId) && !w.items.at[id].status.Playing?
  }

  lemma RemoveOwnExactly(w: World, itemId: string, token: string, now: int, id: string)
    requires id in w.items.at
    ensures id !in RemoveOwn(w, itemId, token, now).0.items.at <==> RemovedByOwner(w, CRemoveOwn(itemId, token), id)
  {
  }

  lemma PassKeepsIds(w: World, v: Reconcile.View, skipWorked: bool)
    ensures PollerPass(w, v, skipWorked).items.at.Keys == w.items.at.Keys
  {
  }

  lemma RequestKeepsIds(w: World, c: Command, now: int, id: string)
    requires c.CRequest? && Plausible(w, c, now) && StoreOk(w) && id in w.items.at
    ensures id in Step(w, c, now).items.at
  {
    var env := c.env.(now := now);
    assert Step(w, c, now).items == RequestTrack(w, c.token, c.track, c.karaoke, env).0.items;
    RequestItems(w, c.token, c.track, c.karaoke, env);
  }

  lemma ModerateKeepsIds(w: World, itemId: string, approve: bool, until: Option<int>, now: int)
    requires ItemsOk(w.items, w.issued)
    ensures Step(w, CModerate(itemId, approve, until), now).items.at.Keys == w.items.at.Keys
  {
    assert Step(w, CModerate(itemId, approve, until), now).items == Moderate(w, itemId, approve, now, until).0.items;
  }

  /** A stored row leaves the store if and only if its own guest removes it before it plays. */
  lemma RowLeavesExactly(w: World, c: Command, now: int, id: string)
    requires Plausible(w, c, now) && StoreOk(w) && id in w.items.at
    ensures id !in Step(w, c, now).items.at <==> RemovedByOwner(w, c, id)
  {
    match c
    case CRequest(_, _, _, _) => RequestKeepsIds(w, c, now, id);
    case CModerate(itemId, approve, until) => ModerateKeepsIds(w, itemId, approve, until, now);
    case CRemoveOwn(itemId, token) =>
      assert Step(w, c, now).items == RemoveOwn(w, itemId, token, now).0.items;
      RemoveOwnExactly(w, itemId, token, now, id);
    case CVote(itemId, token) => VoteKeepsIds(w, itemId, token, now);
    case CPoll(view, skipWorked) =>
      PollStep(w, view, skipWorked, now);
      PassKeepsIds(w, view.(now := now), skipWorked);
    case _ => OtherStepItems(w, c, now);
  }

  lemma VoteKeepsIds(w: World, itemId: string, token: string, now: int)
    requires ItemsOk(w.items, w.issued)
    ensures Step(w, CVote(itemId, token), now).items.at.Keys == w.items.at.Keys
  {
    var admitted := AdmitVote(w, itemId, token);
    assert Step(w, CVote(itemId, token), now).items == CastSkipVote(w, itemId, token, now).0.items;
    if admitted.Ok? {
      var (session, guestId, item) := admitted.value;
      VotedItems(w, session, guestId, item, now);
    }
  }

  lemma KeyComesAndGoes(keys: seq<string>, k: string)
    requires k !in keys
    ensures Filter(keys + [k], Not(k)) == keys
  {
    FilterSnoc(keys, k, Not(k));
    FilterAll(keys, Not(k));
  }

  /** Putting a new key in and taking it out again restores the map, order included. */
  lemma PutThenRemoveRestores(m: OrderedMap<string, Row>, k: string, v: Row)
    requires m.Valid() && k !in m.at
    ensures m.Put(k, v).Remove(k) == m
  {
    KeyComesAndGoes(m.keys, k);
    assert m.at[k := v] - {k} == m.at;
  }

  lemma PlacedRows(w: World, row: Row, name: Option<string>, env: RequestEnv)
    requires ItemsOk(w.items, w.issued) && row.id !in w.items.at
    ensures var (w', r) := PlaceRequest(w, row, name, env);
      w'.items == if r.Ok? then w.items.Put(row.id, row) else w.items
  {
    PutThenRemoveRestores(w.items, row.id, row);
  }

  /** A refused request leaves the rows exactly as they were, whether it was turned away at a check or
      rolled back after its push; an accepted one adds its row at the end and changes no other. */
  lemma RequestAllOrNothing(w: World, token: string, track: Track, karaoke: Option<string>, env: RequestEnv)
    requires StoreOk(w) && env.itemId !in w.issued
    ensures var (w', r) := RequestTrack(w, token, track, karaoke, env);
      && (r.Err? ==> w'.items == w.items)
      && (r.Ok? ==> r.value.id == env.itemId && w'.items == w.items.Put(env.itemId, r.value))
  {
    var admitted := AdmitRequest(w, token, track, karaoke, env);
    if admitted.Ok? {
      var (session, guestId, name) := admitted.value;
      PlacedRows(w, NewRow(w.sid, session, guestId, track, env), name, env);
    }
  }

  /** After a rolled-back request the room shows what it showed before: the same rows, fields and singers. */
  lemma RollBackRestoresView(w: World, token: string, track: Track, karaoke: Option<string>, env: RequestEnv)
    requires Inv(w) && w.clock <= env.now
    requires env.itemId !in w.issued && env.claimId !in w.issued && env.itemId != env.claimId
    requires RequestTrack(w, token, track, karaoke, env).1.Err?
    ensures var w' := RequestTrack(w, token, track, karaoke, env).0;
      Shows(w'.snap, View(w.items.at, w'.claims, w.sid, true), View(w.items.at, w'.claims, w.sid, false))
  {
    RequestAllOrNothing(w, token, track, karaoke, env);
    RequestKeepsInv(w, token, track, karaoke, env);
    RequestItems(w, token, track, karaoke, env);
    var w' := RequestTrack(w, token, track, karaoke, env).0;
    assert Agrees(w'.(clock := env.now));
  }

  // ---------------------------------------------------------------- who may request

  /** Is the bundled mic claim, or its absence, acceptable? */
  predicate KaraokeFits(session: Session, karaoke: Option<string>) {
    match karaoke
    case None => !session.karaokeMode.KaraokeRequired?
    case Some(raw) => !session.karaokeMode.KaraokeOff? && Text.SanitizeDisplayName(raw).Some?
  }

  /** The guest's standing with the session: an active slot, requests and run below the caps, no active
      request for the track where duplicates are off. */
  ghost predicate HasRoomFor(w: World, session: Session, guestId: string, uri: string) {
    && |ActiveIds(w.items.at, w.sid, guestId)| < session.songsPerGuestCap
    && var line := Admission.WaitingList(SessionRows(w.items, w.sid));
      (session.maxConsecutivePerGuest.Some? ==>
         Admission.TrailingRun(line, guestId) < session.maxConsecutivePerGuest.value)
      && (!session.allowDuplicates ==>
            forall id :: id in w.items.at && ActiveIn(w.items.at[id], w.sid) ==> w.items.at[id].trackUri != uri)
  }

  ghost predicate MayRequest(w: World, token: string, guestId: string, track: Track, karaoke: Option<string>,
                             env: RequestEnv)
  {
    && SpeaksFor(w, token, guestId) && w.dir.slots[token].active && w.dir.session.Some?
    && var session := w.dir.session.value;
      && session.id == w.sid && !(session.endedAt.Some? && session.endedAt.value <= env.now)
      && HasRoomFor(w, session, guestId, track.uri)
      && KaraokeFits(session, karaoke)
      && (session.moderationEnabled || env.limitedUntil.None?)
  }

  lemma DuplicateInStore(items: OrderedMap<string, Row>, issued: set<string>, sid: string, uri: string)
    requires ItemsOk(items, issued)
    ensures var rows := SessionRows(items, sid);
      (exists i | 0 <= i < |rows| :: rows[i].trackUri == uri && IsActive(rows[i].status)) <==>
      (exists id :: id in items.at && ActiveIn(items.at[id], sid) && items.at[id].trackUri == uri)
  {
    var rows := SessionRows(items, sid);
    SessionRowsOk(items, issued, sid);
    forall i | 0 <= i < |rows|
      ensures rows[i].id in items.at && items.at[rows[i].id] == rows[i] && rows[i].sessionId == sid
    {
      assert rows[i] in rows;
    }
    forall id | id in items.at && ActiveIn(items.at[id], sid) && items.at[id].trackUri == uri
      ensures exists i | 0 <= i < |rows| :: rows[i].trackUri == uri && IsActive(rows[i].status)
    {
      var i :| 0 <= i < |rows| && rows[i] == items.at[id];
    }
  }

  lemma CanEnqueueExactly(w: World, session: Session, guestId: string, now: int, uri: string)
    requires ItemsOk(w.items, w.issued)
    ensures Admission.CanEnqueue(session, guestId, w.sid, SessionRows(w.items, w.sid), now, uri).None? <==>
      && session.id == w.sid && !(session.endedAt.Some? && session.endedAt.value <= now)
      && HasRoomFor(w, session, guestId, uri)
  {
    CountIsStoreCount(w.items, w.issued, w.sid, guestId);
    DuplicateInStore(w.items, w.issued, w.sid, uri);
    RoomInStore(w, session, guestId, SessionRows(w.items, w.sid), uri);
    Admission.CanEnqueueExact(session, guestId, w.sid, SessionRows(w.items, w.sid), now, uri);
  }

  lemma RoomInStore(w: World, session: Session, guestId: string, rows: seq<Row>, uri: string)
    requires rows == SessionRows(w.items, w.sid)
    requires Admission.CountActive(rows, guestId) == |ActiveIds(w.items.at, w.sid, guestId)|
    requires (exists i | 0 <= i < |rows| :: rows[i].trackUri == uri && IsActive(rows[i].status)) <==>
             (exists id :: id in w.items.at && ActiveIn(w.items.at[id], w.sid) && w.items.at[id].trackUri == uri)
    ensures Admission.RoomFor(session, guestId, rows, uri) <==> HasRoomFor(w, session, guestId, uri)
  {
  }

  /** A request passes the checks if and only if its token stands for a guest who may make it, and then
      it is admitted as that guest's, under the cleaned name. */
  lemma AdmittedExactly(w: World, token: string, track: Track, karaoke: Option<string>, env: RequestEnv)
    requires ItemsOk(w.items, w.issued)
    ensures var r := AdmitRequest(w, token, track, karaoke, env);
      && (r.Ok? <==> exists guestId :: MayRequest(w, token, guestId, track, karaoke, env))
      && (r.Ok? ==> MayRequest(w, token, r.value.1, track, karaoke, env) && w.dir.session == Some(r.value.0))
      && (r.Ok? ==> r.value.2 == if karaoke.Some? then Text.SanitizeDisplayName(karaoke.value) else None)
  {
    var actor := ResolveActor(w.dir, w.sid, token);
    if actor.Ok? {
      var (session, guestId) := actor.value;
      CanEnqueueExactly(w, session, guestId, env.now, track.uri);
    }
    var r := AdmitRequest(w, token, track, karaoke, env);
    assert r.Ok? ==> MayRequest(w, token, r.value.1, track, karaoke, env);
  }

  // ---------------------------------------------------------------- votes

  /** A vote rejects its item if and only if the mode is automatic and the different guests who have now
      voted on it reach the threshold. */
  lemma VoteRejectsExactly(w: World, itemId: string, token: string, now: int)
    requires StoreOk(w) && VotesCounted(w) && AdmitVote(w, itemId, token).Ok?
    ensures itemId in w.items.at && itemId in CastSkipVote(w, itemId, token, now).0.items.at
    ensures var w' := CastSkipVote(w, itemId, token, now).0;
      var session := w.dir.session.value;
      var automatic := session.voteSkipMode.Fixed? || session.voteSkipMode.Percentage?;
      w'.items.at[itemId].status ==
        if automatic && |VotersOf(w'.votes, itemId)| >= session.voteSkipThreshold then Rejected
          else w.items.at[itemId].status
  {
    var (session, guestId, item) := AdmitVote(w, itemId, token).value;
    VotedItems(w, session, guestId, item, now);
    NewVoteCounts(w.votes, itemId, guestId);
  }

  // ---------------------------------------------------------------- claims

  /** A removal by the host, or by the claim's own guest with an active slot while the item waits. */
  predicate ClaimGivenUp(w: World, c: Command, claim: Claim) {
    && claim.queueItemId in w.items.at && w.items.at[claim.queueItemId].sessionId == w.sid
    && (|| (c.CHostRemoveClaim? && c.itemId == claim.queueItemId && c.guestId == claim.guestId)
        || (c.CRemoveClaim? && c.itemId == claim.queueItemId && w.dir.session.Some?
            && SpeaksFor(w, c.token, claim.guestId) && w.dir.slots[c.token].active
            && IsWaiting(w.items.at[claim.queueItemId].status)))
  }

  lemma DeletedExactly(claims: seq<Claim>, victim: Claim, claim: Claim)
    requires ClaimsDistinct(claims) && victim in claims && claim in claims
    ensures claim !in DeleteClaim(claims, victim.id) <==> claim == victim
  {
    FilterMembers(claims, OtherThan(victim.id));
    SameClaim(claims, claim, victim);
  }

  lemma FoundClaim(claims: seq<Claim>, claim: Claim)
    requires ClaimsDistinct(claims) && claim in claims
    ensures FindClaim(claims, claim.queueItemId, claim.guestId) == Some(claim)
  {
    SameClaim(claims, claim, FindClaim(claims, claim.queueItemId, claim.guestId).value);
  }

  lemma RemovedClaimExactly(w: World, token: string, itemId: string, now: int, claim: Claim)
    requires StoreOk(w) && claim in w.claims
    ensures claim !in RemoveClaim(w, token, itemId, now).0.claims <==>
      ClaimGivenUp(w, CRemoveClaim(token, itemId), claim)
  {
    var w' := RemoveClaim(w, token, itemId, now).0;
    FoundClaim(w.claims, claim);
    if RemoveClaim(w, token, itemId, now).1.None? {
      var guestId := ResolveActor(w.dir, w.sid, token).value.1;
      var victim := FindClaim(w.claims, itemId, guestId).value;
      assert w'.claims == DeleteClaim(w.claims, victim.id);
      DeletedExactly(w.claims, victim, claim);
    } else {
      assert w' == w;
    }
  }

  lemma HostRemovedClaimExactly(w: World, itemId: string, guestId: string, now: int, claim: Claim)
    requires StoreOk(w) && claim in w.claims
    ensures claim !in HostRemoveClaim(w, itemId, guestId, now).0.claims
      <==> ClaimGivenUp(w, CHostRemoveClaim(itemId, guestId), claim)
  {
    var w' := HostRemoveClaim(w, itemId, guestId, now).0;
    FoundClaim(w.claims, claim);
    if HostRemoveClaim(w, itemId, guestId, now).1.None? {
      var victim := FindClaim(w.claims, itemId, guestId).value;
      assert w'.claims == DeleteClaim(w.claims, victim.id);
      DeletedExactly(w.claims, victim, claim);
    } else {
      assert w' == w;
    }
  }

  lemma ClaimMicKeepsClaims(w: World, token: string, itemId: string, rawName: string, now: int, claimId: string)
    ensures forall claim :: claim in w.claims ==> claim in ClaimMic(w, token, itemId, rawName, now, claimId).0.claims
  {
    var claims := ClaimMic(w, token, itemId, rawName, now, claimId).0.claims;
    assert claims == w.claims || (|claims| == |w.claims| + 1 && Init(claims) == w.claims);
  }

  lemma KeptByCascade(w: World, itemId: string, claim: Claim)
    requires claim in w.claims
    ensures claim !in ClaimsWithoutItem(w, itemId) <==> w.cascades && claim.queueItemId == itemId
  {
    FilterMembers(w.claims, OffItem(itemId));
  }

  lemma PlacedClaims(w: World, row: Row, name: Option<string>, env: RequestEnv, claim: Claim)
    requires claim in w.claims && claim.queueItemId != row.id
    ensures claim in PlaceRequest(w, row, name, env).0.claims
  {
    var w1, placed := InsertRequest(w, row, name, env), PlaceRequest(w, row, name, env).0;
    assert claim in w1.claims;
    assert placed.claims == w1.claims || placed.claims == ClaimsWithoutItem(w1, row.id);
    KeptByCascade(w1, row.id, claim);
  }

  lemma RequestKeepsClaims(w: World, token: string, track: Track, karaoke: Option<string>, env: RequestEnv,
                           claim: Claim)
    requires StoreOk(w) && env.itemId !in w.issued && claim in w.claims
    ensures claim in RequestTrack(w, token, track, karaoke, env).0.claims
  {
    var admitted := AdmitRequest(w, token, track, karaoke, env);
    if admitted.Ok? {
      var (session, guestId, name) := admitted.value;
      PlacedClaims(w, NewRow(w.sid, session, guestId, track, env), name, env, claim);
    }
  }

  /** Does the claim go down with its item, in a store that cascades? */
  predicate GoesWithItem(w: World, c: Command, claim: Claim) {
    w.cascades && claim.queueItemId in w.items.at && RemovedByOwner(w, c, claim.queueItemId)
  }

  lemma RemoveOwnClaimExactly(w: World, itemId: string, token: string, now: int, claim: Claim)
    requires StoreOk(w) && claim in w.claims
    ensures claim !in RemoveOwn(w, itemId, token, now).0.claims <==> GoesWithItem(w, CRemoveOwn(itemId, token), claim)
  {
    KeptByCascade(w, itemId, claim);
    if itemId in w.items.at {
      RemoveOwnExactly(w, itemId, token, now, itemId);
    }
    var w' := RemoveOwn(w, itemId, token, now).0;
    assert w' == w || w' == DeleteRow(w, itemId, now);
  }

  /** A stored claim goes if and only if the host removes it, its own guest does while the item waits, or
      its item is removed from a store that cascades. */
  lemma ClaimLeavesExactly(w: World, c: Command, now: int, claim: Claim)
    requires StoreOk(w) && Plausible(w, c, now) && claim in w.claims
    ensures claim !in Step(w, c, now).claims <==> ClaimGivenUp(w, c, claim) || GoesWithItem(w, c, claim)
  {
    match c
    case CRemoveClaim(token, itemId) =>
      assert Step(w, c, now).claims == RemoveClaim(w, token, itemId, now).0.claims;
      RemovedClaimExactly(w, token, itemId, now, claim);
    case CHostRemoveClaim(itemId, guestId) =>
      assert Step(w, c, now).claims == HostRemoveClaim(w, itemId, guestId, now).0.claims;
      HostRemovedClaimExactly(w, itemId, guestId, now, claim);
    case CRemoveOwn(itemId, token) =>
      assert Step(w, c, now).claims == RemoveOwn(w, itemId, token, now).0.claims;
      RemoveOwnClaimExactly(w, itemId, token, now, claim);
    case CRequest(token, track, karaoke, env) =>
      assert Step(w, c, now).claims == RequestTrack(w, token, track, karaoke, env.(now := now)).0.claims;
      RequestKeepsClaims(w, token, track, karaoke, env.(now := now), claim);
    case CClaim(token, itemId, rawName, claimId) =>
      assert Step(w, c, now).claims == ClaimMic(w, token, itemId, rawName, now, claimId).0.claims;
      ClaimMicKeepsClaims(w, token, itemId, rawName, now, claimId);
    case _ => OtherStepClaims(w, c, now);
  }
}

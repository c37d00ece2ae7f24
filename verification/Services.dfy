/** The queue and karaoke services over the shared stores and room. Each public method is proved to
    take the session's state exactly where the specification of its command says. */
module Services {
  import opened Collections
  import opened QueueTypes
  import opened Snapshot
  import opened Stores
  import L = LiveSession
  import C = Claims
  import A = Admission
  import Text

  class QueueService {
    const sessionId: string
    const queueItems: InMemoryQueueItemRepository
    const queueSkipVotes: InMemoryQueueSkipVoteRepository
    const karaokeClaims: InMemoryKaraokeClaimRepository
    const room: NodeSessionRoom
    var directory: L.Directory

    constructor (sessionId: string, queueItems: InMemoryQueueItemRepository,
                 queueSkipVotes: InMemoryQueueSkipVoteRepository,
                 karaokeClaims: InMemoryKaraokeClaimRepository, room: NodeSessionRoom, directory: L.Directory)
      requires queueSkipVotes.queueItems == queueItems && room.Valid()
      requires forall id :: id in queueItems.rows.at ==> queueItems.rows.at[id].id == id
      ensures this.sessionId == sessionId && this.queueItems == queueItems && this.queueSkipVotes == queueSkipVotes
      ensures this.karaokeClaims == karaokeClaims && this.room == room && this.directory == directory
      ensures Valid()
    {
      this.sessionId := sessionId;
      this.queueItems := queueItems;
      this.queueSkipVotes := queueSkipVotes;
      this.karaokeClaims := karaokeClaims;
      this.room := room;
      this.directory := directory;
    }

    ghost predicate Valid()
      reads this, queueItems, queueSkipVotes, room
    {
      && room.Valid() && queueSkipVotes.queueItems == queueItems
      && forall id :: id in queueItems.rows.at ==> queueItems.rows.at[id].id == id
    }

    /** The session as the stores hold it; `beside` supplies what this service cannot see. */
    ghost function World(beside: L.World): L.World
      reads this, queueItems, queueSkipVotes, karaokeClaims, room
    {
      beside.(sid := sessionId, dir := directory, items := queueItems.rows, votes := queueSkipVotes.rows,
              claims := karaokeClaims.rows, snap := room.snapshot, cascades := false)
    }

    /** The stores and the room are where `w` says. */
    ghost predicate Matches(w: L.World)
      reads this, queueItems, queueSkipVotes, karaokeClaims, room
    {
      && directory == w.dir && queueItems.rows == w.items && queueSkipVotes.rows == w.votes
      && karaokeClaims.rows == w.claims && room.snapshot == w.snap
    }

    method AdmitRequest(token: string, track: Track, karaoke: Option<string>, env: L.RequestEnv, ghost beside: L.World)
      returns (r: Result<(Session, string, Option<string>), L.Refusal>)
      requires Valid()
      ensures r == L.AdmitRequest(World(beside), token, track, karaoke, env)
    {
      var actor := L.ResolveActor(directory, sessionId, token);
      if actor.Err? {
        return Err(actor.error);
      }
      var (session, guestId) := actor.value;
      var existing := queueItems.FindAllForSession(sessionId);
      var decision := A.CanEnqueue(session, guestId, sessionId, existing, env.now, track.uri);
      if decision.Some? {
        return Err(L.NotAdmitted(decision.value));
      }
      if session.karaokeMode.KaraokeRequired? && karaoke.None? {
        return Err(L.KaraokeClaimRequired);
      }
      var name: Option<string> := None;
      if karaoke.Some? {
        if session.karaokeMode.KaraokeOff? {
          return Err(L.KaraokeDisabled);
        }
        name := Text.SanitizeDisplayName(karaoke.value);
        if name.None? {
          return Err(L.InvalidDisplayName);
        }
      }
      if !session.moderationEnabled && env.limitedUntil.Some? {
        return Err(L.ProviderRateLimited(Some(L.RetryAfterSec(env.limitedUntil.value, env.now))));
      }
      r := Ok((session, guestId, name));
    }

    /** Write the row and the bundled claim, then announce both. */
    method InsertRequest(row: Row, name: Option<string>, env: L.RequestEnv, ghost beside: L.World)
      requires Valid() && row.id == env.itemId && row.id !in queueItems.rows.at
      requires forall c :: c in karaokeClaims.rows ==> c.queueItemId != row.id
      modifies queueItems, karaokeClaims, room
      ensures Valid() && Matches(L.InsertRequest(old(World(beside)), row, name, env))
    {
      queueItems.Create(row);
      var singers := [];
      if name.Some? {
        var created := karaokeClaims.Create(Claim(env.claimId, sessionId, row.id, row.guestId, name.value, env.now));
        singers := [ClaimSummary(row.guestId, name.value)];
      }
      room.Publish(ItemRequested(L.ToSummary(row, singers)), env.now);
      if name.Some? {
        room.Publish(ClaimAdded(row.id, singers[0]), env.now);
      }
    }

    /** Insert the row; unless it waits for the host, announce it and push it to the provider. A push
        that trips the provider's rate limit rolls the request back. */
    method PlaceRequest(row: Row, name: Option<string>, env: L.RequestEnv, ghost beside: L.World)
      returns (r: Result<Row, L.Refusal>)
      requires Valid() && row.id == env.itemId && row.id !in queueItems.rows.at
      requires forall c :: c in karaokeClaims.rows ==> c.queueItemId != row.id
      modifies queueItems, karaokeClaims, room
      ensures Valid()
      ensures Matches(L.PlaceRequest(old(World(beside)), row, name, env).0)
      ensures r == L.PlaceRequest(old(World(beside)), row, name, env).1
    {
      InsertRequest(row, name, env, beside);
      if row.status.Pending? {
        return Ok(row);
      }
      room.Publish(ItemApproved(row.id), env.now);
      if env.push.PushRateLimited? {
        queueItems.Delete(row.id);
        room.Publish(ItemRemoved(row.id), env.now);
        return Err(L.ProviderRateLimited(env.push.retryAfterSec));
      }
      r := Ok(row);
    }

    /** Guest action: request a track. */
    method RequestTrack(token: string, track: Track, karaoke: Option<string>, env: L.RequestEnv, ghost beside: L.World)
      returns (r: Result<Row, L.Refusal>)
      requires Valid() && env.itemId !in queueItems.rows.at
      requires forall c :: c in karaokeClaims.rows ==> c.queueItemId != env.itemId
      modifies queueItems, karaokeClaims, room
      ensures Valid()
      ensures Matches(L.RequestTrack(old(World(beside)), token, track, karaoke, env).0)
      ensures r == L.RequestTrack(old(World(beside)), token, track, karaoke, env).1
    {
      var admitted := AdmitRequest(token, track, karaoke, env, beside);
      if admitted.Err? {
        return Err(admitted.error);
      }
      var (session, guestId, name) := admitted.value;
      r := PlaceRequest(L.NewRow(sessionId, session, guestId, track, env), name, env, beside);
    }

    /** Host action: approve or reject. */
    method Moderate(itemId: string, approve: bool, now: int, limitedUntil: Option<int>, ghost beside: L.World)
      returns (r: Result<Row, L.Refusal>)
      requires Valid()
      modifies queueItems, room
      ensures Valid()
      ensures Matches(L.Moderate(old(World(beside)), itemId, approve, now, limitedUntil).0)
      ensures r == L.Moderate(old(World(beside)), itemId, approve, now, limitedUntil).1
    {
      var item := queueItems.FindById(itemId);
      if item.None? {
        return Err(L.ItemNotFound);
      }
      if item.value.sessionId != sessionId {
        return Err(L.ItemSessionMismatch);
      }
      if approve && directory.session.Some? && limitedUntil.Some? {
        return Err(L.ProviderRateLimited(Some(L.RetryAfterSec(limitedUntil.value, now))));
      }
      var updated := queueItems.SetStatus(itemId, if approve then Approved else Rejected, Some(now));
      room.Publish(if approve then ItemApproved(itemId) else ItemRejected(itemId), now);
      r := Ok(updated.value);
    }

    /** Guest action: remove an own item that is not playing. */
    method RemoveOwn(itemId: string, token: string, now: int, ghost beside: L.World)
      returns (refused: Option<L.Refusal>)
      requires Valid()
      modifies queueItems, room
      ensures Valid()
      ensures Matches(L.RemoveOwn(old(World(beside)), itemId, token, now).0)
      ensures refused == L.RemoveOwn(old(World(beside)), itemId, token, now).1
    {
      var slot := L.ResolveSlot(directory, sessionId, token, false);
      if slot.Err? {
        return Some(slot.error);
      }
      var guest := L.ResolveGuest(directory, sessionId, slot.value);
      if guest.Err? {
        return Some(guest.error);
      }
      var item := queueItems.FindById(itemId);
      if item.None? {
        return Some(L.ItemNotFound);
      }
      if item.value.sessionId != sessionId {
        return Some(L.ItemSessionMismatch);
      }
      if item.value.guestId != guest.value {
        return Some(L.NotOwner);
      }
      if item.value.status.Playing? {
        return Some(L.ItemPlaying);
      }
      queueItems.Delete(itemId);
      room.Publish(ItemRemoved(itemId), now);
      refused := None;
    }

    /** The checks of a vote, up to the ledger. */
    method AdmitVote(itemId: string, token: string, ghost beside: L.World)
      returns (r: Result<(Session, string, Row), L.Refusal>)
      ensures L.AdmitVote(World(beside), itemId, token) ==
        if r.Ok? && (itemId, r.value.1) in queueSkipVotes.rows then Err(L.AlreadyVoted) else r
      ensures r.Ok? ==> itemId in queueItems.rows.at && r.value.2 == queueItems.rows.at[itemId]
    {
      var slot := L.ResolveSlot(directory, sessionId, token, false);
      if slot.Err? {
        return Err(slot.error);
      }
      if directory.session.None? {
        return Err(L.SessionNotFound);
      }
      var item := L.ResolveItem(queueItems.rows, sessionId, itemId);
      if item.Err? {
        return Err(item.error);
      }
      var guest := L.ResolveGuest(directory, sessionId, slot.value);
      if guest.Err? {
        return Err(guest.error);
      }
      r := Ok((directory.session.value, guest.value, item.value));
    }

    /** Announce the count; the threshold rejects the item in the automatic modes. */
    method AfterVote(session: Session, guestId: string, item: Row, votes: nat, now: int, ghost before: L.World)
      requires Valid() && item.id in queueItems.rows.at && before.sid == sessionId && before.dir == directory
      requires votes == item.skipVotes + 1 && queueItems.rows == before.items.Put(item.id, L.Voted(item))
      requires queueSkipVotes.rows == before.votes + {(item.id, guestId)}
      requires karaokeClaims.rows == before.claims && room.snapshot == before.snap
      modifies queueItems, room
      ensures Valid() && Matches(L.RecordVote(before, session, guestId, item, now))
    {
      room.Publish(SkipVoteUpdated(item.id, votes, session.voteSkipThreshold), now);
      if votes >= session.voteSkipThreshold && (session.voteSkipMode.Fixed? || session.voteSkipMode.Percentage?) {
        var updated := queueItems.SetStatus(item.id, Rejected, Some(now));
        if updated.Some? {
          room.Publish(ItemRejected(item.id), now);
        }
      }
    }

    /** Guest action: vote to skip. */
    method CastSkipVote(itemId: string, token: string, now: int, ghost beside: L.World)
      returns (r: Result<nat, L.Refusal>)
      requires Valid()
      modifies queueItems, queueSkipVotes, room
      ensures Valid()
      ensures Matches(L.CastSkipVote(old(World(beside)), itemId, token, now).0)
      ensures r == L.CastSkipVote(old(World(beside)), itemId, token, now).1
    {
      var admitted := AdmitVote(itemId, token, beside);
      if admitted.Err? {
        return Err(admitted.error);
      }
      var (session, guestId, item) := admitted.value;
      var inserted, votes := queueSkipVotes.RecordVote(itemId, guestId);
      if !inserted {
        return Err(L.AlreadyVoted);
      }
      AfterVote(session, guestId, item, votes, now, old(World(beside)));
      r := Ok(votes);
    }
  }

  class KaraokeService {
    const sessionId: string
    const queueItems: InMemoryQueueItemRepository
    const karaokeClaims: InMemoryKaraokeClaimRepository
    const room: NodeSessionRoom
    var directory: L.Directory
    var karaokeState: KaraokeState

    constructor (sessionId: string, queueItems: InMemoryQueueItemRepository,
                 karaokeClaims: InMemoryKaraokeClaimRepository,
                 room: NodeSessionRoom, directory: L.Directory)
      requires room.Valid()
      ensures this.sessionId == sessionId && this.queueItems == queueItems && this.karaokeClaims == karaokeClaims
      ensures this.room == room && this.directory == directory && karaokeState == NO_KARAOKE
    {
      this.sessionId := sessionId;
      this.queueItems := queueItems;
      this.karaokeClaims := karaokeClaims;
      this.room := room;
      this.directory := directory;
      karaokeState := NO_KARAOKE;
    }

    ghost function World(beside: L.World): L.World
      reads this, queueItems, karaokeClaims, room
    {
      beside.(sid := sessionId, dir := directory, items := queueItems.rows, claims := karaokeClaims.rows,
              karaoke := karaokeState, snap := room.snapshot, cascades := false)
    }

    ghost predicate Matches(w: L.World)
      reads this, queueItems, karaokeClaims, room
    {
      && directory == w.dir && queueItems.rows == w.items && karaokeClaims.rows == w.claims
      && karaokeState == w.karaoke && room.snapshot == w.snap
    }

    method AdmitClaim(token: string, itemId: string, rawName: string, ghost beside: L.World)
      returns (r: Result<(string, string), L.Refusal>)
      ensures r == L.AdmitClaim(World(beside), token, itemId, rawName)
    {
      var actor := L.ResolveActor(directory, sessionId, token);
      if actor.Err? {
        return Err(actor.error);
      }
      var (session, guestId) := actor.value;
      var item := L.ResolveItem(queueItems.rows, sessionId, itemId);
      if item.Err? {
        return Err(item.error);
      }
      var name := Text.SanitizeDisplayName(rawName);
      if name.None? {
        return Err(L.InvalidDisplayName);
      }
      var existing := karaokeClaims.FindAllForItem(itemId);
      var decision := A.CanClaimMic(session, item.value, existing, guestId);
      if decision.Some? {
        return Err(L.MicRefused(decision.value));
      }
      r := Ok((guestId, name.value));
    }

    /** Guest action: claim a mic. */
    method Claim(token: string, itemId: string, rawName: string, now: int, claimId: string, ghost beside: L.World)
      returns (r: Result<QueueTypes.Claim, L.Refusal>)
      requires room.Valid()
      requires forall id :: id in queueItems.rows.at ==> queueItems.rows.at[id].id == id
      modifies karaokeClaims, room
      ensures room.Valid()
      ensures Matches(L.ClaimMic(old(World(beside)), token, itemId, rawName, now, claimId).0)
      ensures r == L.ClaimMic(old(World(beside)), token, itemId, rawName, now, claimId).1
    {
      var admitted := AdmitClaim(token, itemId, rawName, beside);
      if admitted.Err? {
        return Err(admitted.error);
      }
      var (guestId, name) := admitted.value;
      AdmittedIsNew(token, itemId, rawName, beside);
      var claim := QueueTypes.Claim(claimId, sessionId, itemId, guestId, name, now);
      InsertClaim(claim, beside);
      r := Ok(claim);
    }

    method InsertClaim(claim: QueueTypes.Claim, ghost beside: L.World)
      requires room.Valid() && C.FindClaim(karaokeClaims.rows, claim.queueItemId, claim.guestId).None?
      modifies karaokeClaims, room
      ensures room.Valid() && Matches(L.AddClaim(old(World(beside)), claim))
    {
      var created := karaokeClaims.Create(claim);
      room.Publish(ClaimAdded(claim.queueItemId, ClaimSummary(claim.guestId, claim.displayName)), claim.createdAt);
    }

    /** What the gate accepts the store accepts. */
    lemma AdmittedIsNew(token: string, itemId: string, rawName: string, beside: L.World)
      requires L.AdmitClaim(World(beside), token, itemId, rawName).Ok?
      requires forall id :: id in queueItems.rows.at ==> queueItems.rows.at[id].id == id
      ensures C.FindClaim(karaokeClaims.rows, itemId, L.AdmitClaim(World(beside), token, itemId, rawName).value.0).None?
    {
      L.GateMeans(directory.session.value, queueItems.rows.at[itemId], karaokeClaims.rows,
                  L.AdmitClaim(World(beside), token, itemId, rawName).value.0);
    }

    method Drop(claim: QueueTypes.Claim, now: int, ghost beside: L.World)
      requires room.Valid()
      modifies karaokeClaims, room
      ensures room.Valid() && Matches(L.DropClaim(old(World(beside)), claim, now))
    {
      karaokeClaims.Delete(claim.id);
      room.Publish(ClaimRemoved(claim.queueItemId, claim.guestId), now);
    }

    /** Guest action: give up an own claim while the item waits. */
    method RemoveClaim(token: string, itemId: string, now: int, ghost beside: L.World)
      returns (refused: Option<L.Refusal>)
      requires room.Valid()
      modifies karaokeClaims, room
      ensures room.Valid()
      ensures Matches(L.RemoveClaim(old(World(beside)), token, itemId, now).0)
      ensures refused == L.RemoveClaim(old(World(beside)), token, itemId, now).1
    {
      var actor := L.ResolveActor(directory, sessionId, token);
      if actor.Err? {
        return Some(actor.error);
      }
      var item := L.ResolveItem(queueItems.rows, sessionId, itemId);
      if item.Err? {
        return Some(item.error);
      }
      var claim := karaokeClaims.FindByItemAndGuest(itemId, actor.value.1);
      if claim.None? {
        return Some(L.ClaimNotFound);
      }
      var decision := A.CanRemoveClaim(item.value, claim.value, actor.value.1);
      if decision.Some? {
        return Some(L.RemovalRefused(decision.value));
      }
      Drop(claim.value, now, beside);
      refused := None;
    }

    /** Host action: remove anybody's claim at any time. */
    method HostRemoveClaim(itemId: string, guestId: string, now: int, ghost beside: L.World)
      returns (refused: Option<L.Refusal>)
      requires room.Valid()
      modifies karaokeClaims, room
      ensures room.Valid()
      ensures Matches(L.HostRemoveClaim(old(World(beside)), itemId, guestId, now).0)
      ensures refused == L.HostRemoveClaim(old(World(beside)), itemId, guestId, now).1
    {
      var item := L.ResolveItem(queueItems.rows, sessionId, itemId);
      if item.Err? {
        return Some(item.error);
      }
      var claim := karaokeClaims.FindByItemAndGuest(itemId, guestId);
      if claim.None? {
        return Some(L.ClaimNotFound);
      }
      Drop(claim.value, now, beside);
      refused := None;
    }

    /** The candidate search: oldest first, the first row of the track that somebody sings. */
    method FindSpotlight(uri: string) returns (found: Option<Row>, singers: seq<ClaimSummary>)
      ensures found == L.FirstClaimed(L.SessionRows(queueItems.rows, sessionId), karaokeClaims.rows, uri)
      ensures singers == if found.Some? then C.Singers(karaokeClaims.rows, found.value.id) else []
    {
      var items := queueItems.FindAllForSession(sessionId);
      var i := 0;
      while i < |items|
        invariant 0 <= i <= |items|
        invariant L.FirstClaimed(items[i..], karaokeClaims.rows, uri) == L.FirstClaimed(items, karaokeClaims.rows, uri)
      {
        assert items[i..][1..] == items[i + 1..];
        if L.SpotlightCandidate(items[i], uri) {
          var claims := karaokeClaims.FindAllForItem(items[i].id);
          if claims != [] {
            return Some(items[i]), C.Summaries(claims);
          }
        }
        i := i + 1;
      }
      found, singers := None, [];
    }

    method SetSpotlight(target: Option<string>, singers: seq<ClaimSummary>, now: int, ghost beside: L.World)
      requires room.Valid()
      requires singers == if target.Some? then C.Singers(karaokeClaims.rows, target.value) else []
      modifies this`karaokeState, room
      ensures room.Valid() && Matches(L.SetSpotlight(old(World(beside)), target, now))
    {
      karaokeState := karaokeState.(spotlightItemId := target);
      karaokeState := karaokeState.(paused := false);
      karaokeState := karaokeState.(pausedUntilEpochMs := None);
      room.Publish(Spotlight(target, singers), now);
    }

    method SetPaused(itemId: string, until: int, now: int, ghost beside: L.World)
      requires room.Valid() && karaokeState.spotlightItemId == Some(itemId)
      modifies this`karaokeState, room
      ensures room.Valid() && Matches(L.SetPaused(old(World(beside)), itemId, until, now))
    {
      karaokeState := karaokeState.(paused := true);
      karaokeState := karaokeState.(pausedUntilEpochMs := Some(until));
      room.Publish(KaraokePaused(itemId, until), now);
    }

    /** Where the spotlight goes for `uri`: nowhere new, or to an item with its singers. */
    method PlanMove(uri: Option<string>, now: int, ghost beside: L.World)
      returns (m: L.SpotlightMove, singers: seq<ClaimSummary>)
      ensures m == L.TrackChangeMove(World(beside), uri, now)
      ensures m.MoveTo? ==> singers == if m.target.Some? then C.Singers(karaokeClaims.rows, m.target.value) else []
    {
      if directory.session.Some? && directory.session.value.karaokeMode.KaraokeOff? {
        return if karaokeState.spotlightItemId.Some? then L.MoveTo(None, None) else L.Stay, [];
      }
      var target: Option<string> := None;
      singers := [];
      if uri.Some? {
        var row, found := FindSpotlight(uri.value);
        if row.Some? {
          target, singers := Some(row.value.id), found;
        }
      }
      if target == karaokeState.spotlightItemId {
        return L.Stay, [];
      }
      var holds := target.Some? && directory.session.Some? && directory.session.value.karaokePauseMode.PauseAuto?;
      m := L.MoveTo(target, if holds then Some(now + directory.session.value.karaokePauseTimeoutSec * 1000) else None);
    }

    /** Poller hook: the playing track changed or stopped. */
    method HandleTrackChange(uri: Option<string>, now: int, ghost beside: L.World)
      requires room.Valid()
      modifies this`karaokeState, room
      ensures room.Valid() && Matches(L.HandleTrackChange(old(World(beside)), uri, now))
    {
      var move, singers := PlanMove(uri, now, beside);
      if move.MoveTo? {
        SetSpotlight(move.target, singers, now, beside);
        if move.holdUntil.Some? {
          SetPaused(move.target.value, move.holdUntil.value, now, L.SetSpotlight(old(World(beside)), move.target, now));
        }
      }
    }

    method ClearPauseAndBroadcast(now: int, ghost beside: L.World)
      requires room.Valid()
      modifies this`karaokeState, room
      ensures room.Valid() && Matches(L.ClearPause(old(World(beside)), now))
    {
      var itemId := karaokeState.spotlightItemId;
      karaokeState := karaokeState.(paused := false);
      karaokeState := karaokeState.(pausedUntilEpochMs := None);
      if itemId.Some? {
        room.Publish(KaraokeResumed(itemId.value), now);
      }
    }

    /** Poller hook: every tick. */
    method ReconcilePlayback(isPlaying: bool, now: int, ghost beside: L.World)
      requires room.Valid()
      modifies this`karaokeState, room
      ensures room.Valid() && Matches(L.ReconcilePlayback(old(World(beside)), isPlaying, now))
    {
      if !karaokeState.paused {
        return;
      }
      if isPlaying {
        ClearPauseAndBroadcast(now, beside);
      } else if karaokeState.pausedUntilEpochMs.Some? && now > karaokeState.pausedUntilEpochMs.value {
        ClearPauseAndBroadcast(now, beside);
      }
    }

    method RequireSpotlightClaim(token: string, ghost beside: L.World) returns (r: Result<(Session, string), L.Refusal>)
      ensures r == L.SpotlightClaimer(World(beside), token)
    {
      var actor := L.ResolveActor(directory, sessionId, token);
      if actor.Err? {
        return Err(actor.error);
      }
      if karaokeState.spotlightItemId.None? {
        return Err(L.NotAClaimer);
      }
      var itemId := karaokeState.spotlightItemId.value;
      var claim := karaokeClaims.FindByItemAndGuest(itemId, actor.value.1);
      if claim.None? {
        return Err(L.NotAClaimer);
      }
      r := Ok((actor.value.0, itemId));
    }

    /** Guest action: hold playback. */
    method Pause(token: string, now: int, ghost beside: L.World) returns (r: Result<int, L.Refusal>)
      requires room.Valid()
      modifies this`karaokeState, room
      ensures room.Valid() && Matches(L.Pause(old(World(beside)), token, now).0)
      ensures r == L.Pause(old(World(beside)), token, now).1
    {
      var claimer := RequireSpotlightClaim(token, beside);
      if claimer.Err? {
        return Err(claimer.error);
      }
      var (session, itemId) := claimer.value;
      if !session.karaokePauseMode.PauseManual? {
        return Err(L.PauseDisabled);
      }
      var until := now + session.karaokePauseTimeoutSec * 1000;
      SetPaused(itemId, until, now, beside);
      r := Ok(until);
    }

    /** Guest action: release the hold. */
    method Ready(token: string, now: int, ghost beside: L.World) returns (refused: Option<L.Refusal>)
      requires room.Valid()
      modifies this`karaokeState, room
      ensures room.Valid() && Matches(L.Ready(old(World(beside)), token, now).0)
      ensures refused == L.Ready(old(World(beside)), token, now).1
    {
      var claimer := RequireSpotlightClaim(token, beside);
      if claimer.Err? {
        return Some(claimer.error);
      }
      if !karaokeState.paused {
        return Some(L.NotPaused);
      }
      ClearPauseAndBroadcast(now, beside);
      refused := None;
    }
  }

  // ---------------------------------------------------------------- the realtime route

  class RealtimeRoute {
    const room: NodeSessionRoom
    const queueItems: InMemoryQueueItemRepository
    const karaokeClaims: InMemoryKaraokeClaimRepository
    var hydrated: bool

    constructor (room: NodeSessionRoom, queueItems: InMemoryQueueItemRepository,
                 karaokeClaims: InMemoryKaraokeClaimRepository)
      ensures this.room == room && this.queueItems == queueItems && this.karaokeClaims == karaokeClaims && !hydrated
    {
      this.room := room;
      this.queueItems := queueItems;
      this.karaokeClaims := karaokeClaims;
      hydrated := false;
    }

    /** The block every first subscriber runs: fold the stored rows into the room's lists, once. */
    method HydrateOnce(ghost beside: L.World)
      requires beside.sid == room.sessionId && beside.items == queueItems.rows && beside.claims == karaokeClaims.rows
      requires beside.snap == room.snapshot
      modifies this`hydrated, room`snapshot
      ensures hydrated
      ensures room.snapshot == if old(hydrated) then old(room.snapshot) else L.Hydrate(beside).snap
    {
      if hydrated {
        return;
      }
      var items := queueItems.FindAllForSession(room.sessionId);
      var sessionClaims := karaokeClaims.FindAllForSession(room.sessionId);
      var current := room.snapshot;
      var pending, queue := current.pending, current.queue;
      var seen := L.SeenIds(current);
      for i := 0 to |items|
        invariant (pending, queue) == L.HydrateLists(items[..i], seen, sessionClaims, current.pending, current.queue)
      {
        assert Init(items[..i + 1]) == items[..i] && Last(items[..i + 1]) == items[i];
        var item := items[i];
        if item.id in seen {
          continue;
        }
        var summary := L.ToSummary(item, C.GroupedSingers(sessionClaims, item.id));
        if item.status.Pending? {
          pending := pending + [summary];
        } else if item.status.Approved? || item.status.Queued? || item.status.Playing? {
          queue := queue + [summary];
        }
      }
      assert items[..|items|] == items;
      room.SetSnapshot(current.(pending := pending, queue := queue));
      hydrated := true;
    }
  }
}

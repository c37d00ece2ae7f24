/** One live session as data: the stores, the karaoke state and the room's snapshot, and what each
    service call does to them. A call is one atomic step; what the environment decides (the clock,
    fresh ids, the provider's answers) is part of the command. */
module LiveSession {
  import opened Collections
  import opened QueueTypes
  import opened Snapshot
  import opened Claims
  import Admission
  import Reconcile
  import Text

  datatype Slot = Slot(sessionId: string, active: bool, fingerprint: string)

  /** What slot tokens, fingerprints and the session id resolve to. Guests are keyed by session and
      fingerprint. */
  datatype Directory = Directory(
    slots: map<string, Slot>, guests: map<(string, string), string>, session: Option<Session>)

  datatype World = World(
    sid: string,
    dir: Directory,
    items: OrderedMap<string, Row>,
    votes: set<(string, string)>,
    claims: seq<Claim>,
    karaoke: KaraokeState,
    snap: Snapshot,
    issued: set<string>,   // every id the generator has handed out
    clock: int,            // the latest instant any call has seen
    cascades: bool)        // does the store delete an item's claims with the item?

  datatype Refusal =
    | UnknownSlotToken | SlotSessionMismatch | SlotNotActive | SessionNotFound | GuestNotFound
    | NotAdmitted(why: Admission.EnqueueRefusal)
    | KaraokeClaimRequired | KaraokeDisabled | InvalidDisplayName
    | ProviderRateLimited(retryAfterSec: Option<int>)
    | ItemNotFound | ItemSessionMismatch | NotOwner | ItemPlaying | AlreadyVoted
    | ClaimNotFound | MicRefused(mic: Admission.MicRefusal) | RemovalRefused(removal: Admission.RemoveRefusal)
    | NotAClaimer | PauseDisabled | NotPaused

  /** The provider's answer to a queue push. */
  datatype Push = Pushed | Skipped | Failed | PushRateLimited(retryAfterSec: Option<int>)

  // ---------------------------------------------------------------- shared pieces

  function ToSummary(row: Row, singers: seq<ClaimSummary>): ItemSummary {
    ItemSummary(row.id, row.guestId, row.trackUri, row.trackName, row.artistName, row.albumArtUrl,
                row.durationMs, row.status, row.skipVotes, row.createdAt, row.decidedAt, singers)
  }

  predicate RowOrder(a: Row, b: Row) {
    a.createdAt <= b.createdAt
  }

  function OfSession(sid: string): Row -> bool {
    (r: Row) => r.sessionId == sid
  }

  /** `findAllForSession`: oldest first, ties in insertion order. */
  function SessionRows(items: OrderedMap<string, Row>, sid: string): seq<Row> {
    StableSort(Filter(items.Values(), OfSession(sid)), RowOrder)
  }

  /** `room.publish`: fold the event, then restamp the snapshot. */
  function Published(s: Snapshot, e: Event, now: int): Snapshot {
    ApplyEvent(s, e).(snapshotAtEpochMs := now)
  }

  function Publish(w: World, e: Event, now: int): World {
    w.(snap := Published(w.snap, e, now))
  }

  /** Seconds until the window closes, rounded up, at least one. */
  function RetryAfterSec(until: int, now: int): (sec: int) {
    var c := CeilDiv(until - now, 1000);
    if c < 1 then 1 else c
  }

  /** `Math.ceil(a / b)` for positive `b`. */
  function CeilDiv(a: int, b: int): (q: int)
    requires b > 0
    ensures b * (q - 1) < a <= b * q
  {
    -((-a) / b)
  }

  /** The slot lookup every guest action starts with. `needActive` is false for the actions that
      accept a waiting slot. */
  function ResolveSlot(dir: Directory, sid: string, token: string, needActive: bool): Result<Slot, Refusal> {
    if token !in dir.slots then Err(UnknownSlotToken)
    else if dir.slots[token].sessionId != sid then Err(SlotSessionMismatch)
    else if needActive && !dir.slots[token].active then Err(SlotNotActive)
    else Ok(dir.slots[token])
  }

  function ResolveGuest(dir: Directory, sid: string, slot: Slot): Result<string, Refusal> {
    if (sid, slot.fingerprint) in dir.guests then Ok(dir.guests[(sid, slot.fingerprint)]) else Err(GuestNotFound)
  }

  /** Slot, then session, then guest. */
  function ResolveActor(dir: Directory, sid: string, token: string): Result<(Session, string), Refusal> {
    match ResolveSlot(dir, sid, token, true)
    case Err(e) => Err(e)
    case Ok(slot) =>
      if dir.session.None? then Err(SessionNotFound) else
        match ResolveGuest(dir, sid, slot)
        case Err(e) => Err(e)
        case Ok(guestId) => Ok((dir.session.value, guestId))
  }

  function ResolveItem(items: OrderedMap<string, Row>, sid: string, itemId: string): Result<Row, Refusal> {
    if itemId !in items.at then Err(ItemNotFound)
    else if items.at[itemId].sessionId != sid then Err(ItemSessionMismatch)
    else Ok(items.at[itemId])
  }

  // ---------------------------------------------------------------- queue service

  datatype RequestEnv = RequestEnv(now: int, itemId: string, claimId: string, limitedUntil: Option<int>, push: Push)

  /** Everything that can refuse a request before a row is written; `Ok` carries the session, the
      guest and the sanitized mic name, if one was bundled. */
  function AdmitRequest(w: World, token: string, track: Track, karaoke: Option<string>, env: RequestEnv)
    : Result<(Session, string, Option<string>), Refusal>
  {
    match ResolveActor(w.dir, w.sid, token)
    case Err(e) => Err(e)
    case Ok((session, guestId)) =>
      match Admission.CanEnqueue(session, guestId, w.sid, SessionRows(w.items, w.sid), env.now, track.uri)
      case Some(why) => Err(NotAdmitted(why))
      case None =>
        if session.karaokeMode.KaraokeRequired? && karaoke.None? then Err(KaraokeClaimRequired)
        else if karaoke.Some? && session.karaokeMode.KaraokeOff? then Err(KaraokeDisabled)
        else
          var name := if karaoke.Some? then Text.SanitizeDisplayName(karaoke.value) else None;
          if karaoke.Some? && name.None? then Err(InvalidDisplayName)
          else if !session.moderationEnabled && env.limitedUntil.Some?
            then Err(ProviderRateLimited(Some(RetryAfterSec(env.limitedUntil.value, env.now))))
          else Ok((session, guestId, name))
  }

  function NewRow(sid: string, session: Session, guestId: string, track: Track, env: RequestEnv): Row {
    Row(env.itemId, sid, guestId, track.uri, track.name, track.artist, track.albumArt, Some(track.durationMs),
        if session.moderationEnabled then Pending else Approved, 0, env.now, None)
  }

  /** Row, bundled claim, and the two events announcing them. */
  function InsertRequest(w: World, row: Row, name: Option<string>, env: RequestEnv): World {
    var singers := if name.Some? then [ClaimSummary(row.guestId, name.value)] else [];
    var w1 := SetRow(w.(issued := w.issued + {env.itemId}), row, ItemRequested(ToSummary(row, singers)), env.now);
    if name.None? then w1
    else AddClaim(w1, Claim(env.claimId, w.sid, row.id, row.guestId, name.value, env.now))
  }

  /** A moderated row waits; an approved one is announced and pushed to the provider, and rolled back
      when the push trips the provider's rate limit. */
  function PlaceRequest(w: World, row: Row, name: Option<string>, env: RequestEnv): (World, Result<Row, Refusal>) {
    var w1 := InsertRequest(w, row, name, env);
    if row.status.Pending? then (w1, Ok(row)) else
      var w2 := Publish(w1, ItemApproved(row.id), env.now);
      match env.push
      case PushRateLimited(sec) => (DeleteRow(w2, row.id, env.now), Err(ProviderRateLimited(sec)))
      case _ => (w2, Ok(row))
  }

  function RequestTrack(w: World, token: string, track: Track, karaoke: Option<string>, env: RequestEnv)
    : (World, Result<Row, Refusal>)
  {
    match AdmitRequest(w, token, track, karaoke, env)
    case Err(e) => (w, Err(e))
    case Ok((session, guestId, name)) => PlaceRequest(w, NewRow(w.sid, session, guestId, track, env), name, env)
  }

  /** The claims once the item is gone: a database with foreign keys drops the item's, the in-memory
      store keeps them. */
  function ClaimsWithoutItem(w: World, itemId: string): seq<Claim> {
    if w.cascades then DeleteItemClaims(w.claims, itemId) else w.claims
  }

  function DeleteRow(w: World, itemId: string, now: int): World {
    Publish(w.(items := w.items.Remove(itemId), claims := ClaimsWithoutItem(w, itemId)), ItemRemoved(itemId), now)
  }

  function Moderate(w: World, itemId: string, approve: bool, now: int, limitedUntil: Option<int>)
    : (World, Result<Row, Refusal>)
  {
    match ResolveItem(w.items, w.sid, itemId)
    case Err(e) => (w, Err(e))
    case Ok(item) =>
      if approve && w.dir.session.Some? && limitedUntil.Some?
        then (w, Err(ProviderRateLimited(Some(RetryAfterSec(limitedUntil.value, now)))))
      else
        var row := Decided(item, if approve then Approved else Rejected, now);
        (SetRow(w, row, if approve then ItemApproved(itemId) else ItemRejected(itemId), now), Ok(row))
  }

  function RemoveOwn(w: World, itemId: string, token: string, now: int): (World, Option<Refusal>) {
    match ResolveSlot(w.dir, w.sid, token, false)
    case Err(e) => (w, Some(e))
    case Ok(slot) =>
      match ResolveGuest(w.dir, w.sid, slot)
      case Err(e) => (w, Some(e))
      case Ok(guestId) =>
        match ResolveItem(w.items, w.sid, itemId)
        case Err(e) => (w, Some(e))
        case Ok(item) =>
          if item.guestId != guestId then (w, Some(NotOwner))
          else if item.status.Playing? then (w, Some(ItemPlaying))
          else (DeleteRow(w, itemId, now), None)
  }

  /** Does reaching the threshold reject the item without the host? */
  predicate AutoRejects(session: Session, votes: nat) {
    votes >= session.voteSkipThreshold && (session.voteSkipMode.Fixed? || session.voteSkipMode.Percentage?)
  }

  /** The vote's session, voter and item, in the order the checks run. */
  function AdmitVote(w: World, itemId: string, token: string): Result<(Session, string, Row), Refusal> {
    match ResolveSlot(w.dir, w.sid, token, false)
    case Err(e) => Err(e)
    case Ok(slot) =>
      if w.dir.session.None? then Err(SessionNotFound) else
        match ResolveItem(w.items, w.sid, itemId)
        case Err(e) => Err(e)
        case Ok(item) =>
          match ResolveGuest(w.dir, w.sid, slot)
          case Err(e) => Err(e)
          case Ok(guestId) =>
            if (itemId, guestId) in w.votes then Err(AlreadyVoted) else Ok((w.dir.session.value, guestId, item))
  }

  function SetRow(w: World, row: Row, e: Event, now: int): World {
    Publish(w.(items := w.items.Put(row.id, row)), e, now)
  }

  function Voted(item: Row): Row {
    item.(skipVotes := item.skipVotes + 1)
  }

  function Decided(item: Row, status: Status, now: int): Row {
    item.(status := status, decidedAt := Some(now))
  }

  function RecordVote(w: World, session: Session, guestId: string, item: Row, now: int): World {
    var voted := Voted(item);
    var w1 := SetRow(w.(votes := w.votes + {(item.id, guestId)}), voted,
                     SkipVoteUpdated(item.id, voted.skipVotes, session.voteSkipThreshold), now);
    if AutoRejects(session, voted.skipVotes)
      then SetRow(w1, Decided(voted, Rejected, now), ItemRejected(item.id), now)
    else w1
  }

  function CastSkipVote(w: World, itemId: string, token: string, now: int): (World, Result<nat, Refusal>) {
    match AdmitVote(w, itemId, token)
    case Err(e) => (w, Err(e))
    case Ok((session, guestId, item)) => (RecordVote(w, session, guestId, item, now), Ok(item.skipVotes + 1))
  }

  // ---------------------------------------------------------------- karaoke service

  /** Session, guest and sanitized name of an acceptable mic claim. */
  function AdmitClaim(w: World, token: string, itemId: string, rawName: string): Result<(string, string), Refusal> {
    match ResolveActor(w.dir, w.sid, token)
    case Err(e) => Err(e)
    case Ok((session, guestId)) =>
      match ResolveItem(w.items, w.sid, itemId)
      case Err(e) => Err(e)
      case Ok(item) =>
        match Text.SanitizeDisplayName(rawName)
        case None => Err(InvalidDisplayName)
        case Some(name) =>
          match Admission.CanClaimMic(session, item, ItemClaims(w.claims, itemId), guestId)
          case Some(why) => Err(MicRefused(why))
          case None => Ok((guestId, name))
  }

  /** What a passed mic gate means: an active item, a free mic, and no claim by this guest yet. */
  lemma GateMeans(session: Session, item: Row, claims: seq<Claim>, guestId: string)
    requires Admission.CanClaimMic(session, item, ItemClaims(claims, item.id), guestId).None?
    ensures IsActive(item.status) && |ItemClaims(claims, item.id)| < session.karaokeMicCount
    ensures forall c :: c in claims ==> !(c.queueItemId == item.id && c.guestId == guestId)
    ensures FindClaim(claims, item.id, guestId).None?
  {
    ItemClaimsMembers(claims, item.id);
    FilterAll(ItemClaims(claims, item.id), (c: Claim) => c.queueItemId == item.id);
  }

  function ClaimMic(w: World, token: string, itemId: string, rawName: string, now: int, claimId: string)
    : (World, Result<Claim, Refusal>)
  {
    match AdmitClaim(w, token, itemId, rawName)
    case Err(e) => (w, Err(e))
    case Ok((guestId, name)) =>
      var claim := Claim(claimId, w.sid, itemId, guestId, name, now);
      (AddClaim(w, claim), Ok(claim))
  }

  function AddClaim(w: World, claim: Claim): World {
    Publish(w.(claims := w.claims + [claim], issued := w.issued + {claim.id}),
            ClaimAdded(claim.queueItemId, ClaimSummary(claim.guestId, claim.displayName)), claim.createdAt)
  }

  function DropClaim(w: World, claim: Claim, now: int): World {
    Publish(w.(claims := DeleteClaim(w.claims, claim.id)), ClaimRemoved(claim.queueItemId, claim.guestId), now)
  }

  function RemoveClaim(w: World, token: string, itemId: string, now: int): (World, Option<Refusal>) {
    match ResolveActor(w.dir, w.sid, token)
    case Err(e) => (w, Some(e))
    case Ok((_, guestId)) =>
      match ResolveItem(w.items, w.sid, itemId)
      case Err(e) => (w, Some(e))
      case Ok(item) =>
        match FindClaim(w.claims, itemId, guestId)
        case None => (w, Some(ClaimNotFound))
        case Some(claim) =>
          match Admission.CanRemoveClaim(item, claim, guestId)
          case Some(why) => (w, Some(RemovalRefused(why)))
          case None => (DropClaim(w, claim, now), None)
  }

  function HostRemoveClaim(w: World, itemId: string, guestId: string, now: int): (World, Option<Refusal>) {
    match ResolveItem(w.items, w.sid, itemId)
    case Err(e) => (w, Some(e))
    case Ok(_) =>
      match FindClaim(w.claims, itemId, guestId)
      case None => (w, Some(ClaimNotFound))
      case Some(claim) => (DropClaim(w, claim, now), None)
  }

  predicate SpotlightCandidate(r: Row, uri: string) {
    r.trackUri == uri && IsActive(r.status)
  }

  /** The first row, in the given order, that is a candidate and has a singer. */
  function FirstClaimed(rows: seq<Row>, claims: seq<Claim>, uri: string): (r: Option<Row>)
    ensures r.Some? ==> r.value in rows
  {
    if rows == [] then None
    else if SpotlightCandidate(rows[0], uri) && ItemClaims(claims, rows[0].id) != [] then Some(rows[0])
    else FirstClaimed(rows[1..], claims, uri)
  }

  /** The item the spotlight should be on while `uri` plays. */
  function SpotlightFor(w: World, uri: Option<string>): Option<string> {
    if uri.None? then None else
      match FirstClaimed(SessionRows(w.items, w.sid), w.claims, uri.value)
      case None => None
      case Some(row) => Some(row.id)
  }

  function SetSpotlight(w: World, target: Option<string>, now: int): World {
    var singers := if target.None? then [] else Singers(w.claims, target.value);
    Publish(w.(karaoke := KaraokeState(target, false, None)), Spotlight(target, singers), now)
  }

  function SetPaused(w: World, itemId: string, until: int, now: int): World {
    Publish(w.(karaoke := KaraokeState(Some(itemId), true, Some(until))), KaraokePaused(itemId, until), now)
  }

  /** What a track change does to the spotlight; a move may also hold playback until a deadline. */
  datatype SpotlightMove = Stay | MoveTo(target: Option<string>, holdUntil: Option<int>)

  function TrackChangeMove(w: World, uri: Option<string>, now: int): (m: SpotlightMove)
    ensures m.MoveTo? ==> m.target != w.karaoke.spotlightItemId && (m.holdUntil.Some? ==> m.target.Some?)
  {
    var session := w.dir.session;
    if session.Some? && session.value.karaokeMode.KaraokeOff? then
      if w.karaoke.spotlightItemId.None? then Stay else MoveTo(None, None)
    else
      var target := SpotlightFor(w, uri);
      if target == w.karaoke.spotlightItemId then Stay
      else if target.Some? && session.Some? && session.value.karaokePauseMode.PauseAuto?
        then MoveTo(target, Some(now + session.value.karaokePauseTimeoutSec * 1000))
      else MoveTo(target, None)
  }

  function HandleTrackChange(w: World, uri: Option<string>, now: int): World {
    match TrackChangeMove(w, uri, now)
    case Stay => w
    case MoveTo(target, holdUntil) =>
      var w1 := SetSpotlight(w, target, now);
      if holdUntil.None? then w1 else SetPaused(w1, target.value, holdUntil.value, now)
  }

  /** Clear the hold; the broadcast names the spotlight and is left out when there is none. */
  function ClearPause(w: World, now: int): World {
    var w1 := w.(karaoke := w.karaoke.(paused := false, pausedUntilEpochMs := None));
    if w.karaoke.spotlightItemId.None? then w1
    else Publish(w1, KaraokeResumed(w.karaoke.spotlightItemId.value), now)
  }

  predicate DeadlinePassed(k: KaraokeState, now: int) {
    k.pausedUntilEpochMs.Some? && now > k.pausedUntilEpochMs.value
  }

  function ReconcilePlayback(w: World, isPlaying: bool, now: int): World {
    if w.karaoke.paused && (isPlaying || DeadlinePassed(w.karaoke, now)) then ClearPause(w, now) else w
  }

  /** The guest's standing to hold or release the spotlight item. */
  function SpotlightClaimer(w: World, token: string): Result<(Session, string), Refusal> {
    match ResolveActor(w.dir, w.sid, token)
    case Err(e) => Err(e)
    case Ok((session, guestId)) =>
      if w.karaoke.spotlightItemId.None? || FindClaim(w.claims, w.karaoke.spotlightItemId.value, guestId).None?
        then Err(NotAClaimer)
      else Ok((session, w.karaoke.spotlightItemId.value))
  }

  function Pause(w: World, token: string, now: int): (World, Result<int, Refusal>) {
    match SpotlightClaimer(w, token)
    case Err(e) => (w, Err(e))
    case Ok((session, itemId)) =>
      if !session.karaokePauseMode.PauseManual? then (w, Err(PauseDisabled)) else
        var until := now + session.karaokePauseTimeoutSec * 1000;
        (SetPaused(w, itemId, until, now), Ok(until))
  }

  function Ready(w: World, token: string, now: int): (World, Option<Refusal>) {
    match SpotlightClaimer(w, token)
    case Err(e) => (w, Some(e))
    case Ok(_) => if !w.karaoke.paused then (w, Some(NotPaused)) else (ClearPause(w, now), None)
  }

  // ---------------------------------------------------------------- hydration

  function SeenIds(s: Snapshot): set<string> {
    (set i | i in s.pending :: i.id) + (set i | i in s.queue :: i.id)
  }

  /** The pending and queue lists after folding `rows`, oldest first, into those of the room. */
  function HydrateLists(rows: seq<Row>, seen: set<string>, sessionClaims: seq<Claim>,
                        pending: seq<ItemSummary>, queue: seq<ItemSummary>): (seq<ItemSummary>, seq<ItemSummary>)
  {
    if rows == [] then (pending, queue) else
      var (p, q) := HydrateLists(Init(rows), seen, sessionClaims, pending, queue);
      var r := Last(rows);
      if r.id in seen then (p, q) else
        var item := ToSummary(r, GroupedSingers(sessionClaims, r.id));
        if r.status.Pending? then (p + [item], q)
        else if r.status.Approved? || r.status.Queued? || r.status.Playing? then (p, q + [item])
        else (p, q)
  }

  function Hydrate(w: World): World {
    var (p, q) := HydrateLists(SessionRows(w.items, w.sid), SeenIds(w.snap), SessionClaims(w.claims, w.sid),
                               w.snap.pending, w.snap.queue);
    w.(snap := w.snap.(pending := p, queue := q))
  }

  // ---------------------------------------------------------------- poller

  /** The poller's pass over the stored rows. It writes statuses and publishes nothing about them. */
  function PollerPass(w: World, v: Reconcile.View, skipWorked: bool): World {
    var hit := Reconcile.RejectedHit(SessionRows(w.items, w.sid), v.playing);
    var tombstone := if skipWorked && hit.Some? then Some(hit.value.id) else None;
    w.(items := Reconcile.StoreAfter(w.items, w.sid, v, tombstone))
  }

  // ---------------------------------------------------------------- commands

  datatype Command =
    | CRequest(token: string, track: Track, karaoke: Option<string>, env: RequestEnv)
    | CModerate(itemId: string, approve: bool, limitedUntil: Option<int>)
    | CRemoveOwn(itemId: string, token: string)
    | CVote(itemId: string, token: string)
    | CClaim(token: string, itemId: string, rawName: string, claimId: string)
    | CRemoveClaim(token: string, itemId: string)
    | CHostRemoveClaim(itemId: string, guestId: string)
    | CTrackChange(uri: Option<string>)
    | CReconcilePlayback(isPlaying: bool)
    | CPause(token: string)
    | CReady(token: string)
    | CHydrate
    | CPoll(view: Reconcile.View, skipWorked: bool)
    | COtherEvent(event: Event)      // published by the poller, the slot service, lyrics, settings
    | CDirectory(dir: Directory)     // guests join, slots change, the host edits settings

  function Perform(w: World, c: Command, now: int): World {
    match c
    case CRequest(token, track, karaoke, env) => RequestTrack(w, token, track, karaoke, env.(now := now)).0
    case CModerate(itemId, approve, until) => Moderate(w, itemId, approve, now, until).0
    case CRemoveOwn(itemId, token) => RemoveOwn(w, itemId, token, now).0
    case CVote(itemId, token) => CastSkipVote(w, itemId, token, now).0
    case CClaim(token, itemId, rawName, claimId) => ClaimMic(w, token, itemId, rawName, now, claimId).0
    case CRemoveClaim(token, itemId) => RemoveClaim(w, token, itemId, now).0
    case CHostRemoveClaim(itemId, guestId) => HostRemoveClaim(w, itemId, guestId, now).0
    case CTrackChange(uri) => HandleTrackChange(w, uri, now)
    case CReconcilePlayback(isPlaying) => ReconcilePlayback(w, isPlaying, now)
    case CPause(token) => Pause(w, token, now).0
    case CReady(token) => Ready(w, token, now).0
    case CHydrate => Hydrate(w)
    case CPoll(view, skipWorked) => PollerPass(w, view.(now := now), skipWorked)
    case COtherEvent(event) => Publish(w, event, now)
    case CDirectory(dir) => w.(dir := dir)
  }

  /** One step of the session at `now`. */
  function Step(w: World, c: Command, now: int): World {
    Perform(w, c, now).(clock := now)
  }
}

/** What holds over whole runs of a live session. */
module LiveTheorems {
  import opened Collections
  import opened QueueTypes
  import opened Snapshot
  import opened ItemIndex
  import opened Claims
  import opened LiveSession
  import opened Agreement
  import opened AgreementSteps
  import opened Hydration
  import Reconcile

  // ---------------------------------------------------------------- the poller's silent writes

  function PassStore(w: World, v: Reconcile.View, skipWorked: bool): OrderedMap<string, Row> {
    PollerPass(w, v, skipWorked).items
  }

  /** An approved or playing row past the grace that has started to play, or has left the provider: the
      pass will give it another status. */
  predicate Overdue(r: Row, v: Reconcile.View) {
    && (r.status.Approved? || r.status.Playing?) && v.now - r.createdAt >= Reconcile.RECONCILE_GRACE_MS
    && if v.playing == Some(r.trackUri) then r.status.Approved? else r.trackUri !in v.queued
  }

  /** A pass that finds an overdue row of the session settles it behind the room's back. */
  ghost predicate FindsOverdue(w: World, v: Reconcile.View) {
    exists id :: id in w.items.at && w.items.at[id].sessionId == w.sid && Overdue(w.items.at[id], v)
  }

  lemma PassKeepsRow(w: World, v: Reconcile.View, skipWorked: bool, id: string)
    requires ItemsOk(w.items, w.issued) && id in w.items.at
    ensures var before, after := w.items.at[id], PassStore(w, v, skipWorked).at[id];
      && after.(status := before.status, decidedAt := before.decidedAt) == before
      && (after != before ==> Reconcile.Rank(before.status) < Reconcile.Rank(after.status))
      && (after.status == before.status ==> after == before)
  {
    PassTombstoneGood(w, v, skipWorked);
    var hit := Reconcile.RejectedHit(SessionRows(w.items, w.sid), v.playing);
    Reconcile.WritesRaiseRank(w.items, w.sid, v, if skipWorked && hit.Some? then Some(hit.value.id) else None);
  }

  lemma PassTombstoneGood(w: World, v: Reconcile.View, skipWorked: bool)
    requires ItemsOk(w.items, w.issued)
    ensures var hit := Reconcile.RejectedHit(SessionRows(w.items, w.sid), v.playing);
      Reconcile.GoodTombstone(w.items, w.sid, if skipWorked && hit.Some? then Some(hit.value.id) else None)
  {
    SessionRowsOk(w.items, w.issued, w.sid);
  }

  lemma PassStoreOk(w: World, v: Reconcile.View, skipWorked: bool)
    requires StoreOk(w)
    ensures StoreOk(PollerPass(w, v, skipWorked))
  {
    var w' := PollerPass(w, v, skipWorked);
    forall id | id in w'.items.at
      ensures w'.items.at[id].id == id && id in w'.issued && w'.items.at[id].sessionId == w.items.at[id].sessionId
    {
      PassKeepsRow(w, v, skipWorked, id);
    }
  }

  lemma SelectSame<V>(a: map<string, Row>, b: map<string, Row>, keep: Row -> bool, f: Row -> V)
    requires a.Keys == b.Keys
    requires forall id :: id in a ==> keep(a[id]) == keep(b[id]) && (keep(a[id]) ==> a[id] == b[id])
    ensures Select(a, keep, f) == Select(b, keep, f)
  {
    assert Select(a, keep, f).Keys == Select(b, keep, f).Keys;
  }

  lemma RowSettlesOverdue(r: Row, v: Reconcile.View, tombstone: Option<string>)
    requires IsActive(r.status) && tombstone != Some(r.id)
    ensures var after := Reconcile.RowAfter(r, v, tombstone);
      if Overdue(r, v) then after.status != r.status else after == r
  {
  }

  /** The pass changes an active row of the session if and only if it is overdue, skip or no skip. */
  lemma PassSettlesOverdue(w: World, v: Reconcile.View, skipWorked: bool, id: string)
    requires ItemsOk(w.items, w.issued) && id in w.items.at && w.items.at[id].sessionId == w.sid
    requires IsActive(w.items.at[id].status)
    ensures var before, after := w.items.at[id], PassStore(w, v, skipWorked).at[id];
      && (Overdue(before, v) ==> after.status != before.status)
      && (!Overdue(before, v) ==> after == before)
  {
    var hit := Reconcile.RejectedHit(SessionRows(w.items, w.sid), v.playing);
    var tombstone := if skipWorked && hit.Some? then Some(hit.value.id) else None;
    PassTombstoneGood(w, v, skipWorked);
    assert PassStore(w, v, skipWorked) == Reconcile.StoreAfter(w.items, w.sid, v, tombstone);
    RowSettlesOverdue(w.items.at[id], v, tombstone);
  }

  lemma SilentPassRow(w: World, v: Reconcile.View, skipWorked: bool, pending: bool, id: string)
    requires ItemsOk(w.items, w.issued) && !FindsOverdue(w, v) && id in w.items.at
    ensures var before, after := w.items.at[id], PassStore(w, v, skipWorked).at[id];
      && OnSide(w.sid, pending)(before) == OnSide(w.sid, pending)(after)
      && (OnSide(w.sid, pending)(before) ==> before == after)
  {
    PassKeepsRow(w, v, skipWorked, id);
    if w.items.at[id].sessionId == w.sid && IsActive(w.items.at[id].status) {
      PassSettlesOverdue(w, v, skipWorked, id);
    }
  }

  lemma SilentPassKeepsView(w: World, v: Reconcile.View, skipWorked: bool, pending: bool)
    requires ItemsOk(w.items, w.issued) && !FindsOverdue(w, v)
    ensures View(PassStore(w, v, skipWorked).at, w.claims, w.sid, pending) == View(w.items.at, w.claims, w.sid, pending)
  {
    var a, b, keep := w.items.at, PassStore(w, v, skipWorked).at, OnSide(w.sid, pending);
    forall id | id in a ensures keep(a[id]) == keep(b[id]) && (keep(a[id]) ==> a[id] == b[id]) {
      SilentPassRow(w, v, skipWorked, pending, id);
    }
    SelectSame(a, b, keep, ShownWith(w.claims));
  }

  lemma SettlingPassBreaks(w: World, v: Reconcile.View, skipWorked: bool)
    requires StoreOk(w) && Agrees(w) && FindsOverdue(w, v)
    ensures !Agrees(PollerPass(w, v, skipWorked))
  {
    var a, b := w.items.at, PassStore(w, v, skipWorked).at;
    var id :| id in a && a[id].sessionId == w.sid && Overdue(a[id], v);
    PassSettlesOverdue(w, v, skipWorked, id);
    PassKeepsRow(w, v, skipWorked, id);
    assert OnSide(w.sid, false)(a[id]);
    var before, after := View(a, w.claims, w.sid, false), View(b, w.claims, w.sid, false);
    assert id in before && before[id].status == a[id].status;
    assert id in after ==> after[id].status == b[id].status;
    assert before != after;
  }

  /** A poller pass publishes nothing about the rows it settles, so the room stays in agreement exactly
      when no row of the session is overdue. */
  lemma PollerPassExact(w: World, v: Reconcile.View, skipWorked: bool)
    requires Inv(w)
    ensures Agrees(PollerPass(w, v, skipWorked)) <==> !FindsOverdue(w, v)
  {
    if FindsOverdue(w, v) {
      SettlingPassBreaks(w, v, skipWorked);
    } else {
      SilentPassKeepsView(w, v, skipWorked, true);
      SilentPassKeepsView(w, v, skipWorked, false);
    }
  }

  // ---------------------------------------------------------------- one step

  /** The two steps that change what the room should show without telling it: a revival that no rate
      limit turns away, and a pass that finds an overdue row. */
  ghost predicate Missed(w: World, c: Command, now: int) {
    || (Revives(w, c) && !ApprovalLimited(w, c.limitedUntil))
    || (c.CPoll? && FindsOverdue(w, c.view.(now := now)))
  }

  lemma ElsewhereKeepsInv(w: World, e: Event, now: int)
    requires Inv(w) && w.clock <= now && Elsewhere(e)
    ensures Inv(Publish(w, e, now).(clock := now))
  {
    var s := ApplyEvent(w.snap, e);
    assert s.pending == w.snap.pending && s.queue == w.snap.queue && s.karaoke == w.snap.karaoke;
    AssembleInv(Publish(w, e, now).(clock := now));
  }

  lemma HydrateKeepsInv(w: World, now: int)
    requires Inv(w) && w.clock <= now
    ensures Inv(Hydrate(w).(clock := now))
  {
    AgreementIsPresent(w);
    HydrateEstablishes(w);
    AssembleInv(Hydrate(w).(clock := now));
  }

  lemma QueueStepKeepsInv(w: World, c: Command, now: int)
    requires Inv(w) && Plausible(w, c, now) && !Revives(w, c)
    requires c.CRequest? || c.CModerate? || c.CRemoveOwn? || c.CVote?
    ensures Inv(Step(w, c, now))
  {
    match c
    case CRequest(token, track, karaoke, env) => RequestKeepsInv(w, token, track, karaoke, env.(now := now));
    case CModerate(itemId, approve, until) => ModerateKeepsInv(w, itemId, approve, now, until);
    case CRemoveOwn(itemId, token) => RemoveOwnKeepsInv(w, itemId, token, now);
    case CVote(itemId, token) => VoteKeepsInv(w, itemId, token, now);
  }

  lemma RemoveClaimKeepsInv(w: World, token: string, itemId: string, now: int)
    requires Inv(w) && w.clock <= now
    ensures Inv(RemoveClaim(w, token, itemId, now).0.(clock := now))
  {
    var r := RemoveClaim(w, token, itemId, now);
    if r.1.None? {
      var claim := FindClaim(w.claims, itemId, ResolveActor(w.dir, w.sid, token).value.1).value;
      DropClaimKeepsInv(w, claim, now);
    } else {
      IdleKeepsInv(w, now);
    }
  }

  lemma HostRemoveClaimKeepsInv(w: World, itemId: string, guestId: string, now: int)
    requires Inv(w) && w.clock <= now
    ensures Inv(HostRemoveClaim(w, itemId, guestId, now).0.(clock := now))
  {
    var r := HostRemoveClaim(w, itemId, guestId, now);
    if r.1.None? {
      DropClaimKeepsInv(w, FindClaim(w.claims, itemId, guestId).value, now);
    } else {
      IdleKeepsInv(w, now);
    }
  }

  lemma PauseKeepsInv(w: World, token: string, now: int)
    requires Inv(w) && w.clock <= now
    ensures Inv(Pause(w, token, now).0.(clock := now))
  {
    var claimer, paused := SpotlightClaimer(w, token), Pause(w, token, now).0;
    IdleKeepsInv(w, now);
    if claimer.Ok? {
      var (session, itemId) := claimer.value;
      var until := now + session.karaokePauseTimeoutSec * 1000;
      assert paused == w || paused == SetPaused(w, itemId, until, now);
      SetPausedKeepsInv(w, itemId, until, now);
    } else {
      assert paused == w;
    }
  }

  lemma ReadyKeepsInv(w: World, token: string, now: int)
    requires Inv(w) && w.clock <= now
    ensures Inv(Ready(w, token, now).0.(clock := now))
  {
    IdleKeepsInv(w, now);
    if w.karaoke.paused {
      ClearPauseKeepsInv(w, now);
    }
  }

  lemma ReconcilePlaybackKeepsInv(w: World, isPlaying: bool, now: int)
    requires Inv(w) && w.clock <= now
    ensures Inv(ReconcilePlayback(w, isPlaying, now).(clock := now))
  {
    IdleKeepsInv(w, now);
    if w.karaoke.paused {
      ClearPauseKeepsInv(w, now);
    }
  }

  lemma ClaimStepKeepsInv(w: World, c: Command, now: int)
    requires Inv(w) && Plausible(w, c, now)
    requires c.CClaim? || c.CRemoveClaim? || c.CHostRemoveClaim?
    ensures Inv(Step(w, c, now))
  {
    match c
    case CClaim(token, itemId, rawName, claimId) =>
      assert Step(w, c, now) == ClaimMic(w, token, itemId, rawName, now, claimId).0.(clock := now);
      ClaimKeepsInv(w, token, itemId, rawName, now, claimId);
    case CRemoveClaim(token, itemId) =>
      assert Step(w, c, now) == RemoveClaim(w, token, itemId, now).0.(clock := now);
      RemoveClaimKeepsInv(w, token, itemId, now);
    case CHostRemoveClaim(itemId, guestId) =>
      assert Step(w, c, now) == HostRemoveClaim(w, itemId, guestId, now).0.(clock := now);
      HostRemoveClaimKeepsInv(w, itemId, guestId, now);
  }

  lemma PlaybackStepKeepsInv(w: World, c: Command, now: int)
    requires Inv(w) && w.clock <= now
    requires c.CTrackChange? || c.CReconcilePlayback?
    ensures Inv(Step(w, c, now))
  {
    match c
    case CTrackChange(uri) => TrackChangeKeepsInv(w, uri, now);
    case CReconcilePlayback(isPlaying) => ReconcilePlaybackKeepsInv(w, isPlaying, now);
  }

  lemma ClaimerStepKeepsInv(w: World, c: Command, now: int)
    requires Inv(w) && w.clock <= now
    requires c.CPause? || c.CReady?
    ensures Inv(Step(w, c, now))
  {
    match c
    case CPause(token) =>
      assert Step(w, c, now) == Pause(w, token, now).0.(clock := now);
      PauseKeepsInv(w, token, now);
    case CReady(token) =>
      assert Step(w, c, now) == Ready(w, token, now).0.(clock := now);
      ReadyKeepsInv(w, token, now);
  }

  /** Every step but a missed one keeps the whole invariant: stores in order, lists in agreement,
      karaoke state equal to the folded slice. */
  lemma StepKeepsInv(w: World, c: Command, now: int)
    requires Inv(w) && Plausible(w, c, now) && !Missed(w, c, now)
    ensures Inv(Step(w, c, now))
  {
    if c.CRequest? || c.CModerate? || c.CRemoveOwn? || c.CVote? {
      if Revives(w, c) {
        IdleKeepsInv(w, now);
      } else {
        QueueStepKeepsInv(w, c, now);
      }
    } else if c.CHydrate? {
      HydrateKeepsInv(w, now);
    } else if c.CPoll? {
      PassStoreOk(w, c.view.(now := now), c.skipWorked);
      PollerPassExact(w, c.view.(now := now), c.skipWorked);
      AssembleInv(Step(w, c, now));
    } else if c.COtherEvent? {
      ElsewhereKeepsInv(w, c.event, now);
    } else if c.CDirectory? {
      AssembleInv(Step(w, c, now));
    } else if c.CClaim? || c.CRemoveClaim? || c.CHostRemoveClaim? {
      ClaimStepKeepsInv(w, c, now);
    } else if c.CPause? || c.CReady? {
      ClaimerStepKeepsInv(w, c, now);
    } else {
      PlaybackStepKeepsInv(w, c, now);
    }
  }

  lemma ClockDoesNotShow(w: World, now: int)
    ensures Agrees(w.(clock := now)) == Agrees(w)
  {
  }

  lemma MissedModerationBreaks(w: World, itemId: string, approve: bool, now: int, until: Option<int>)
    requires Inv(w) && w.clock <= now
    requires Revives(w, CModerate(itemId, approve, until)) && !ApprovalLimited(w, until)
    ensures !Agrees(Step(w, CModerate(itemId, approve, until), now))
  {
    ModerateExact(w, itemId, approve, now, until);
    ClockDoesNotShow(Moderate(w, itemId, approve, now, until).0, now);
  }

  lemma PollStep(w: World, v: Reconcile.View, skipWorked: bool, now: int)
    ensures Step(w, CPoll(v, skipWorked), now) == PollerPass(w, v.(now := now), skipWorked).(clock := now)
  {
  }

  lemma MissedBreaks(w: World, c: Command, now: int)
    requires Inv(w) && w.clock <= now && Missed(w, c, now)
    ensures !Agrees(Step(w, c, now))
  {
    match c
    case CModerate(itemId, approve, until) => MissedModerationBreaks(w, itemId, approve, now, until);
    case CPoll(v, skipWorked) =>
      SettlingPassBreaks(w, v.(now := now), skipWorked);
      ClockDoesNotShow(PollerPass(w, v.(now := now), skipWorked), now);
      PollStep(w, v, skipWorked, now);
    case _ =>
  }

  /** ... and a missed one always breaks the agreement. */
  lemma StepExact(w: World, c: Command, now: int)
    requires Inv(w) && Plausible(w, c, now)
    ensures Inv(Step(w, c, now)) <==> !Missed(w, c, now)
  {
    if Missed(w, c, now) {
      MissedBreaks(w, c, now);
    } else {
      StepKeepsInv(w, c, now);
    }
  }

  // ---------------------------------------------------------------- runs

  datatype Timed = Timed(c: Command, now: int)

  /** The session after a run, oldest step first. */
  function RunFrom(w: World, run: seq<Timed>): World {
    if run == [] then w else
      var before := RunFrom(w, Init(run));
      Step(before, Last(run).c, Last(run).now)
  }

  ghost predicate PlausibleRun(w: World, run: seq<Timed>) {
    run == [] ||
    (PlausibleRun(w, Init(run)) && Plausible(RunFrom(w, Init(run)), Last(run).c, Last(run).now))
  }

  /** No step of the run is missed. */
  ghost predicate NothingMissed(w: World, run: seq<Timed>) {
    run == [] ||
    (NothingMissed(w, Init(run)) && !Missed(RunFrom(w, Init(run)), Last(run).c, Last(run).now))
  }

  /** A session with a room bound from the start. */
  function FreshSession(sid: string, dir: Directory, now: int, cascades: bool): World {
    World(sid, dir, EmptyMap(), {}, [], NO_KARAOKE, EmptySnapshot(sid, now), {}, now, cascades)
  }

  lemma FreshSessionInv(sid: string, dir: Directory, now: int, cascades: bool)
    ensures Inv(FreshSession(sid, dir, now, cascades))
  {
  }

  /** Over every run without a missed step: the snapshot's pending ids are exactly the pending rows,
      its queue ids the approved, queued and playing ones, without duplicates, each with the row's
      status and its claims in creation order; and the karaoke state is the folded slice. */
  lemma {:induction false} RunKeepsInv(w: World, run: seq<Timed>)
    requires Inv(w) && PlausibleRun(w, run) && NothingMissed(w, run)
    ensures Inv(RunFrom(w, run))
  {
    if run != [] {
      RunKeepsInv(w, Init(run));
      StepKeepsInv(RunFrom(w, Init(run)), Last(run).c, Last(run).now);
    }
  }

  /** A room materialized late: present items agree, hydration completes it, and from there the
      agreement lasts. */
  lemma HydratedRunAgrees(w: World, run: seq<Timed>)
    requires StoreOk(w) && PresentAgrees(w) && KaraokeMirrored(w)
    requires PlausibleRun(Hydrate(w), run) && NothingMissed(Hydrate(w), run)
    ensures Inv(RunFrom(Hydrate(w), run))
  {
    HydrateEstablishes(w);
    AssembleInv(Hydrate(w));
    RunKeepsInv(Hydrate(w), run);
  }

  // ---------------------------------------------------------------- how a pause ends

  /** What releases a hold: at a poll, observed playback or a deadline that has strictly passed; a
      claimer of the spotlight who is ready; a spotlight that moves without a new hold. */
  predicate Releases(w: World, c: Command, now: int) {
    match c
    case CReconcilePlayback(isPlaying) => isPlaying || DeadlinePassed(w.karaoke, now)
    case CReady(token) => SpotlightClaimer(w, token).Ok?
    case CTrackChange(uri) => TrackChangeMove(w, uri, now).MoveTo? && TrackChangeMove(w, uri, now).holdUntil.None?
    case _ => false
  }

  /** A hold ends in one step exactly for one of those reasons. */
  lemma PauseEndsExactly(w: World, c: Command, now: int)
    requires w.karaoke.paused
    ensures !Step(w, c, now).karaoke.paused <==> Releases(w, c, now)
  {
    match c
    case CReconcilePlayback(isPlaying) =>
    case CReady(token) => ReadyReleases(w, token, now);
    case CTrackChange(uri) => TrackChangeReleases(w, uri, now);
    case CPause(token) => PauseHolds(w, token, now);
    case _ => OnlyKaraokeStepsTouchKaraoke(w, c, now);
  }

  lemma ReadyReleases(w: World, token: string, now: int)
    requires w.karaoke.paused
    ensures Ready(w, token, now).0.karaoke.paused <==> SpotlightClaimer(w, token).Err?
  {
  }

  lemma TrackChangeReleases(w: World, uri: Option<string>, now: int)
    requires w.karaoke.paused
    ensures HandleTrackChange(w, uri, now).karaoke.paused <==>
      !(TrackChangeMove(w, uri, now).MoveTo? && TrackChangeMove(w, uri, now).holdUntil.None?)
  {
  }

  lemma PauseHolds(w: World, token: string, now: int)
    requires w.karaoke.paused
    ensures Pause(w, token, now).0.karaoke.paused
  {
  }

  lemma OnlyKaraokeStepsTouchKaraoke(w: World, c: Command, now: int)
    requires !c.CReconcilePlayback? && !c.CReady? && !c.CTrackChange? && !c.CPause?
    ensures Step(w, c, now).karaoke == w.karaoke
  {
  }

  /** What holds playback anew: a claimer where pausing is manual, a spotlight that moves where it is
      automatic. */
  predicate HoldsAnew(w: World, c: Command, now: int) {
    match c
    case CPause(token) => SpotlightClaimer(w, token).Ok?
      && SpotlightClaimer(w, token).value.0.karaokePauseMode.PauseManual?
    case CTrackChange(uri) => TrackChangeMove(w, uri, now).MoveTo? && TrackChangeMove(w, uri, now).holdUntil.Some?
    case _ => false
  }

  /** Without a new hold a step can only end the one there is. */
  lemma OldHoldOrNone(w: World, c: Command, now: int)
    requires !HoldsAnew(w, c, now)
    ensures var k, k' := w.karaoke, Step(w, c, now).karaoke;
      k'.paused ==> k.paused && k'.pausedUntilEpochMs == k.pausedUntilEpochMs
  {
    match c
    case CReconcilePlayback(_) =>
    case CReady(token) =>
      assert Step(w, c, now).karaoke == Ready(w, token, now).0.karaoke;
    case CTrackChange(uri) =>
      assert Step(w, c, now).karaoke == HandleTrackChange(w, uri, now).karaoke;
    case CPause(token) =>
      assert Step(w, c, now).karaoke == Pause(w, token, now).0.karaoke;
    case _ => OnlyKaraokeStepsTouchKaraoke(w, c, now);
  }

  ghost predicate NoNewHold(w: World, run: seq<Timed>) {
    forall k :: 0 <= k < |run| ==> !HoldsAnew(RunFrom(w, run[..k]), run[k].c, run[k].now)
  }

  lemma RunSplits(w: World, run: seq<Timed>)
    requires run != []
    ensures RunFrom(w, run) == Step(RunFrom(w, Init(run)), Last(run).c, Last(run).now)
    ensures forall k :: 0 <= k < |run| - 1 ==> run[..k] == Init(run)[..k] && run[k] == Init(run)[k]
    ensures run[..|run| - 1] == Init(run)
  {
  }

  /** Until somebody holds again, a hold lasts through a run if and only if no step of it is one of the
      four releases; and while it lasts its deadline stands. */
  lemma {:induction false} HoldLastsExactly(w: World, run: seq<Timed>)
    requires w.karaoke.paused && NoNewHold(w, run)
    ensures RunFrom(w, run).karaoke.paused <==>
      forall k :: 0 <= k < |run| ==> !Releases(RunFrom(w, run[..k]), run[k].c, run[k].now)
    ensures RunFrom(w, run).karaoke.paused ==>
      RunFrom(w, run).karaoke.pausedUntilEpochMs == w.karaoke.pausedUntilEpochMs
  {
    if run != [] {
      var h, v, l := Init(run), RunFrom(w, Init(run)), Last(run);
      RunSplits(w, run);
      assert NoNewHold(w, h);
      HoldLastsExactly(w, h);
      assert !HoldsAnew(v, l.c, l.now);
      OldHoldOrNone(v, l.c, l.now);
      if v.karaoke.paused {
        PauseEndsExactly(v, l.c, l.now);
      }
    }
  }

  /** A poll strictly past the deadline ends a hold for good: unless somebody holds again, playback is
      free at the end of every run that contains one. */
  lemma DeadlineEndsHold(w: World, run: seq<Timed>, k: nat)
    requires w.karaoke.paused && KaraokeWellFormed(w.karaoke) && NoNewHold(w, run)
    requires k < |run| && run[k].c.CReconcilePlayback? && run[k].now > w.karaoke.pausedUntilEpochMs.value
    ensures !RunFrom(w, run).karaoke.paused
  {
    var v, h := RunFrom(w, run[..k]), run[..k];
    forall j | 0 <= j < |h| ensures h[..j] == run[..j] && h[j] == run[j] {
    }
    assert NoNewHold(w, h);
    HoldLastsExactly(w, h);
    HoldLastsExactly(w, run);
    if v.karaoke.paused {
      assert Releases(v, run[k].c, run[k].now);
    } else {
      var j :| 0 <= j < |h| && Releases(RunFrom(w, h[..j]), h[j].c, h[j].now);
      assert Releases(RunFrom(w, run[..j]), run[j].c, run[j].now);
    }
  }

  /** May the spotlight land on this row while `uri` plays? */
  ghost predicate Claimed(r: Row, claims: seq<Claim>, uri: string) {
    SpotlightCandidate(r, uri) && ItemClaims(claims, r.id) != []
  }

  lemma FirstIsOldest(rows: seq<Row>)
    requires rows != [] && SortedBy(rows, RowOrder)
    ensures SortedBy(rows[1..], RowOrder)
    ensures forall r :: r in rows ==> r == rows[0] || r in rows[1..]
    ensures forall r :: r in rows ==> rows[0].createdAt <= r.createdAt
  {
    var t := rows[1..];
    assert forall i :: 0 <= i < |t| ==> t[i] == rows[i + 1];
    forall r | r in rows ensures (r == rows[0] || r in t) && rows[0].createdAt <= r.createdAt {
      var i :| 0 <= i < |rows| && rows[i] == r;
      assert i == 0 || (t[i - 1] == r && RowOrder(rows[0], rows[i]));
    }
  }

  lemma {:induction false} FirstClaimedIsEarliest(rows: seq<Row>, claims: seq<Claim>, uri: string)
    requires SortedBy(rows, RowOrder)
    ensures var first := FirstClaimed(rows, claims, uri);
      && (first.None? ==> forall r :: r in rows ==> !Claimed(r, claims, uri))
      && (first.Some? ==> Claimed(first.value, claims, uri))
      && (first.Some? ==> forall r :: r in rows && Claimed(r, claims, uri) ==> first.value.createdAt <= r.createdAt)
  {
    if rows != [] {
      FirstIsOldest(rows);
      if Claimed(rows[0], claims, uri) {
        assert FirstClaimed(rows, claims, uri) == Some(rows[0]);
      } else {
        assert FirstClaimed(rows, claims, uri) == FirstClaimed(rows[1..], claims, uri);
        FirstClaimedIsEarliest(rows[1..], claims, uri);
      }
    }
  }

  /** The spotlight goes to the earliest active row of the playing track that carries a claim, and
      stays dark only when there is none. */
  lemma SpotlightIsEarliestClaimed(w: World, uri: string)
    requires ItemsOk(w.items, w.issued)
    ensures var target, at := SpotlightFor(w, Some(uri)), w.items.at;
      && (target.None? ==> forall id :: id in at && at[id].sessionId == w.sid ==> !Claimed(at[id], w.claims, uri))
      && (target.Some? ==> target.value in at && Claimed(at[target.value], w.claims, uri))
      && (target.Some? ==> forall id :: id in at && at[id].sessionId == w.sid && Claimed(at[id], w.claims, uri)
                             ==> at[target.value].createdAt <= at[id].createdAt)
  {
    SessionRowsOk(w.items, w.issued, w.sid);
    SortSorted(Filter(w.items.Values(), OfSession(w.sid)), RowOrder);
    FirstClaimedIsEarliest(SessionRows(w.items, w.sid), w.claims, uri);
  }
}

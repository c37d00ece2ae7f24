/** Counting invariants of a live session: requests per guest, duplicates, mics per item, votes. */
module Limits {
  import opened Collections
  import opened QueueTypes
  import opened Snapshot
  import opened Claims
  import opened LiveSession
  import opened Agreement
  import opened AgreementSteps
  import opened Hydration
  import opened LiveTheorems
  import Admission
  import Reconcile

  // ---------------------------------------------------------------- the stores stay in order

  lemma PlacedStore(w: World, row: Row, name: Option<string>, env: RequestEnv)
    requires StoreOk(w) && w.clock <= env.now && row.id == env.itemId && row.sessionId == w.sid
    requires env.itemId !in w.issued && env.claimId !in w.issued && env.itemId != env.claimId
    ensures StoreOk(PlaceRequest(w, row, name, env).0.(clock := env.now))
  {
    var w1, placed := InsertRequest(w, row, name, env), PlaceRequest(w, row, name, env).0;
    var w2 := Publish(w1, ItemApproved(row.id), env.now);
    assert placed == w1 || placed == w2 || placed == DeleteRow(w2, row.id, env.now);
    InsertStore(w, row, name, env);
    ApprovedStore(w1, row.id, env.now);
  }

  lemma ApprovedStore(w1: World, id: string, now: int)
    requires StoreOk(w1.(clock := now))
    ensures var w2 := Publish(w1, ItemApproved(id), now);
      StoreOk(w2.(clock := now)) && StoreOk(DeleteRow(w2, id, now).(clock := now))
  {
    RemoveRowStore(w1.items, w1.issued, id);
    CascadeStore(Publish(w1, ItemApproved(id), now), id);
  }

  lemma RequestStore(w: World, token: string, track: Track, karaoke: Option<string>, env: RequestEnv)
    requires StoreOk(w) && w.clock <= env.now
    requires env.itemId !in w.issued && env.claimId !in w.issued && env.itemId != env.claimId
    ensures StoreOk(RequestTrack(w, token, track, karaoke, env).0.(clock := env.now))
  {
    var admitted := AdmitRequest(w, token, track, karaoke, env);
    if admitted.Ok? {
      var (session, guestId, name) := admitted.value;
      PlacedStore(w, NewRow(w.sid, session, guestId, track, env), name, env);
    }
  }

  lemma SetExistingRowStore(w: World, row: Row, e: Event, now: int)
    requires StoreOk(w) && w.clock <= now && row.sessionId == w.sid
    requires row.id in w.items.at && w.items.at[row.id].sessionId == w.sid
    ensures StoreOk(SetRow(w, row, e, now).(clock := now))
  {
    SetRowStore(w, row, e, now);
    SameIssued(w.issued, row.id);
  }

  lemma VoteStore(w: World, session: Session, guestId: string, item: Row, now: int)
    requires StoreOk(w) && w.clock <= now
    requires item.id in w.items.at && w.items.at[item.id] == item && item.sessionId == w.sid
    ensures StoreOk(RecordVote(w, session, guestId, item, now).(clock := now))
  {
    var voted := Voted(item);
    var e := SkipVoteUpdated(item.id, voted.skipVotes, session.voteSkipThreshold);
    var w0 := w.(votes := w.votes + {(item.id, guestId)});
    SetExistingRowStore(w0, voted, e, now);
    SetExistingRowStore(SetRow(w0, voted, e, now).(clock := now), Decided(voted, Rejected, now), ItemRejected(item.id),
                        now);
  }

  lemma ModerateStore(w: World, itemId: string, approve: bool, now: int, until: Option<int>)
    requires StoreOk(w) && w.clock <= now
    ensures StoreOk(Moderate(w, itemId, approve, now, until).0.(clock := now))
  {
    if Moderate(w, itemId, approve, now, until).1.Ok? {
      SetExistingRowStore(w, Decided(w.items.at[itemId], if approve then Approved else Rejected, now),
                          if approve then ItemApproved(itemId) else ItemRejected(itemId), now);
    }
  }

  lemma CastVoteStore(w: World, itemId: string, token: string, now: int)
    requires StoreOk(w) && w.clock <= now
    ensures StoreOk(CastSkipVote(w, itemId, token, now).0.(clock := now))
  {
    var admitted := AdmitVote(w, itemId, token);
    if admitted.Ok? {
      VoteStore(w, admitted.value.0, admitted.value.1, admitted.value.2, now);
    }
  }

  lemma RemoveOwnStore(w: World, itemId: string, token: string, now: int)
    requires StoreOk(w) && w.clock <= now
    ensures StoreOk(RemoveOwn(w, itemId, token, now).0.(clock := now))
  {
    DeleteRowStore(w, itemId, now);
  }

  lemma QueueStepStore(w: World, c: Command, now: int)
    requires StoreOk(w) && Plausible(w, c, now)
    requires c.CRequest? || c.CModerate? || c.CRemoveOwn? || c.CVote?
    ensures StoreOk(Step(w, c, now))
  {
    match c
    case CRequest(token, track, karaoke, env) => RequestStore(w, token, track, karaoke, env.(now := now));
    case CModerate(itemId, approve, until) => ModerateStore(w, itemId, approve, now, until);
    case CRemoveOwn(itemId, token) => RemoveOwnStore(w, itemId, token, now);
    case CVote(itemId, token) => CastVoteStore(w, itemId, token, now);
  }

  lemma DropClaimStore(w: World, claim: Claim, now: int)
    requires StoreOk(w) && w.clock <= now
    ensures StoreOk(DropClaim(w, claim, now).(clock := now))
  {
    DeleteClaimStore(w.claims, w.issued, w.clock, claim.id);
  }

  lemma AddedClaimStore(w: World, c: Claim)
    requires StoreOk(w) && w.clock <= c.createdAt && c.id !in w.issued && c.sessionId == w.sid
      && c.queueItemId in w.issued
    requires forall d :: d in w.claims ==> !(d.queueItemId == c.queueItemId && d.guestId == c.guestId)
    ensures StoreOk(AddClaim(w, c).(clock := c.createdAt))
  {
    AddClaimStore(w.claims, w.issued, w.clock, c, c.createdAt);
  }

  lemma ClaimMicStore(w: World, token: string, itemId: string, rawName: string, now: int, claimId: string)
    requires StoreOk(w) && w.clock <= now && claimId !in w.issued
    ensures StoreOk(ClaimMic(w, token, itemId, rawName, now, claimId).0.(clock := now))
  {
    var admitted, claimed := AdmitClaim(w, token, itemId, rawName), ClaimMic(w, token, itemId, rawName, now, claimId).0;
    if admitted.Ok? {
      AdmittedClaim(w, token, itemId, rawName);
      var c := Claim(claimId, w.sid, itemId, admitted.value.0, admitted.value.1, now);
      assert claimed == AddClaim(w, c);
      AddedClaimStore(w, c);
    } else {
      assert claimed == w;
    }
  }

  lemma RemoveClaimStore(w: World, token: string, itemId: string, now: int)
    requires StoreOk(w) && w.clock <= now
    ensures StoreOk(RemoveClaim(w, token, itemId, now).0.(clock := now))
  {
    if RemoveClaim(w, token, itemId, now).1.None? {
      DropClaimStore(w, FindClaim(w.claims, itemId, ResolveActor(w.dir, w.sid, token).value.1).value, now);
    }
  }

  lemma HostRemoveClaimStore(w: World, itemId: string, guestId: string, now: int)
    requires StoreOk(w) && w.clock <= now
    ensures StoreOk(HostRemoveClaim(w, itemId, guestId, now).0.(clock := now))
  {
    if HostRemoveClaim(w, itemId, guestId, now).1.None? {
      DropClaimStore(w, FindClaim(w.claims, itemId, guestId).value, now);
    }
  }

  lemma ClaimStepStore(w: World, c: Command, now: int)
    requires StoreOk(w) && Plausible(w, c, now)
    requires c.CClaim? || c.CRemoveClaim? || c.CHostRemoveClaim?
    ensures StoreOk(Step(w, c, now))
  {
    match c
    case CClaim(token, itemId, rawName, claimId) => ClaimMicStore(w, token, itemId, rawName, now, claimId);
    case CRemoveClaim(token, itemId) => RemoveClaimStore(w, token, itemId, now);
    case CHostRemoveClaim(itemId, guestId) => HostRemoveClaimStore(w, itemId, guestId, now);
  }

  /** The remaining commands write no claim, and no row but through a poller pass. */
  lemma OtherStepStore(w: World, c: Command, now: int)
    requires !c.CRequest? && !c.CModerate? && !c.CRemoveOwn? && !c.CVote?
    requires !c.CClaim? && !c.CRemoveClaim? && !c.CHostRemoveClaim? && !c.CPoll?
    ensures var w' := Step(w, c, now);
      w'.sid == w.sid && w'.items == w.items && w'.claims == w.claims && w'.issued == w.issued && w'.votes == w.votes
  {
    match c
    case CTrackChange(uri) => TrackChangeStore(w, uri, now);
    case _ =>
  }

  lemma TrackChangeStore(w: World, uri: Option<string>, now: int)
    ensures var w' := HandleTrackChange(w, uri, now);
      w'.sid == w.sid && w'.items == w.items && w'.claims == w.claims && w'.issued == w.issued && w'.votes == w.votes
  {
  }

  lemma StepStore(w: World, c: Command, now: int)
    requires StoreOk(w) && Plausible(w, c, now)
    ensures StoreOk(Step(w, c, now))
  {
    if c.CRequest? || c.CModerate? || c.CRemoveOwn? || c.CVote? {
      QueueStepStore(w, c, now);
    } else if c.CClaim? || c.CRemoveClaim? || c.CHostRemoveClaim? {
      ClaimStepStore(w, c, now);
    } else if c.CPoll? {
      PassStoreOk(w, c.view.(now := now), c.skipWorked);
      PollStep(w, c.view, c.skipWorked, now);
    } else {
      OtherStepStore(w, c, now);
    }
  }

  // ---------------------------------------------------------------- mics per item

  /** No item has more singers than mics. */
  ghost predicate MicsWithin(claims: seq<Claim>, mics: int) {
    forall id :: |Singers(claims, id)| <= mics
  }

  ghost predicate FixedMics(dir: Directory, mics: int) {
    dir.session.Some? ==> dir.session.value.karaokeMicCount == mics
  }

  lemma WithoutGuestShrinks(cs: seq<ClaimSummary>, guestId: string)
    ensures |WithoutGuest(cs, guestId)| <= |cs|
  {
    FilterShrinks(cs, (c: ClaimSummary) => c.guestId != guestId);
  }

  lemma DropKeepsMics(claims: seq<Claim>, claim: Claim, mics: int)
    requires MicsWithin(claims, mics) && ClaimsDistinct(claims) && claim in claims
    ensures MicsWithin(DeleteClaim(claims, claim.id), mics)
  {
    DeleteIsEdit(claims, claim);
    WithoutGuestShrinks(Singers(claims, claim.queueItemId), claim.guestId);
  }

  lemma AddKeepsMics(claims: seq<Claim>, claim: Claim, mics: int)
    requires MicsWithin(claims, mics) && |Singers(claims, claim.queueItemId)| < mics
    requires forall d :: d in claims ==> d.createdAt <= claim.createdAt
    ensures MicsWithin(claims + [claim], mics)
  {
    forall id ensures |Singers(claims + [claim], id)| <= mics {
      SingersAfterCreate(claims, claim, id);
    }
  }

  lemma InsertedMics(w: World, row: Row, name: Option<string>, env: RequestEnv, mics: int)
    requires ClaimsOk(w.claims, w.issued, w.clock) && w.clock <= env.now && row.id !in w.issued
    requires MicsWithin(w.claims, mics) && mics >= 1
    ensures MicsWithin(InsertRequest(w, row, name, env).claims, mics)
  {
    InsertSingers(w, row, name, env);
    var claims := InsertRequest(w, row, name, env).claims;
    forall id ensures |Singers(claims, id)| <= mics {
      assert id == row.id || Singers(claims, id) == Singers(w.claims, id);
    }
  }

  lemma CascadeKeepsMics(w: World, itemId: string, mics: int)
    requires MicsWithin(w.claims, mics) && mics >= 0
    ensures MicsWithin(ClaimsWithoutItem(w, itemId), mics)
  {
    if w.cascades {
      forall id ensures |Singers(ClaimsWithoutItem(w, itemId), id)| <= mics {
        SingersAfterCascade(w.claims, itemId, id);
      }
    }
  }

  lemma PlacedMics(w: World, row: Row, name: Option<string>, env: RequestEnv, mics: int)
    requires ClaimsOk(w.claims, w.issued, w.clock) && w.clock <= env.now && row.id !in w.issued
    requires MicsWithin(w.claims, mics) && mics >= 1
    ensures MicsWithin(PlaceRequest(w, row, name, env).0.claims, mics)
  {
    var w1, placed := InsertRequest(w, row, name, env), PlaceRequest(w, row, name, env).0;
    InsertedMics(w, row, name, env, mics);
    assert placed.claims == w1.claims || placed.claims == ClaimsWithoutItem(w1, row.id);
    CascadeKeepsMics(w1, row.id, mics);
  }

  lemma RemoveOwnKeepsMics(w: World, itemId: string, token: string, now: int, mics: int)
    requires MicsWithin(w.claims, mics) && mics >= 0
    ensures MicsWithin(RemoveOwn(w, itemId, token, now).0.claims, mics)
  {
    var claims := RemoveOwn(w, itemId, token, now).0.claims;
    assert claims == w.claims || claims == ClaimsWithoutItem(w, itemId);
    CascadeKeepsMics(w, itemId, mics);
  }

  lemma RequestKeepsMics(w: World, token: string, track: Track, karaoke: Option<string>, env: RequestEnv, mics: int)
    requires StoreOk(w) && w.clock <= env.now && env.itemId !in w.issued
    requires MicsWithin(w.claims, mics) && mics >= 1
    ensures MicsWithin(RequestTrack(w, token, track, karaoke, env).0.claims, mics)
  {
    var admitted := AdmitRequest(w, token, track, karaoke, env);
    if admitted.Ok? {
      var (session, guestId, name) := admitted.value;
      PlacedMics(w, NewRow(w.sid, session, guestId, track, env), name, env, mics);
    }
  }

  lemma ClaimKeepsMics(w: World, token: string, itemId: string, rawName: string, now: int, claimId: string, mics: int)
    requires StoreOk(w) && w.clock <= now && MicsWithin(w.claims, mics) && FixedMics(w.dir, mics)
    ensures MicsWithin(ClaimMic(w, token, itemId, rawName, now, claimId).0.claims, mics)
  {
    var admitted := AdmitClaim(w, token, itemId, rawName);
    if admitted.Ok? {
      AdmittedClaim(w, token, itemId, rawName);
      AddKeepsMics(w.claims, Claim(claimId, w.sid, itemId, admitted.value.0, admitted.value.1, now), mics);
    }
  }

  lemma RemoveKeepsMics(w: World, token: string, itemId: string, now: int, mics: int)
    requires StoreOk(w) && MicsWithin(w.claims, mics)
    ensures MicsWithin(RemoveClaim(w, token, itemId, now).0.claims, mics)
  {
    if RemoveClaim(w, token, itemId, now).1.None? {
      DropKeepsMics(w.claims, FindClaim(w.claims, itemId, ResolveActor(w.dir, w.sid, token).value.1).value, mics);
    }
  }

  lemma HostRemoveKeepsMics(w: World, itemId: string, guestId: string, now: int, mics: int)
    requires StoreOk(w) && MicsWithin(w.claims, mics)
    ensures MicsWithin(HostRemoveClaim(w, itemId, guestId, now).0.claims, mics)
  {
    if HostRemoveClaim(w, itemId, guestId, now).1.None? {
      DropKeepsMics(w.claims, FindClaim(w.claims, itemId, guestId).value, mics);
    }
  }

  lemma OtherStepClaims(w: World, c: Command, now: int)
    requires !c.CRequest? && !c.CRemoveOwn? && !c.CClaim? && !c.CRemoveClaim? && !c.CHostRemoveClaim?
    ensures Step(w, c, now).claims == w.claims
  {
  }

  lemma StepKeepsMics(w: World, c: Command, now: int, mics: int)
    requires StoreOk(w) && Plausible(w, c, now) && MicsWithin(w.claims, mics) && FixedMics(w.dir, mics) && mics >= 1
    ensures MicsWithin(Step(w, c, now).claims, mics)
  {
    match c
    case CRequest(token, track, karaoke, env) =>
      assert Step(w, c, now).claims == RequestTrack(w, token, track, karaoke, env.(now := now)).0.claims;
      RequestKeepsMics(w, token, track, karaoke, env.(now := now), mics);
    case CClaim(token, itemId, rawName, claimId) =>
      assert Step(w, c, now).claims == ClaimMic(w, token, itemId, rawName, now, claimId).0.claims;
      ClaimKeepsMics(w, token, itemId, rawName, now, claimId, mics);
    case CRemoveClaim(token, itemId) =>
      assert Step(w, c, now).claims == RemoveClaim(w, token, itemId, now).0.claims;
      RemoveKeepsMics(w, token, itemId, now, mics);
    case CHostRemoveClaim(itemId, guestId) =>
      assert Step(w, c, now).claims == HostRemoveClaim(w, itemId, guestId, now).0.claims;
      HostRemoveKeepsMics(w, itemId, guestId, now, mics);
    case CRemoveOwn(itemId, token) =>
      assert Step(w, c, now).claims == RemoveOwn(w, itemId, token, now).0.claims;
      RemoveOwnKeepsMics(w, itemId, token, now, mics);
    case _ => OtherStepClaims(w, c, now);
  }

  /** The mic count stays what it is through the run. */
  ghost predicate MicsFixedIn(run: seq<Timed>, mics: int) {
    forall i :: 0 <= i < |run| ==> run[i].c.CDirectory? ==> FixedMics(run[i].c.dir, mics)
  }

  lemma StepKeepsFixedMics(w: World, c: Command, now: int, mics: int)
    requires FixedMics(w.dir, mics) && (c.CDirectory? ==> FixedMics(c.dir, mics))
    ensures FixedMics(Step(w, c, now).dir, mics)
  {
  }

  /** With a fixed mic count, over every run, missed steps included, no item ever has more claims than
      mics, and never two claims by one guest. */
  lemma {:induction false} MicsNeverExceeded(w: World, run: seq<Timed>, mics: int)
    requires StoreOk(w) && MicsWithin(w.claims, mics) && FixedMics(w.dir, mics) && mics >= 1
    requires PlausibleRun(w, run) && MicsFixedIn(run, mics)
    ensures var w' := RunFrom(w, run);
      StoreOk(w') && MicsWithin(w'.claims, mics) && FixedMics(w'.dir, mics) && ClaimsDistinct(w'.claims)
  {
    if run != [] {
      var l := run[|run| - 1];
      assert MicsFixedIn(Init(run), mics) by {
        assert forall i :: 0 <= i < |run| - 1 ==> Init(run)[i] == run[i];
      }
      MicsNeverExceeded(w, Init(run), mics);
      var before := RunFrom(w, Init(run));
      StepStore(before, l.c, l.now);
      StepKeepsMics(before, l.c, l.now, mics);
      StepKeepsFixedMics(before, l.c, l.now, mics);
    }
  }

  // ---------------------------------------------------------------- active requests

  function ActiveIds(items: map<string, Row>, sid: string, guestId: string): set<string> {
    set id | id in items && items[id].sessionId == sid && Admission.ActiveFor(items[id], guestId)
  }

  /** No guest has more active requests than the cap. */
  ghost predicate WithinCap(items: map<string, Row>, sid: string, cap: int) {
    forall guestId :: |ActiveIds(items, sid, guestId)| <= if cap < 0 then 0 else cap
  }

  /** No two active rows of the session share a track. */
  ghost predicate NoDuplicates(items: map<string, Row>, sid: string) {
    forall a, b :: a in items && b in items && a != b && ActiveIn(items[a], sid) && ActiveIn(items[b], sid)
      ==> items[a].trackUri != items[b].trackUri
  }

  predicate ActiveIn(r: Row, sid: string) {
    r.sessionId == sid && IsActive(r.status)
  }

  /** Rows may vanish or cease to be active; nothing else about them matters here. */
  ghost predicate Shrinks(a: map<string, Row>, b: map<string, Row>, sid: string) {
    forall id :: id in b && ActiveIn(b[id], sid) ==>
      && id in a && ActiveIn(a[id], sid) && a[id].guestId == b[id].guestId && a[id].trackUri == b[id].trackUri
  }

  lemma ShrinkingKeepsLimits(a: map<string, Row>, b: map<string, Row>, sid: string, cap: int)
    requires Shrinks(a, b, sid)
    ensures WithinCap(a, sid, cap) ==> WithinCap(b, sid, cap)
    ensures NoDuplicates(a, sid) ==> NoDuplicates(b, sid)
  {
    forall guestId ensures |ActiveIds(b, sid, guestId)| <= |ActiveIds(a, sid, guestId)| {
      SubsetCount(ActiveIds(b, sid, guestId), ActiveIds(a, sid, guestId));
    }
  }

  /** The ids at some places of a list of rows with distinct ids are as many as the places. */
  lemma {:induction false} IdsAtPlaces(rows: seq<Row>, places: set<int>)
    requires DistinctRowIds(rows) && forall i :: i in places ==> 0 <= i < |rows|
    ensures |set i | i in places :: rows[i].id| == |places|
  {
    if rows == [] {
      assert places == {};
    } else {
      var h, n := Init(rows), |rows| - 1;
      var rest := places - {n};
      IdsAtPlaces(h, rest);
      assert (set i | i in rest :: h[i].id) == IdsAt(rows, rest);
      if n in places {
        OnePlaceMore(rows, rest, n);
        assert places == rest + {n};
      } else {
        assert places == rest;
      }
    }
  }

  function IdsAt(rows: seq<Row>, places: set<int>): set<string>
    requires forall i :: i in places ==> 0 <= i < |rows|
  {
    set i | i in places :: rows[i].id
  }

  lemma OnePlaceMore(rows: seq<Row>, places: set<int>, n: int)
    requires DistinctRowIds(rows) && 0 <= n < |rows| && forall i :: i in places ==> 0 <= i < n
    ensures |IdsAt(rows, places + {n})| == |IdsAt(rows, places)| + 1
  {
    assert rows[n].id !in IdsAt(rows, places);
    assert IdsAt(rows, places + {n}) == IdsAt(rows, places) + {rows[n].id};
  }

  function ActivePlaces(rows: seq<Row>, guestId: string): set<int> {
    set i | 0 <= i < |rows| && Admission.ActiveFor(rows[i], guestId)
  }

  /** Reading a session's rows finds each of them at some place. */
  lemma PlaceOfRow(items: OrderedMap<string, Row>, issued: set<string>, sid: string, id: string) returns (i: nat)
    requires ItemsOk(items, issued) && id in items.at && items.at[id].sessionId == sid
    ensures i < |SessionRows(items, sid)| && SessionRows(items, sid)[i] == items.at[id]
  {
    SessionRowsOk(items, issued, sid);
    var rows := SessionRows(items, sid);
    i :| 0 <= i < |rows| && rows[i] == items.at[id];
  }

  lemma RowAtPlace(items: OrderedMap<string, Row>, issued: set<string>, sid: string, i: nat)
    requires ItemsOk(items, issued) && i < |SessionRows(items, sid)|
    ensures var r := SessionRows(items, sid)[i];
      r.id in items.at && items.at[r.id] == r && r.sessionId == sid
  {
    SessionRowsOk(items, issued, sid);
    assert SessionRows(items, sid)[i] in SessionRows(items, sid);
  }

  /** The ids of the guest's active rows read back are those of the store. */
  lemma ActiveRowsReadBack(items: OrderedMap<string, Row>, issued: set<string>, sid: string, guestId: string,
                           rows: seq<Row>)
    requires ItemsOk(items, issued) && rows == SessionRows(items, sid)
    ensures ActiveIds(items.at, sid, guestId) == set i | i in ActivePlaces(rows, guestId) :: rows[i].id
  {
    var ids := set i | i in ActivePlaces(rows, guestId) :: rows[i].id;
    forall id | id in ActiveIds(items.at, sid, guestId) ensures id in ids {
      var i := PlaceOfRow(items, issued, sid, id);
      assert i in ActivePlaces(rows, guestId) && rows[i].id == id;
    }
    forall id | id in ids ensures id in ActiveIds(items.at, sid, guestId) {
      var i :| i in ActivePlaces(rows, guestId) && rows[i].id == id;
      RowAtPlace(items, issued, sid, i);
    }
  }

  /** The counting loop over the rows read back counts the guest's active rows in the store. */
  lemma CountIsStoreCount(items: OrderedMap<string, Row>, issued: set<string>, sid: string, guestId: string)
    requires ItemsOk(items, issued)
    ensures Admission.CountActive(SessionRows(items, sid), guestId) == |ActiveIds(items.at, sid, guestId)|
  {
    var rows := SessionRows(items, sid);
    SessionRowsOk(items, issued, sid);
    IdsAtPlaces(rows, ActivePlaces(rows, guestId));
    ActiveRowsReadBack(items, issued, sid, guestId, rows);
  }

  lemma ActiveIdsPut(items: map<string, Row>, sid: string, row: Row, guestId: string)
    requires row.id !in items && row.sessionId == sid
    ensures ActiveIds(items[row.id := row], sid, guestId) ==
      if Admission.ActiveFor(row, guestId) then ActiveIds(items, sid, guestId) + {row.id}
        else ActiveIds(items, sid, guestId)
  {
  }

  lemma InsertKeepsCap(items: OrderedMap<string, Row>, issued: set<string>, sid: string, row: Row, cap: int)
    requires ItemsOk(items, issued) && row.id !in issued && row.sessionId == sid
    requires WithinCap(items.at, sid, cap)
    requires !Admission.EnforcePerGuestCap(SessionRows(items, sid), row.guestId, cap)
    ensures WithinCap(items.at[row.id := row], sid, cap)
  {
    CountIsStoreCount(items, issued, sid, row.guestId);
    var after := items.at[row.id := row];
    forall guestId ensures |ActiveIds(after, sid, guestId)| <= if cap < 0 then 0 else cap {
      ActiveIdsPut(items.at, sid, row, guestId);
    }
  }

  lemma InsertKeepsNoDuplicates(items: OrderedMap<string, Row>, issued: set<string>, sid: string, row: Row)
    requires ItemsOk(items, issued) && row.sessionId == sid && row.id !in items.at && NoDuplicates(items.at, sid)
    requires var rows := SessionRows(items, sid);
      forall i :: 0 <= i < |rows| ==> !(rows[i].trackUri == row.trackUri && IsActive(rows[i].status))
    ensures NoDuplicates(items.at[row.id := row], sid)
  {
    var rows := SessionRows(items, sid);
    SessionRowsOk(items, issued, sid);
    forall id | id in items.at && ActiveIn(items.at[id], sid) ensures items.at[id].trackUri != row.trackUri {
      var i :| 0 <= i < |rows| && rows[i] == items.at[id];
    }
  }

  /** The host's cap and duplicate rule, for as long as the session row can be read. */
  ghost predicate FixedRules(dir: Directory, cap: int, allowDuplicates: bool) {
    dir.session.Some? ==>
      dir.session.value.songsPerGuestCap == cap && dir.session.value.allowDuplicates == allowDuplicates
  }

  ghost predicate LimitsHold(w: World, cap: int, allowDuplicates: bool) {
    && FixedRules(w.dir, cap, allowDuplicates)
    && WithinCap(w.items.at, w.sid, cap)
    && (!allowDuplicates ==> NoDuplicates(w.items.at, w.sid))
  }

  lemma InsertKeepsLimits(w: World, row: Row, w': World, cap: int, dup: bool)
    requires LimitsHold(w, cap, dup) && w'.sid == w.sid && w'.dir == w.dir
    requires WithinCap(w.items.at[row.id := row], w.sid, cap)
      && (!dup ==> NoDuplicates(w.items.at[row.id := row], w.sid))
    requires w'.items.at == w.items.at[row.id := row] || w'.items.at == w.items.at[row.id := row] - {row.id}
    ensures LimitsHold(w', cap, dup)
  {
    ShrinkingKeepsLimits(w.items.at[row.id := row], w'.items.at, w.sid, cap);
  }

  /** What an admitted request has been checked against. */
  lemma AdmittedMeans(w: World, token: string, track: Track, karaoke: Option<string>, env: RequestEnv)
    requires AdmitRequest(w, token, track, karaoke, env).Ok?
    ensures var (session, guestId, _) := AdmitRequest(w, token, track, karaoke, env).value;
      && w.dir.session == Some(session)
      && Admission.CanEnqueue(session, guestId, w.sid, SessionRows(w.items, w.sid), env.now, track.uri).None?
  {
  }

  lemma AdmittedKeepsLimits(w: World, session: Session, guestId: string, row: Row, now: int)
    requires StoreOk(w) && row.id !in w.issued && row.sessionId == w.sid && row.guestId == guestId
    requires Admission.CanEnqueue(session, guestId, w.sid, SessionRows(w.items, w.sid), now, row.trackUri).None?
    ensures WithinCap(w.items.at, w.sid, session.songsPerGuestCap) ==>
      WithinCap(w.items.at[row.id := row], w.sid, session.songsPerGuestCap)
    ensures !session.allowDuplicates && NoDuplicates(w.items.at, w.sid) ==>
      NoDuplicates(w.items.at[row.id := row], w.sid)
  {
    if WithinCap(w.items.at, w.sid, session.songsPerGuestCap) {
      InsertKeepsCap(w.items, w.issued, w.sid, row, session.songsPerGuestCap);
    }
    if !session.allowDuplicates && NoDuplicates(w.items.at, w.sid) {
      InsertKeepsNoDuplicates(w.items, w.issued, w.sid, row);
    }
  }

  lemma RequestKeepsLimits(w: World, token: string, track: Track, karaoke: Option<string>, env: RequestEnv, cap: int,
                           dup: bool)
    requires StoreOk(w) && LimitsHold(w, cap, dup) && env.itemId !in w.issued
    ensures LimitsHold(RequestTrack(w, token, track, karaoke, env).0, cap, dup)
  {
    var admitted := AdmitRequest(w, token, track, karaoke, env);
    RequestItems(w, token, track, karaoke, env);
    if admitted.Ok? {
      var (session, guestId, name) := admitted.value;
      var row := NewRow(w.sid, session, guestId, track, env);
      AdmittedMeans(w, token, track, karaoke, env);
      AdmittedKeepsLimits(w, session, guestId, row, env.now);
      InsertKeepsLimits(w, row, RequestTrack(w, token, track, karaoke, env).0, cap, dup);
    }
  }

  lemma RequestItems(w: World, token: string, track: Track, karaoke: Option<string>, env: RequestEnv)
    ensures var w' := RequestTrack(w, token, track, karaoke, env).0;
      && w'.sid == w.sid && w'.dir == w.dir && w'.votes == w.votes && w.issued <= w'.issued
      && match AdmitRequest(w, token, track, karaoke, env)
         case Err(_) => w' == w
         case Ok((session, guestId, _)) =>
           var row := NewRow(w.sid, session, guestId, track, env);
           && env.itemId in w'.issued
           && (w'.items.at == w.items.at[row.id := row] || w'.items.at == w.items.at[row.id := row] - {row.id})
  {
    var admitted := AdmitRequest(w, token, track, karaoke, env);
    if admitted.Ok? {
      var (session, guestId, name) := admitted.value;
      PlacedItems(w, NewRow(w.sid, session, guestId, track, env), name, env);
    }
  }

  lemma PlacedItems(w: World, row: Row, name: Option<string>, env: RequestEnv)
    ensures var w' := PlaceRequest(w, row, name, env).0;
      && w'.sid == w.sid && w'.dir == w.dir && w'.votes == w.votes && w.issued + {env.itemId} <= w'.issued
      && (w'.items.at == w.items.at[row.id := row] || w'.items.at == w.items.at[row.id := row] - {row.id})
  {
    var w1, w' := InsertRequest(w, row, name, env), PlaceRequest(w, row, name, env).0;
    InsertedItems(w, row, name, env);
    var w2 := Publish(w1, ItemApproved(row.id), env.now);
    assert w' == w1 || w' == w2 || w' == DeleteRow(w2, row.id, env.now);
  }

  lemma InsertedItems(w: World, row: Row, name: Option<string>, env: RequestEnv)
    ensures var w' := InsertRequest(w, row, name, env);
      && w'.sid == w.sid && w'.dir == w.dir && w'.votes == w.votes && w.issued + {env.itemId} <= w'.issued
      && w'.items == w.items.Put(row.id, row)
  {
  }

  lemma PassShrinks(w: World, v: Reconcile.View, skipWorked: bool)
    requires ItemsOk(w.items, w.issued)
    ensures Shrinks(w.items.at, PassStore(w, v, skipWorked).at, w.sid)
  {
    var after := PassStore(w, v, skipWorked).at;
    forall id | id in after && ActiveIn(after[id], w.sid)
      ensures ActiveIn(w.items.at[id], w.sid)
        && w.items.at[id].guestId == after[id].guestId && w.items.at[id].trackUri == after[id].trackUri
    {
      PassKeepsRow(w, v, skipWorked, id);
    }
  }

  /** A pass plays the row out: past the grace, and neither playing nor queued at the provider. */
  predicate PlayedOut(r: Row, v: Reconcile.View) {
    && (r.status.Approved? || r.status.Playing?)
    && !Reconcile.Young(r, v.now) && !Reconcile.IsCurrent(r, v) && !Reconcile.IsOnProvider(r, v)
  }

  lemma PassRowActive(w: World, v: Reconcile.View, skipWorked: bool, id: string)
    requires StoreOk(w) && id in w.items.at && w.items.at[id].sessionId == w.sid
    ensures var before, after := w.items.at[id], PassStore(w, v, skipWorked).at[id];
      IsActive(after.status) <==> IsActive(before.status) && !PlayedOut(before, v)
  {
    var hit := Reconcile.RejectedHit(SessionRows(w.items, w.sid), v.playing);
    var tombstone := if skipWorked && hit.Some? then Some(hit.value.id) else None;
    PassTombstoneGood(w, v, skipWorked);
    assert PassStore(w, v, skipWorked) == Reconcile.StoreAfter(w.items, w.sid, v, tombstone);
    Reconcile.PassSettlesOldRows(w.items, w.sid, v, tombstone, id);
    PassKeepsRow(w, v, skipWorked, id);
  }

  /** A pass frees a guest's places under the cap exactly where rows have played out. */
  lemma PassFreesExactly(w: World, v: Reconcile.View, skipWorked: bool, guestId: string)
    requires StoreOk(w)
    ensures ActiveIds(PassStore(w, v, skipWorked).at, w.sid, guestId) ==
      set id | id in ActiveIds(w.items.at, w.sid, guestId) && !PlayedOut(w.items.at[id], v)
  {
    var after := PassStore(w, v, skipWorked).at;
    forall id | id in w.items.at
      ensures after[id].guestId == w.items.at[id].guestId && after[id].sessionId == w.items.at[id].sessionId
      ensures w.items.at[id].sessionId == w.sid ==>
        (IsActive(after[id].status) <==> IsActive(w.items.at[id].status) && !PlayedOut(w.items.at[id], v))
    {
      PassKeepsRow(w, v, skipWorked, id);
      if w.items.at[id].sessionId == w.sid {
        PassRowActive(w, v, skipWorked, id);
      }
    }
  }

  lemma PutShrinks(items: map<string, Row>, sid: string, r: Row)
    requires r.id in items && items[r.id].sessionId == r.sessionId
    requires items[r.id].guestId == r.guestId && items[r.id].trackUri == r.trackUri
    requires IsActive(r.status) ==> IsActive(items[r.id].status)
    ensures Shrinks(items, items[r.id := r], sid)
  {
  }

  lemma ModerateShrinks(w: World, itemId: string, approve: bool, now: int, until: Option<int>)
    requires ItemsOk(w.items, w.issued) && !Revives(w, CModerate(itemId, approve, until))
    ensures Shrinks(w.items.at, Moderate(w, itemId, approve, now, until).0.items.at, w.sid)
  {
    if Moderate(w, itemId, approve, now, until).1.Ok? {
      PutShrinks(w.items.at, w.sid, Decided(w.items.at[itemId], if approve then Approved else Rejected, now));
    }
  }

  lemma VoteShrinks(w: World, itemId: string, token: string, now: int)
    requires ItemsOk(w.items, w.issued)
    ensures Shrinks(w.items.at, CastSkipVote(w, itemId, token, now).0.items.at, w.sid)
  {
    var admitted := AdmitVote(w, itemId, token);
    if admitted.Ok? {
      var (session, guestId, item) := admitted.value;
      PutShrinks(w.items.at, w.sid, Voted(item));
      PutShrinks(w.items.at, w.sid, Decided(Voted(item), Rejected, now));
      VotedItems(w, session, guestId, item, now);
    }
  }

  lemma VotedItems(w: World, session: Session, guestId: string, item: Row, now: int)
    ensures RecordVote(w, session, guestId, item, now).items.at == w.items.at[item.id :=
      if AutoRejects(session, item.skipVotes + 1) then Decided(Voted(item), Rejected, now) else Voted(item)]
  {
  }

  lemma QueueStepShrinks(w: World, c: Command, now: int)
    requires ItemsOk(w.items, w.issued) && !Revives(w, c)
    requires c.CModerate? || c.CRemoveOwn? || c.CVote?
    ensures Shrinks(w.items.at, Step(w, c, now).items.at, w.sid)
  {
    match c
    case CModerate(itemId, approve, until) => ModerateShrinks(w, itemId, approve, now, until);
    case CVote(itemId, token) => VoteShrinks(w, itemId, token, now);
    case CRemoveOwn(itemId, token) => RemoveOwnShrinks(w, itemId, token, now);
  }

  lemma RemoveOwnShrinks(w: World, itemId: string, token: string, now: int)
    ensures Shrinks(w.items.at, RemoveOwn(w, itemId, token, now).0.items.at, w.sid)
  {
    var w' := RemoveOwn(w, itemId, token, now).0;
    assert w' == w || w' == DeleteRow(w, itemId, now);
  }

  lemma OtherStepShrinks(w: World, c: Command, now: int)
    requires ItemsOk(w.items, w.issued) && !c.CRequest? && !Revives(w, c)
    ensures Shrinks(w.items.at, Step(w, c, now).items.at, w.sid)
  {
    if c.CPoll? {
      PollStep(w, c.view, c.skipWorked, now);
      PassShrinks(w, c.view.(now := now), c.skipWorked);
    } else if c.CModerate? || c.CRemoveOwn? || c.CVote? {
      QueueStepShrinks(w, c, now);
    } else {
      OtherStepItems(w, c, now);
    }
  }

  lemma OtherStepItems(w: World, c: Command, now: int)
    requires !c.CRequest? && !c.CModerate? && !c.CRemoveOwn? && !c.CVote? && !c.CPoll?
    ensures Step(w, c, now).items == w.items && Step(w, c, now).votes == w.votes
  {
  }

  lemma StepKeepsDirectory(w: World, c: Command, now: int)
    ensures Step(w, c, now).sid == w.sid
    ensures Step(w, c, now).dir == if c.CDirectory? then c.dir else w.dir
  {
    match c
    case CRequest(token, track, karaoke, env) => RequestItems(w, token, track, karaoke, env.(now := now));
    case CVote(itemId, token) =>
    case CTrackChange(uri) => TrackChangeDirectory(w, uri, now);
    case _ =>
  }

  lemma TrackChangeDirectory(w: World, uri: Option<string>, now: int)
    ensures HandleTrackChange(w, uri, now).sid == w.sid && HandleTrackChange(w, uri, now).dir == w.dir
  {
  }

  lemma StepKeepsLimits(w: World, c: Command, now: int, cap: int, dup: bool)
    requires StoreOk(w) && Plausible(w, c, now) && LimitsHold(w, cap, dup) && !Revives(w, c)
    requires c.CDirectory? ==> FixedRules(c.dir, cap, dup)
    ensures LimitsHold(Step(w, c, now), cap, dup)
  {
    StepKeepsDirectory(w, c, now);
    if c.CRequest? {
      RequestKeepsLimits(w, c.token, c.track, c.karaoke, c.env.(now := now), cap, dup);
    } else {
      OtherStepShrinks(w, c, now);
      ShrinkingKeepsLimits(w.items.at, Step(w, c, now).items.at, w.sid, cap);
    }
  }

  ghost predicate RulesFixedIn(run: seq<Timed>, cap: int, dup: bool) {
    forall i :: 0 <= i < |run| ==> run[i].c.CDirectory? ==> FixedRules(run[i].c.dir, cap, dup)
  }

  // Revivals pass no gate: the service approves whatever the host names.

  /** Does the host's approval bring back a row that stopped being active? */
  predicate RevivalGoesThrough(w: World, c: Command) {
    Revives(w, c) && !ApprovalLimited(w, c.limitedUntil)
  }

  /** Is there room for the row to come back: its guest below the cap, and nobody else with its track? */
  predicate RevivalFits(w: World, c: Command, cap: int, dup: bool)
    requires Revives(w, c)
  {
    var row := w.items.at[c.itemId];
    && |ActiveIds(w.items.at, w.sid, row.guestId)| < cap
    && (dup || forall id :: id in w.items.at && ActiveIn(w.items.at[id], w.sid) ==>
        w.items.at[id].trackUri != row.trackUri)
  }

  lemma RevivedIds(items: map<string, Row>, sid: string, id: string, row: Row, guestId: string)
    requires id in items && !IsActive(items[id].status) && IsActive(row.status) && row.sessionId == sid
    requires row.guestId == items[id].guestId
    ensures |ActiveIds(items[id := row], sid, guestId)| ==
      |ActiveIds(items, sid, guestId)| + if guestId == row.guestId then 1 else 0
  {
    var before, after := ActiveIds(items, sid, guestId), ActiveIds(items[id := row], sid, guestId);
    assert id !in before;
    assert after == if guestId == row.guestId then before + {id} else before;
  }

  lemma RevivedCap(items: map<string, Row>, sid: string, id: string, row: Row, cap: int)
    requires id in items && !IsActive(items[id].status) && IsActive(row.status) && row.sessionId == sid
    requires row.guestId == items[id].guestId && WithinCap(items, sid, cap)
    ensures WithinCap(items[id := row], sid, cap) <==> |ActiveIds(items, sid, row.guestId)| < cap
  {
    var after, bound := items[id := row], if cap < 0 then 0 else cap;
    RevivedIds(items, sid, id, row, row.guestId);
    if |ActiveIds(items, sid, row.guestId)| < cap {
      forall guestId ensures |ActiveIds(after, sid, guestId)| <= bound {
        RevivedIds(items, sid, id, row, guestId);
      }
    } else {
      assert |ActiveIds(after, sid, row.guestId)| > bound;
    }
  }

  lemma RevivedDuplicates(items: map<string, Row>, sid: string, id: string, row: Row)
    requires id in items && !IsActive(items[id].status) && IsActive(row.status) && row.sessionId == sid
    requires NoDuplicates(items, sid)
    ensures NoDuplicates(items[id := row], sid)
      <==> forall k :: k in items && ActiveIn(items[k], sid) ==> items[k].trackUri != row.trackUri
  {
    var after := items[id := row];
    if k :| k in items && ActiveIn(items[k], sid) && items[k].trackUri == row.trackUri {
      assert k != id && ActiveIn(after[k], sid) && ActiveIn(after[id], sid) && after[k].trackUri == after[id].trackUri;
    }
  }

  /** A revival keeps the cap and the duplicate rule if and only if there was room for it. */
  lemma RevivalLimitsExact(w: World, c: Command, now: int, cap: int, dup: bool)
    requires StoreOk(w) && LimitsHold(w, cap, dup) && RevivalGoesThrough(w, c)
    ensures LimitsHold(Step(w, c, now), cap, dup) <==> RevivalFits(w, c, cap, dup)
  {
    var row := Decided(w.items.at[c.itemId], Approved, now);
    StepKeepsDirectory(w, c, now);
    assert Step(w, c, now).items == Moderate(w, c.itemId, true, now, c.limitedUntil).0.items;
    assert Step(w, c, now).items.at == w.items.at[c.itemId := row];
    RevivedCap(w.items.at, w.sid, c.itemId, row, cap);
    if !dup {
      RevivedDuplicates(w.items.at, w.sid, c.itemId, row);
    }
  }

  lemma LimitedRevivalIdles(w: World, c: Command, now: int)
    requires Revives(w, c) && ApprovalLimited(w, c.limitedUntil)
    ensures Step(w, c, now) == w.(clock := now)
  {
  }

  /** Every step keeps the rules, except a revival that goes through without room for it. */
  lemma StepLimitsExact(w: World, c: Command, now: int, cap: int, dup: bool)
    requires StoreOk(w) && Plausible(w, c, now) && LimitsHold(w, cap, dup)
    requires c.CDirectory? ==> FixedRules(c.dir, cap, dup)
    ensures LimitsHold(Step(w, c, now), cap, dup) <==> (RevivalGoesThrough(w, c) ==> RevivalFits(w, c, cap, dup))
  {
    if RevivalGoesThrough(w, c) {
      RevivalLimitsExact(w, c, now, cap, dup);
    } else if Revives(w, c) {
      LimitedRevivalIdles(w, c, now);
    } else {
      StepKeepsLimits(w, c, now, cap, dup);
    }
  }

  /** Every revival of the run finds room. */
  ghost predicate RevivalsFit(w: World, run: seq<Timed>, cap: int, dup: bool) {
    run == [] ||
    (RevivalsFit(w, Init(run), cap, dup) &&
     (RevivalGoesThrough(RunFrom(w, Init(run)), Last(run).c) ==>
      RevivalFits(RunFrom(w, Init(run)), Last(run).c, cap, dup)))
  }

  /** With fixed rules, over every run of requests, roll-backs, removals, votes, decisions and poller
      passes in which revivals find room, no guest's active count exceeds the cap and, with duplicates
      off, no two active rows share a track. */
  lemma {:induction false} LimitsNeverExceeded(w: World, run: seq<Timed>, cap: int, dup: bool)
    requires StoreOk(w) && LimitsHold(w, cap, dup)
    requires PlausibleRun(w, run) && RulesFixedIn(run, cap, dup) && RevivalsFit(w, run, cap, dup)
    ensures StoreOk(RunFrom(w, run)) && LimitsHold(RunFrom(w, run), cap, dup)
  {
    if run != [] {
      var l := run[|run| - 1];
      assert RulesFixedIn(Init(run), cap, dup) by {
        assert forall i :: 0 <= i < |run| - 1 ==> Init(run)[i] == run[i];
      }
      LimitsNeverExceeded(w, Init(run), cap, dup);
      var before := RunFrom(w, Init(run));
      StepStore(before, l.c, l.now);
      StepLimitsExact(before, l.c, l.now, cap, dup);
    }
  }

  // ---------------------------------------------------------------- votes

  function VotersOf(votes: set<(string, string)>, itemId: string): set<(string, string)> {
    set v | v in votes && v.0 == itemId
  }

  /** A row's vote count is the number of different guests who voted to skip it. */
  ghost predicate VotesCounted(w: World) {
    && (forall v :: v in w.votes ==> v.0 in w.issued)
    && (forall id :: id in w.items.at ==> w.items.at[id].skipVotes == |VotersOf(w.votes, id)|)
  }

  lemma NewVoteCounts(votes: set<(string, string)>, itemId: string, guestId: string)
    requires (itemId, guestId) !in votes
    ensures var after := votes + {(itemId, guestId)};
      && |VotersOf(after, itemId)| == |VotersOf(votes, itemId)| + 1
      && forall id :: id != itemId ==> VotersOf(after, id) == VotersOf(votes, id)
  {
    assert VotersOf(votes + {(itemId, guestId)}, itemId) == VotersOf(votes, itemId) + {(itemId, guestId)};
    forall id | id != itemId ensures VotersOf(votes + {(itemId, guestId)}, id) == VotersOf(votes, id) {
    }
  }

  lemma RecordVoteCounts(w: World, session: Session, guestId: string, item: Row, now: int)
    requires VotesCounted(w) && ItemsOk(w.items, w.issued)
    requires item.id in w.items.at && w.items.at[item.id] == item && (item.id, guestId) !in w.votes
    ensures VotesCounted(RecordVote(w, session, guestId, item, now))
  {
    NewVoteCounts(w.votes, item.id, guestId);
    VotedItems(w, session, guestId, item, now);
    var w' := RecordVote(w, session, guestId, item, now);
    assert w'.votes == w.votes + {(item.id, guestId)} && w'.issued == w.issued;
  }

  lemma RequestCounts(w: World, token: string, track: Track, karaoke: Option<string>, env: RequestEnv)
    requires VotesCounted(w) && env.itemId !in w.issued
    ensures VotesCounted(RequestTrack(w, token, track, karaoke, env).0)
  {
    if AdmitRequest(w, token, track, karaoke, env).Ok? {
      RequestItems(w, token, track, karaoke, env);
      assert VotersOf(w.votes, env.itemId) == {};
    }
  }

  lemma StepKeepsVotesCounted(w: World, c: Command, now: int)
    requires StoreOk(w) && Plausible(w, c, now) && VotesCounted(w)
    ensures VotesCounted(Step(w, c, now))
  {
    match c
    case CRequest(token, track, karaoke, env) => RequestCounts(w, token, track, karaoke, env.(now := now));
    case CVote(itemId, token) => CastVoteCounts(w, itemId, token, now);
    case CModerate(itemId, approve, until) => ModerateCounts(w, itemId, approve, now, until);
    case CRemoveOwn(itemId, token) => RemoveOwnCounts(w, itemId, token, now);
    case CPoll(view, skipWorked) => PassCounts(w, view.(now := now), skipWorked);
    case _ =>
      OtherStepItems(w, c, now);
      OtherStepIssues(w, c, now);
  }

  lemma OtherStepIssues(w: World, c: Command, now: int)
    requires !c.CRequest? && !c.CModerate? && !c.CRemoveOwn? && !c.CVote? && !c.CPoll?
    ensures w.issued <= Step(w, c, now).issued
  {
  }

  lemma CastVoteCounts(w: World, itemId: string, token: string, now: int)
    requires ItemsOk(w.items, w.issued) && VotesCounted(w)
    ensures VotesCounted(CastSkipVote(w, itemId, token, now).0)
  {
    var admitted := AdmitVote(w, itemId, token);
    if admitted.Ok? {
      RecordVoteCounts(w, admitted.value.0, admitted.value.1, admitted.value.2, now);
    }
  }

  lemma ModerateCounts(w: World, itemId: string, approve: bool, now: int, until: Option<int>)
    requires ItemsOk(w.items, w.issued) && VotesCounted(w)
    ensures VotesCounted(Moderate(w, itemId, approve, now, until).0)
  {
  }

  lemma RemoveOwnCounts(w: World, itemId: string, token: string, now: int)
    requires VotesCounted(w)
    ensures VotesCounted(RemoveOwn(w, itemId, token, now).0)
  {
  }

  lemma PassCounts(w: World, v: Reconcile.View, skipWorked: bool)
    requires ItemsOk(w.items, w.issued) && VotesCounted(w)
    ensures VotesCounted(PollerPass(w, v, skipWorked))
  {
    forall id | id in w.items.at
      ensures PassStore(w, v, skipWorked).at[id].skipVotes == w.items.at[id].skipVotes
    {
      PassKeepsRow(w, v, skipWorked, id);
    }
  }

  /** Over every run the threshold is compared with the number of different voters. */
  lemma {:induction false} VotesAlwaysCounted(w: World, run: seq<Timed>)
    requires StoreOk(w) && VotesCounted(w) && PlausibleRun(w, run)
    ensures StoreOk(RunFrom(w, run)) && VotesCounted(RunFrom(w, run))
  {
    if run != [] {
      VotesAlwaysCounted(w, Init(run));
      var before := RunFrom(w, Init(run));
      StepStore(before, Last(run).c, Last(run).now);
      StepKeepsVotesCounted(before, Last(run).c, Last(run).now);
    }
  }

  // ---------------------------------------------------------------- from the start of a session

  /** A new session is within every limit. */
  lemma FreshSessionLimits(sid: string, dir: Directory, now: int, cascades: bool, cap: int, dup: bool, mics: int)
    requires FixedRules(dir, cap, dup) && mics >= 0
    ensures var w := FreshSession(sid, dir, now, cascades);
      StoreOk(w) && LimitsHold(w, cap, dup) && MicsWithin(w.claims, mics) && VotesCounted(w)
  {
    var w := FreshSession(sid, dir, now, cascades);
    forall guestId ensures ActiveIds(w.items.at, sid, guestId) == {} {
    }
    forall id ensures Singers(w.claims, id) == [] {
    }
  }

  /** So over every run from the start, with the rules fixed and revivals that find room, it stays there. */
  lemma LimitsFromTheStart(sid: string, dir: Directory, now: int, cascades: bool, run: seq<Timed>,
                           cap: int, dup: bool, mics: int)
    requires FixedRules(dir, cap, dup) && FixedMics(dir, mics) && mics >= 1
    requires var w := FreshSession(sid, dir, now, cascades);
      && PlausibleRun(w, run) && RulesFixedIn(run, cap, dup) && MicsFixedIn(run, mics) && RevivalsFit(w, run, cap, dup)
    ensures var w' := RunFrom(FreshSession(sid, dir, now, cascades), run);
      LimitsHold(w', cap, dup) && MicsWithin(w'.claims, mics) && VotesCounted(w')
  {
    var w := FreshSession(sid, dir, now, cascades);
    FreshSessionLimits(sid, dir, now, cascades, cap, dup, mics);
    LimitsNeverExceeded(w, run, cap, dup);
    MicsNeverExceeded(w, run, mics);
    VotesAlwaysCounted(w, run);
  }
}

/** The live-session snapshot and its pure transition function: what every room and every client
    folds the broadcast events with. */
module Snapshot {
  import opened Collections
  import opened QueueTypes
  import opened SyncTypes

  const RECENTLY_PLAYED_MAX: nat := 10

  datatype ClaimSummary = ClaimSummary(guestId: string, displayName: string)

  datatype ItemSummary = ItemSummary(
    id: string, guestId: string, trackUri: string, trackName: string, artistName: string,
    albumArtUrl: Option<string>, durationMs: Option<real>, status: Status, skipVotes: nat,
    createdAtEpochMs: int, decidedAtEpochMs: Option<int>, karaokeClaims: seq<ClaimSummary>)

  datatype KaraokeState = KaraokeState(spotlightItemId: Option<string>, paused: bool, pausedUntilEpochMs: Option<int>)

  datatype ProviderStatus = ProviderOk | RateLimited(providerId: string, untilEpochMs: int)

  datatype Tally = Tally(count: nat, threshold: int)

  datatype TrackTally = TrackTally(trackUri: string, tally: Tally)

  datatype Snapshot = Snapshot(
    sessionId: string,
    nowPlaying: Option<NowPlaying>,
    recentlyPlayed: seq<NowPlaying>,
    playbackClock: Option<ClockSample>,
    lyrics: Option<LyricsDocument>,
    activeLyricsWindow: seq<LyricsLine>,
    queue: seq<ItemSummary>,
    pending: seq<ItemSummary>,
    providerQueue: seq<Track>,
    nowPlayingSkipVote: Option<TrackTally>,
    providerQueueSkipVotes: map<string, Tally>,
    activeGuestCount: int,
    queuedGuestCount: int,
    karaoke: KaraokeState,
    providerStatus: ProviderStatus,
    snapshotAtEpochMs: int)

  datatype Event =
    | ItemRequested(item: ItemSummary)
    | ItemApproved(itemId: string)
    | ItemRejected(itemId: string)
    | ItemRemoved(itemId: string)
    | NowPlayingUpdated(track: Option<NowPlaying>)
    | SkipVoteUpdated(itemId: string, votes: nat, threshold: int)
    | NowPlayingSkipVoteUpdated(trackUri: string, count: nat, threshold: int)
    | ProviderQueueUpdated(tracks: seq<Track>)
    | ProviderQueueSkipVoteUpdated(trackUri: string, count: nat, threshold: int)
    | ClaimAdded(itemId: string, claim: ClaimSummary)
    | ClaimRemoved(itemId: string, guestId: string)
    | Spotlight(spotlightItemId: Option<string>, claims: seq<ClaimSummary>)
    | KaraokePaused(itemId: string, untilEpochMs: int)
    | KaraokeResumed(itemId: string)
    | ProviderStatusUpdated(status: ProviderStatus)
    | GuestSlotsUpdated(activeCount: int, queuedCount: int)
    | ClockSampled(sample: ClockSample)
    | LyricsLoaded(trackUri: string, lyrics: Option<LyricsDocument>)
    // Events the snapshot does not carry: playback.corrected, lyrics.feedback_recorded,
    // sync.cue_window_updated, session.ended and session.settings_updated.
    | NotFolded

  const NO_KARAOKE := KaraokeState(None, false, None)

  function EmptySnapshot(sessionId: string, now: int): Snapshot {
    Snapshot(sessionId, None, [], None, None, [], [], [], [], None, map[], 0, 0, NO_KARAOKE, ProviderOk, now)
  }

  // ---------------------------------------------------------------- item lists

  /** `list.findIndex((i) => i.id === id)`. */
  function FindIndex(list: seq<ItemSummary>, id: string): (k: int)
    ensures -1 <= k < |list|
    ensures k >= 0 ==> list[k].id == id && forall j :: 0 <= j < k ==> list[j].id != id
    ensures k < 0 ==> forall j :: 0 <= j < |list| ==> list[j].id != id
  {
    if list == [] then -1
    else if list[0].id == id then 0
    else var k := FindIndex(list[1..], id); if k < 0 then -1 else k + 1
  }

  function RemoveAt(list: seq<ItemSummary>, k: nat): seq<ItemSummary>
    requires k < |list|
  {
    list[..k] + list[k + 1..]
  }

  function RemoveId(list: seq<ItemSummary>, id: string): seq<ItemSummary> {
    Filter(list, (i: ItemSummary) => i.id != id)
  }

  /** What the karaoke events do to the singers of one item. */
  datatype ClaimsEdit =
    | AddSinger(claim: ClaimSummary)
    | DropSinger(guestId: string)
    | SetSingers(claims: seq<ClaimSummary>)

  function WithoutGuest(claims: seq<ClaimSummary>, guestId: string): seq<ClaimSummary> {
    Filter(claims, (c: ClaimSummary) => c.guestId != guestId)
  }

  function EditClaims(claims: seq<ClaimSummary>, edit: ClaimsEdit): seq<ClaimSummary> {
    match edit
    case AddSinger(claim) => WithoutGuest(claims, claim.guestId) + [claim]
    case DropSinger(guestId) => WithoutGuest(claims, guestId)
    case SetSingers(newClaims) => newClaims
  }

  function EditAt(list: seq<ItemSummary>, k: nat, edit: ClaimsEdit): seq<ItemSummary>
    requires k < |list|
  {
    list[k := list[k].(karaokeClaims := EditClaims(list[k].karaokeClaims, edit))]
  }

  function UpdateItemById(s: Snapshot, itemId: string, edit: ClaimsEdit): Snapshot {
    var p := FindIndex(s.pending, itemId);
    if p >= 0 then s.(pending := EditAt(s.pending, p, edit))
    else
      var q := FindIndex(s.queue, itemId);
      if q >= 0 then s.(queue := EditAt(s.queue, q, edit)) else s
  }

  // ---------------------------------------------------------------- the transition function

  function ApplyApproved(s: Snapshot, itemId: string): Snapshot {
    var p := FindIndex(s.pending, itemId);
    if p < 0 then
      var q := FindIndex(s.queue, itemId);
      if q < 0 then s else s.(queue := s.queue[q := s.queue[q].(status := Approved)])
    else
      s.(pending := RemoveAt(s.pending, p), queue := s.queue + [s.pending[p].(status := Approved)])
  }

  function ApplyRejected(s: Snapshot, itemId: string): Snapshot {
    var p := FindIndex(s.pending, itemId);
    if p >= 0 then s.(pending := RemoveAt(s.pending, p)) else
      var q := FindIndex(s.queue, itemId);
      if q < 0 then s else s.(queue := RemoveAt(s.queue, q))
  }

  predicate TrackChanged(prev: Option<NowPlaying>, next: Option<NowPlaying>) {
    || (prev.None? && next.Some?)
    || (prev.Some? && next.None?)
    || (prev.Some? && next.Some? && prev.value.track.uri != next.value.track.uri)
  }

  function ApplyNowPlaying(s: Snapshot, next: Option<NowPlaying>): Snapshot {
    var prev := s.nowPlaying;
    var changed := TrackChanged(prev, next);
    var recentlyPlayed :=
      if changed && prev.Some? && (s.recentlyPlayed == [] || s.recentlyPlayed[0].track.uri != prev.value.track.uri)
      then Slice([prev.value] + s.recentlyPlayed, 0, RECENTLY_PLAYED_MAX)
      else s.recentlyPlayed;
    s.(nowPlaying := next,
       recentlyPlayed := recentlyPlayed,
       nowPlayingSkipVote := if changed then None else s.nowPlayingSkipVote,
       lyrics := if changed then None else s.lyrics)
  }

  function ApplySpotlight(s: Snapshot, itemId: Option<string>, claims: seq<ClaimSummary>): Snapshot {
    var prev := s.karaoke;
    var changed := prev.spotlightItemId != itemId;
    var karaoke := KaraokeState(itemId, if changed then false else prev.paused,
                                if changed then None else prev.pausedUntilEpochMs);
    var next := if itemId.None? then s else UpdateItemById(s, itemId.value, SetSingers(claims));
    next.(karaoke := karaoke)
  }

  function ApplyEvent(s: Snapshot, event: Event): Snapshot {
    match event
    case ItemRequested(item) => s.(pending := s.pending + [item])
    case ItemApproved(itemId) => ApplyApproved(s, itemId)
    case ItemRejected(itemId) => ApplyRejected(s, itemId)
    case ItemRemoved(itemId) => s.(queue := RemoveId(s.queue, itemId), pending := RemoveId(s.pending, itemId))
    case NowPlayingUpdated(track) => ApplyNowPlaying(s, track)
    case SkipVoteUpdated(itemId, votes, _) =>
      var q := FindIndex(s.queue, itemId);
      if q < 0 then s else s.(queue := s.queue[q := s.queue[q].(skipVotes := votes)])
    case NowPlayingSkipVoteUpdated(uri, count, threshold) =>
      s.(nowPlayingSkipVote := Some(TrackTally(uri, Tally(count, threshold))))
    case ProviderQueueUpdated(tracks) =>
      var remaining := set t | t in tracks :: t.uri;
      s.(providerQueue := tracks,
         providerQueueSkipVotes := map uri | uri in s.providerQueueSkipVotes && uri in remaining ::
           s.providerQueueSkipVotes[uri])
    case ProviderQueueSkipVoteUpdated(uri, count, threshold) =>
      s.(providerQueueSkipVotes := s.providerQueueSkipVotes[uri := Tally(count, threshold)])
    case ClaimAdded(itemId, claim) => UpdateItemById(s, itemId, AddSinger(claim))
    case ClaimRemoved(itemId, guestId) => UpdateItemById(s, itemId, DropSinger(guestId))
    case Spotlight(itemId, claims) => ApplySpotlight(s, itemId, claims)
    case KaraokePaused(itemId, until) => s.(karaoke := KaraokeState(Some(itemId), true, Some(until)))
    case KaraokeResumed(_) => s.(karaoke := s.karaoke.(paused := false, pausedUntilEpochMs := None))
    case ProviderStatusUpdated(status) => s.(providerStatus := status)
    case GuestSlotsUpdated(active, queued) => s.(activeGuestCount := active, queuedGuestCount := queued)
    case ClockSampled(sample) => s.(playbackClock := Some(sample))
    case LyricsLoaded(_, lyrics) => s.(lyrics := lyrics)
    case NotFolded => s
  }

  /** The snapshot after a sequence of events, oldest first. */
  function Fold(s: Snapshot, events: seq<Event>): Snapshot {
    if events == [] then s else ApplyEvent(Fold(s, Init(events)), Last(events))
  }

  // ---------------------------------------------------------------- recently played

  /** The track playing after `events`, starting from silence. */
  function PlayingAfter(events: seq<Event>): Option<NowPlaying> {
    if events == [] then None
    else if Last(events).NowPlayingUpdated? then Last(events).track
    else PlayingAfter(Init(events))
  }

  /** Every track that ever stopped playing, newest first, without any bound. */
  function Departed(events: seq<Event>): seq<NowPlaying> {
    if events == [] then [] else
      var before := PlayingAfter(Init(events));
      if Last(events).NowPlayingUpdated? && before.Some? && TrackChanged(before, Last(events).track)
      then [before.value] + Departed(Init(events))
      else Departed(Init(events))
  }

  /** Each stretch of neighbours with one URI is replaced by its oldest member. */
  function Collapse(tracks: seq<NowPlaying>): seq<NowPlaying> {
    if tracks == [] then [] else
      var older := Collapse(tracks[1..]);
      if older != [] && older[0].track.uri == tracks[0].track.uri then older else [tracks[0]] + older
  }

  lemma {:induction false} CollapseHasNoRepeats(tracks: seq<NowPlaying>)
    ensures var c := Collapse(tracks);
      && (forall i :: 0 <= i < |c| - 1 ==> c[i].track.uri != c[i + 1].track.uri)
      && (tracks != [] ==> c != [] && c[0].track.uri == tracks[0].track.uri)
      && (forall t :: t in c ==> t in tracks)
  {
    if tracks != [] {
      CollapseHasNoRepeats(tracks[1..]);
    }
  }

  /** Truncating at every step loses nothing the bounded view shows: the bounded list is the first
      ten entries of the collapsed unbounded history, after every event sequence. */
  lemma {:induction false} RecentlyPlayedRefinesHistory(sessionId: string, now: int, events: seq<Event>)
    ensures var s := Fold(EmptySnapshot(sessionId, now), events);
      && s.nowPlaying == PlayingAfter(events)
      && s.recentlyPlayed == Slice(Collapse(Departed(events)), 0, RECENTLY_PLAYED_MAX)
  {
    if events != [] {
      var before, e := Init(events), Last(events);
      RecentlyPlayedRefinesHistory(sessionId, now, before);
      var s := Fold(EmptySnapshot(sessionId, now), before);
      var c := Collapse(Departed(before));
      var prev := PlayingAfter(before);
      UpdateKeepsHistory(s, e);
      if e.NowPlayingUpdated? && prev.Some? && TrackChanged(prev, e.track) {
        var d := Departed(events);
        assert d[1..] == Departed(before);
        assert s.recentlyPlayed != [] <==> c != [];
        if c == [] || c[0].track.uri != prev.value.track.uri {
          assert Collapse(d) == [prev.value] + c;
        }
      }
    }
  }

  lemma UpdateKeepsHistory(s: Snapshot, e: Event)
    ensures !e.NowPlayingUpdated? ==>
      ApplyEvent(s, e).nowPlaying == s.nowPlaying && ApplyEvent(s, e).recentlyPlayed == s.recentlyPlayed
  {
  }

  // ---------------------------------------------------------------- karaoke slice

  /** A hold has a deadline and a spotlight; no hold has neither deadline. */
  ghost predicate KaraokeWellFormed(k: KaraokeState) {
    && (k.paused <==> k.pausedUntilEpochMs.Some?)
    && (k.paused ==> k.spotlightItemId.Some?)
  }

  lemma EventKeepsKaraokeWellFormed(s: Snapshot, e: Event)
    requires KaraokeWellFormed(s.karaoke)
    ensures KaraokeWellFormed(ApplyEvent(s, e).karaoke)
  {
  }

  /** Over every event sequence from the empty snapshot, paused holds exactly when a deadline is
      set, and paused implies a spotlight. */
  lemma {:induction false} KaraokeAlwaysWellFormed(sessionId: string, now: int, events: seq<Event>)
    ensures KaraokeWellFormed(Fold(EmptySnapshot(sessionId, now), events).karaoke)
  {
    if events != [] {
      KaraokeAlwaysWellFormed(sessionId, now, Init(events));
      EventKeepsKaraokeWellFormed(Fold(EmptySnapshot(sessionId, now), Init(events)), Last(events));
    }
  }
}

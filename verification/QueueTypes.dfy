/** Rows and settings the queue and karaoke services work on. Instants are whole epoch
    milliseconds; durations and playback positions are real numbers of milliseconds. */
module QueueTypes {
  import opened Collections

  datatype Status = Pending | Approved | Queued | Playing | Played | Rejected

  /** Statuses that occupy a slot against the per-guest cap and are visible in the queue. */
  predicate IsActive(s: Status) {
    s.Pending? || s.Approved? || s.Queued? || s.Playing?
  }

  /** Statuses of the waiting list. A playing track no longer waits. */
  predicate IsWaiting(s: Status) {
    s.Pending? || s.Approved? || s.Queued?
  }

  datatype Track = Track(uri: string, name: string, artist: string, albumArt: Option<string>, durationMs: real)

  datatype Row = Row(
    id: string, sessionId: string, guestId: string,
    trackUri: string, trackName: string, artistName: string,
    albumArtUrl: Option<string>, durationMs: Option<real>,
    status: Status, skipVotes: nat, createdAt: int, decidedAt: Option<int>)

  datatype Claim = Claim(
    id: string, sessionId: string, queueItemId: string, guestId: string, displayName: string, createdAt: int)

  datatype VoteSkipMode = Fixed | Percentage | HostApproval

  datatype KaraokeMode = KaraokeOff | KaraokeOptional | KaraokeRequired

  datatype PauseMode = PauseOff | PauseManual | PauseAuto

  datatype Session = Session(
    id: string, accountId: string,
    songsPerGuestCap: int, maxConsecutivePerGuest: Option<int>, allowDuplicates: bool,
    moderationEnabled: bool, voteSkipMode: VoteSkipMode, voteSkipThreshold: int,
    karaokeMode: KaraokeMode, karaokeMicCount: int,
    karaokePauseMode: PauseMode, karaokePauseTimeoutSec: int,
    endedAt: Option<int>)
}

/** Playback and lyrics records. Milliseconds and fractions are exact real numbers. */
module SyncTypes {
  import opened Collections
  import opened QueueTypes

  datatype NowPlaying = NowPlaying(track: Track, progressMs: real, isPlaying: bool, zoneId: string)

  datatype Confidence = Low | Medium | High

  datatype ClockSample = ClockSample(
    providerId: string, trackUri: string, durationMs: real, progressMs: real, isPlaying: bool,
    sampledAtEpochMs: real, providerLatencyMs: Option<real>, confidence: Confidence)

  datatype LyricsLine = LyricsLine(id: string, text: string, startsAtMs: Option<real>, endsAtMs: Option<real>)

  datatype LyricsDocument = LyricsDocument(
    isSynced: bool, isInstrumental: bool, lines: seq<LyricsLine>, plainText: Option<string>)
}

/** Playback clock samples and their extrapolation, in exact arithmetic. */
module Clock {
  import opened Collections
  import opened QueueTypes
  import opened SyncTypes

  function Clamp(value: real, min: real, max: real): (r: real)
    ensures min <= max ==> min <= r <= max
    ensures min <= value <= max ==> r == value
  {
    if value < min then min else if value > max then max else value
  }

  function NormalizeProgress(progressMs: real, durationMs: real): (r: real)
    ensures 0.0 <= r <= 1.0
    ensures 0.0 < durationMs && 0.0 <= progressMs <= durationMs ==> r * durationMs == progressMs
  {
    if durationMs <= 0.0 then 0.0 else Clamp(progressMs / durationMs, 0.0, 1.0)
  }

  const FRESH_THRESHOLD_MS := 2000.0
  const STALE_THRESHOLD_MS := 10_000.0

  function Rank(c: Confidence): nat {
    match c
    case Low => 0
    case Medium => 1
    case High => 2
  }

  function MinConfidence(a: Confidence, b: Confidence): Confidence {
    if Rank(a) <= Rank(b) then a else b
  }

  function AgeBasedConfidence(ageMs: real): Confidence {
    if ageMs <= FRESH_THRESHOLD_MS then High else if ageMs <= STALE_THRESHOLD_MS then Medium else Low
  }

  /** The provider id may come with the track or be given beside it. */
  datatype SampleOptions = SampleOptions(
    providerId: Option<string>, trackProviderId: Option<string>, confidence: Option<Confidence>,
    providerLatencyMs: Option<real>)

  function CreatePlaybackClockSample(input: NowPlaying, sampledAtEpochMs: real,
                                     options: SampleOptions): (s: ClockSample)
    ensures input.track.durationMs >= 0.0 ==> 0.0 <= s.progressMs <= s.durationMs
  {
    var providerId := if options.providerId.Some? then options.providerId else options.trackProviderId;
    ClockSample(if providerId.Some? then providerId.value else "unknown", input.track.uri,
                input.track.durationMs, Clamp(input.progressMs, 0.0, input.track.durationMs), input.isPlaying,
                sampledAtEpochMs, options.providerLatencyMs,
                if options.confidence.Some? then options.confidence.value else Medium)
  }

  datatype Predicted = Predicted(
    trackUri: string, progressMs: real, normalizedProgress: real, remainingMs: real,
    isPlaying: bool, confidence: Confidence, predictedAtEpochMs: real)

  function Elapsed(sample: ClockSample, nowEpochMs: real): real {
    if nowEpochMs > sample.sampledAtEpochMs then nowEpochMs - sample.sampledAtEpochMs else 0.0
  }

  /** Extrapolate the sample to an instant. An instant before the sample counts as no time at all. */
  function PredictPlaybackPosition(sample: ClockSample, nowEpochMs: real): Predicted {
    var elapsed := Elapsed(sample, nowEpochMs);
    var advanced := if sample.isPlaying then sample.progressMs + elapsed else sample.progressMs;
    var progress := Clamp(advanced, 0.0, sample.durationMs);
    Predicted(sample.trackUri, progress, NormalizeProgress(progress, sample.durationMs),
              Clamp(sample.durationMs - progress, 0.0, sample.durationMs), sample.isPlaying,
              MinConfidence(sample.confidence, AgeBasedConfidence(elapsed)), nowEpochMs)
  }

  /** The predicted position stays on the track, what is played and what remains make up the track, a
      paused track stands still, and confidence is never more than the sample's. */
  lemma PredictionOnTrack(sample: ClockSample, now: real)
    requires sample.durationMs >= 0.0
    ensures var p := PredictPlaybackPosition(sample, now);
      && 0.0 <= p.progressMs <= sample.durationMs && p.progressMs + p.remainingMs == sample.durationMs
      && (sample.durationMs > 0.0 ==> p.normalizedProgress * sample.durationMs == p.progressMs)
      && (!sample.isPlaying ==> p.progressMs == Clamp(sample.progressMs, 0.0, sample.durationMs))
      && Rank(p.confidence) <= Rank(sample.confidence)
  {
  }

  /** As the wall clock advances the predicted position never moves back, by no more than the time that
      passed, and confidence only falls. */
  lemma PredictionAdvances(sample: ClockSample, now: real, later: real)
    requires sample.durationMs >= 0.0 && now <= later
    ensures var p, q := PredictPlaybackPosition(sample, now), PredictPlaybackPosition(sample, later);
      p.progressMs <= q.progressMs <= p.progressMs + (later - now) && Rank(q.confidence) <= Rank(p.confidence)
  {
  }
}

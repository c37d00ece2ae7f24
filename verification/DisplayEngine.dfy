/** The display engine: what it adopts from events, and the state it computes for an instant. */
module DisplayEngine {
  import opened Collections
  import opened SyncTypes
  import opened Snapshot
  import opened Clock
  import opened ActiveLine
  import Text

  datatype Mode = Loading | Synced | Unsynced | NoLyrics | Paused

  datatype EngineState = EngineState(
    mode: Mode, trackUri: Option<string>, activeLine: Option<LyricsLine>,
    prevLines: seq<LyricsLine>, nextLines: seq<LyricsLine>, plainText: Option<string>,
    normalizedProgress: real, wordProgress: Option<WordProgress>)

  const EMPTY := EngineState(Loading, None, None, [], [], None, 0.0, None)

  /** The lyrics looked up for a track: a document, or the knowledge that there is none. */
  datatype Lookup = Lookup(uri: string, doc: Option<LyricsDocument>)

  /** The engine's fields. */
  datatype Engine = Engine(
    prevCount: int, nextCount: int, sample: Option<ClockSample>, lyrics: Option<Lookup>, offsetMs: real)

  // ---------------------------------------------------------------- events

  function AfterSample(e: Engine, sample: ClockSample): Engine {
    var stale := e.sample.Some? && e.sample.value.trackUri != "" && e.sample.value.trackUri != sample.trackUri
      && e.lyrics.Some? && e.lyrics.value.uri != sample.trackUri;
    e.(sample := Some(sample), lyrics := if stale then None else e.lyrics)
  }

  function AfterEvent(e: Engine, event: Event): Engine {
    match event
    case ClockSampled(sample) => AfterSample(e, sample)
    case LyricsLoaded(uri, doc) =>
      if e.sample.None? || e.sample.value.trackUri == uri then e.(lyrics := Some(Lookup(uri, doc))) else e
    case NowPlayingUpdated(track) => if track.None? then e.(sample := None, lyrics := None) else e
    case _ => e
  }

  function AfterSnapshot(e: Engine, s: Snapshot): Engine {
    var e1 := if s.playbackClock.Some? then e.(sample := s.playbackClock) else e;
    if s.nowPlaying.Some? then e1.(lyrics := Some(Lookup(s.nowPlaying.value.track.uri, s.lyrics))) else e1
  }

  // ---------------------------------------------------------------- the state at an instant

  function JoinLines(lines: seq<LyricsLine>): string {
    if lines == [] then "" else if |lines| == 1 then lines[0].text else JoinLines(Init(lines)) + "\n" + Last(lines).text
  }

  function PlainText(doc: LyricsDocument): string {
    if doc.plainText.Some? then doc.plainText.value else JoinLines(doc.lines)
  }

  /** Playback position shifted by the offset, not before the beginning. */
  function Effective(e: Engine, sample: ClockSample, now: real): real {
    MaxR(0.0, PredictPlaybackPosition(sample, now).progressMs - e.offsetMs)
  }

  /** When the active line is over: its own end, the next start, or four seconds on. */
  function LineEnd(timed: seq<LyricsLine>, i: nat): real
    requires AllTimed(timed) && i < |timed|
  {
    if timed[i].endsAtMs.Some? then timed[i].endsAtMs.value
    else if i + 1 < |timed| then timed[i + 1].startsAtMs.value
    else timed[i].startsAtMs.value + 4000.0
  }

  /** Words and progress at `at` of the last of `n` started lines, if there is one. */
  function ProgressOfLine(timed: seq<LyricsLine>, n: nat, at: real): Option<WordProgress>
    requires AllTimed(timed) && n <= |timed|
  {
    if n == 0 then None
    else ProgressOf(Words(timed[n - 1].text), timed[n - 1].startsAtMs.value, LineEnd(timed, n - 1), at)
  }

  /** ... of the line that is active at `at`. */
  function ProgressAt(timed: seq<LyricsLine>, at: real): Option<WordProgress>
    requires AllTimed(timed)
  {
    ProgressOfLine(timed, StartedCount(timed, at), at)
  }

  /** The lines shown once `n` of them have started. */
  datatype Lines = Lines(prev: seq<LyricsLine>, active: Option<LyricsLine>, next: seq<LyricsLine>)

  function LinesAt(timed: seq<LyricsLine>, n: nat, prevCount: int, nextCount: int): Lines
    requires n <= |timed|
  {
    Lines(if n > 1 then Slice(timed, if n - 1 > prevCount then n - 1 - prevCount else 0, n - 1) else [],
          if n > 0 then Some(timed[n - 1]) else None,
          Slice(timed, n, n + nextCount))
  }

  function TimedState(e: Engine, base: EngineState, sample: ClockSample, timed: seq<LyricsLine>, at: real): EngineState
    requires AllTimed(timed)
  {
    var lines := LinesAt(timed, StartedCount(timed, at), e.prevCount, e.nextCount);
    base.(mode := if sample.isPlaying then Synced else Paused,
          activeLine := lines.active, prevLines := lines.prev, nextLines := lines.next,
          wordProgress := ProgressAt(timed, at))
  }

  /** A document without timed lines: its text, or nothing to show. */
  function PlainState(base: EngineState, sample: ClockSample, doc: LyricsDocument): EngineState {
    if doc.isInstrumental || Text.TrimStart(PlainText(doc)) == "" then base.(mode := NoLyrics)
    else base.(mode := if sample.isPlaying then Unsynced else Paused, plainText := Some(PlainText(doc)))
  }

  /** What the lyrics add to track and progress; `sung` is the state for a document with timed lines. */
  function WithLyrics(lyrics: Option<Lookup>, sample: ClockSample, base: EngineState,
                      sung: LyricsDocument -> EngineState): EngineState
  {
    if lyrics.None? || lyrics.value.uri != sample.trackUri then base
    else if lyrics.value.doc.None? then base.(mode := NoLyrics) else
      var doc := lyrics.value.doc.value;
      if !doc.isSynced || Timed(doc.lines) == [] then PlainState(base, sample, doc) else sung(doc)
  }

  function Sung(e: Engine, base: EngineState, sample: ClockSample, now: real): LyricsDocument -> EngineState {
    (doc: LyricsDocument) => TimedState(e, base, sample, Timed(doc.lines), Effective(e, sample, now))
  }

  function StateAt(e: Engine, now: real): EngineState {
    if e.sample.None? then EMPTY else
      var sample := e.sample.value;
      var base := EMPTY.(trackUri := Some(sample.trackUri),
                         normalizedProgress := PredictPlaybackPosition(sample, now).normalizedProgress);
      WithLyrics(e.lyrics, sample, base, Sung(e, base, sample, now))
  }

  // ---------------------------------------------------------------- the object

  class LyricsEngine {
    const prevCount: int
    const nextCount: int
    var sample: Option<ClockSample>
    var lyricsByUri: Option<Lookup>
    var offsetMs: real

    constructor (prevCount: int, nextCount: int)
      ensures Model() == Engine(prevCount, nextCount, None, None, 0.0)
    {
      this.prevCount := prevCount;
      this.nextCount := nextCount;
      sample := None;
      lyricsByUri := None;
      offsetMs := 0.0;
    }

    function Model(): Engine
      reads this
    {
      Engine(prevCount, nextCount, sample, lyricsByUri, offsetMs)
    }

    method SetOffsetMs(ms: real)
      modifies this`offsetMs
      ensures Model() == old(Model()).(offsetMs := ms)
    {
      offsetMs := ms;
    }

    method ApplySnapshot(s: Snapshot)
      modifies this`sample, this`lyricsByUri
      ensures Model() == AfterSnapshot(old(Model()), s)
    {
      if s.playbackClock.Some? {
        sample := s.playbackClock;
      }
      if s.nowPlaying.Some? {
        lyricsByUri := Some(Lookup(s.nowPlaying.value.track.uri, s.lyrics));
      }
    }

    method ApplyEvent(event: Event)
      modifies this`sample, this`lyricsByUri
      ensures Model() == AfterEvent(old(Model()), event)
    {
      match event {
        case ClockSampled(s) =>
          var prevUri := if sample.Some? then sample.value.trackUri else "";
          sample := Some(s);
          if prevUri != "" && prevUri != s.trackUri {
            if lyricsByUri.Some? && lyricsByUri.value.uri != s.trackUri {
              lyricsByUri := None;
            }
          }
        case LyricsLoaded(uri, doc) =>
          if sample.None? || sample.value.trackUri == uri {
            lyricsByUri := Some(Lookup(uri, doc));
          }
        case NowPlayingUpdated(track) =>
          if track.None? {
            sample := None;
            lyricsByUri := None;
          }
        case _ =>
      }
    }

    method ActiveProgress(timed: seq<LyricsLine>, activeIdx: int, at: real) returns (r: Option<WordProgress>)
      requires AllTimed(timed) && activeIdx == StartedCount(timed, at) - 1
      ensures r == ProgressAt(timed, at)
    {
      if activeIdx < 0 {
        return None;
      }
      var line := timed[activeIdx];
      var end := if line.endsAtMs.Some? then line.endsAtMs.value
                 else if activeIdx + 1 < |timed| then timed[activeIdx + 1].startsAtMs.value
                 else line.startsAtMs.value + 4000.0;
      r := ComputeWordProgress(line.text, line.startsAtMs.value, end, at);
    }

    /** Lines and words of a document with timed lines. */
    method ComputeTimed(base: EngineState, s: ClockSample, timed: seq<LyricsLine>, effectiveProgressMs: real)
      returns (state: EngineState)
      requires AllTimed(timed)
      ensures state == TimedState(Model(), base, s, timed, effectiveProgressMs)
    {
      var activeIdx := LastStarted(timed, effectiveProgressMs);
      var activeLine := if activeIdx >= 0 then Some(timed[activeIdx]) else None;
      var prevLines := if activeIdx > 0
        then Slice(timed, if activeIdx > prevCount then activeIdx - prevCount else 0, activeIdx) else [];
      var nextLines := Slice(timed, activeIdx + 1, activeIdx + 1 + nextCount);
      ghost var lines := LinesAt(timed, StartedCount(timed, effectiveProgressMs), prevCount, nextCount);
      assert prevLines == lines.prev && activeLine == lines.active && nextLines == lines.next;
      var wordProgress := ActiveProgress(timed, activeIdx, effectiveProgressMs);
      state := base.(mode := if s.isPlaying then Synced else Paused, activeLine := activeLine,
                     prevLines := prevLines, nextLines := nextLines, wordProgress := wordProgress);
    }

    method ComputeState(nowEpochMs: real) returns (state: EngineState)
      ensures state == StateAt(Model(), nowEpochMs)
    {
      if sample.None? {
        return EMPTY;
      }
      var pos := PredictPlaybackPosition(sample.value, nowEpochMs);
      var base := EMPTY.(trackUri := Some(sample.value.trackUri), normalizedProgress := pos.normalizedProgress);
      if lyricsByUri.None? || lyricsByUri.value.uri != sample.value.trackUri {
        return base;
      }
      if lyricsByUri.value.doc.None? {
        return base.(mode := NoLyrics);
      }
      var doc := lyricsByUri.value.doc.value;
      var timed := Timed(doc.lines);
      if !doc.isSynced || |timed| == 0 {
        var plainText := PlainText(doc);
        if doc.isInstrumental || Text.TrimStart(plainText) == "" {
          return base.(mode := NoLyrics);
        }
        return base.(mode := if sample.value.isPlaying then Unsynced else Paused, plainText := Some(plainText));
      }
      state := ComputeTimed(base, sample.value, timed, MaxR(0.0, pos.progressMs - offsetMs));
    }
  }
}

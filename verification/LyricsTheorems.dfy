/** The routes to the active line agree, and the display never moves backwards. */
module LyricsTheorems {
  import opened Collections
  import opened SyncTypes
  import opened Snapshot
  import opened Clock
  import opened ActiveLine
  import opened DisplayEngine
  import opened LrcTheorems
  import Lrc

  // ---------------------------------------------------------------- cues and window

  /** A document made from LRC text, synced or not. */
  function ParsedDocument(raw: string, isSynced: bool, isInstrumental: bool,
                          plainText: Option<string>): LyricsDocument
  {
    LyricsDocument(isSynced, isInstrumental, Lrc.Parsed(raw), plainText)
  }

  lemma ChainedAllTimed(lines: seq<LyricsLine>)
    requires Chained(lines)
    ensures AllTimed(lines) && Timed(lines) == lines
  {
    FilterAll(lines, HasStart);
  }

  /** In a chain a cue is active exactly when its line is the last one that has started. */
  lemma ChainedCueActive(lines: seq<LyricsLine>, pos: real, i: nat)
    requires Chained(lines) && AllTimed(lines) && i < |lines|
    ensures ActiveAt(pos)(CuesOf(lines)[i]) <==> i + 1 == StartedCount(lines, pos)
  {
    var n := StartedCount(lines, pos);
    if i < n {
      assert lines[i].startsAtMs.value <= lines[n - 1].startsAtMs.value <= pos;
    } else {
      assert lines[n].startsAtMs.value <= lines[i].startsAtMs.value;
    }
    if i + 1 < |lines| {
      if i + 1 < n {
        assert lines[i + 1].startsAtMs.value <= pos;
      }
    }
  }

  /** Filtering a list by a test that only the element at `k` passes leaves that element. */
  lemma {:induction false} FilterOnly<T>(s: seq<T>, p: T -> bool, k: int)
    requires -1 <= k < |s| && forall i :: 0 <= i < |s| ==> (p(s[i]) <==> i == k)
    ensures Filter(s, p) == if k == -1 then [] else [s[k]]
  {
    if s != [] {
      var h := Init(s);
      assert forall i :: 0 <= i < |h| ==> h[i] == s[i];
      FilterOnly(h, p, if k == |s| - 1 then -1 else k);
    }
  }

  /** The lines of the active cues: for a chained document, the last line that has started. */
  lemma CuesFindLast(lines: seq<LyricsLine>, pos: real)
    requires Chained(lines) && AllTimed(lines)
    ensures var n := StartedCount(lines, pos);
      Filter(CuesOf(lines), ActiveAt(pos)) == if n == 0 then [] else [CueOf(lines[n - 1])]
  {
    var cues := CuesOf(lines);
    var n: int := StartedCount(lines, pos);
    forall i | 0 <= i < |cues| ensures ActiveAt(pos)(cues[i]) <==> i == n - 1 {
      ChainedCueActive(lines, pos, i);
    }
    FilterOnly(cues, ActiveAt(pos), n - 1);
  }

  function Payloads(cues: seq<SyncCue>): (lines: seq<LyricsLine>)
    ensures |lines| == |cues| && forall i :: 0 <= i < |cues| ==> lines[i] == cues[i].payload
  {
    seq(|cues|, i requires 0 <= i < |cues| => cues[i].payload)
  }

  lemma ChainedCues(lines: seq<LyricsLine>, pos: real)
    requires Chained(lines) && AllTimed(lines)
    ensures Payloads(Filter(CuesOf(lines), ActiveAt(pos))) == Window(lines, pos, 0, 0)
  {
    CuesFindLast(lines, pos);
    WindowWithoutContext(lines, pos);
    var n := StartedCount(lines, pos);
    if n > 0 {
      SinglePayload(lines[n - 1]);
    }
  }

  lemma SinglePayload(line: LyricsLine)
    requires HasStart(line)
    ensures Payloads([CueOf(line)]) == [line]
  {
  }

  lemma ChainedRoutes(doc: LyricsDocument, pos: real)
    requires Chained(doc.lines)
    ensures Payloads(Filter(DocumentCues(doc), ActiveAt(pos))) == LyricWindow(pos, doc, 0, 0)
  {
    ChainedAllTimed(doc.lines);
    if doc.isSynced {
      ChainedCues(doc.lines, pos);
    }
  }

  lemma WindowWithoutContext(timed: seq<LyricsLine>, pos: real)
    requires AllTimed(timed)
    ensures var n := StartedCount(timed, pos);
      Window(timed, pos, 0, 0) == if n == 0 then [] else [timed[n - 1]]
  {
  }

  /** For every raw text, every position and a document of its lines, the active cues carry exactly the
      lines of the window without context. */
  lemma CuesAgreeWithWindow(raw: string, isSynced: bool, isInstrumental: bool, plainText: Option<string>, pos: real)
    ensures var doc := ParsedDocument(raw, isSynced, isInstrumental, plainText);
      Payloads(Filter(DocumentCues(doc), ActiveAt(pos))) == LyricWindow(pos, doc, 0, 0)
  {
    ParsedInOrder(raw);
    ChainedRoutes(ParsedDocument(raw, isSynced, isInstrumental, plainText), pos);
  }

  // ---------------------------------------------------------------- engine and window

  function Shown(state: EngineState): seq<LyricsLine> {
    state.prevLines + (if state.activeLine.Some? then [state.activeLine.value] else []) + state.nextLines
  }

  lemma ThreeParts<T>(s: seq<T>, lo: nat, n: nat, to: int)
    requires lo < n <= |s| && n <= to
    ensures Slice(s, lo, n - 1) + [s[n - 1]] + Slice(s, n, to) == Slice(s, lo, to)
  {
    var hi := Position(to, |s|);
    assert s[lo..n - 1] + [s[n - 1]] + s[n..hi] == s[lo..hi];
  }

  lemma StartedParts(timed: seq<LyricsLine>, n: nat, prevCount: int, nextCount: int)
    requires 0 < n <= |timed| && prevCount >= 0 && nextCount >= 0
    ensures var lines, lo := LinesAt(timed, n, prevCount, nextCount), AtLeast0(n - 1 - prevCount);
      && lo < n && lines == Lines(Slice(timed, lo, n - 1), Some(timed[n - 1]), Slice(timed, n, n + nextCount))
      && Around(timed, n, prevCount, nextCount) == Slice(timed, lo, n + nextCount)
  {
  }

  function Joined(lines: Lines): seq<LyricsLine> {
    lines.prev + (if lines.active.Some? then [lines.active.value] else []) + lines.next
  }

  /** Previous, active and next lines put together are the lines around the active one. */
  lemma PartsAreAround(timed: seq<LyricsLine>, n: nat, prevCount: int, nextCount: int)
    requires n <= |timed| && prevCount >= 0 && nextCount >= 0
    ensures Joined(LinesAt(timed, n, prevCount, nextCount)) == Around(timed, n, prevCount, nextCount)
  {
    if n == 0 {
      var next := Slice(timed, 0, nextCount);
      assert [] + [] + next == next;
    } else {
      var lo := AtLeast0(n - 1 - prevCount);
      StartedParts(timed, n, prevCount, nextCount);
      ThreeParts(timed, lo, n, n + nextCount);
    }
  }

  lemma UntimedWindow(doc: LyricsDocument, at: real, previousCount: int, nextCount: int)
    requires !doc.isSynced || Timed(doc.lines) == []
    ensures LyricWindow(at, doc, previousCount, nextCount) == []
  {
  }

  lemma TimedShowsWindow(e: Engine, base: EngineState, sample: ClockSample, timed: seq<LyricsLine>, at: real)
    requires AllTimed(timed) && e.prevCount >= 0 && e.nextCount >= 0
    ensures Shown(TimedState(e, base, sample, timed, at)) == Window(timed, at, e.prevCount, e.nextCount)
  {
    PartsAreAround(timed, StartedCount(timed, at), e.prevCount, e.nextCount);
  }

  /** Whenever the engine has a document for the track being played, what it shows is the window at the
      position shifted by the offset, for every offset and all non-negative counts. */
  lemma EngineShowsWindow(e: Engine, now: real)
    requires e.prevCount >= 0 && e.nextCount >= 0
    requires e.sample.Some? && e.lyrics.Some? && e.lyrics.value.uri == e.sample.value.trackUri
      && e.lyrics.value.doc.Some?
    ensures Shown(StateAt(e, now))
      == LyricWindow(Effective(e, e.sample.value, now), e.lyrics.value.doc.value, e.prevCount, e.nextCount)
  {
    var sample, doc := e.sample.value, e.lyrics.value.doc.value;
    var timed, at := Timed(doc.lines), Effective(e, sample, now);
    var base := EMPTY.(trackUri := Some(sample.trackUri),
                       normalizedProgress := PredictPlaybackPosition(sample, now).normalizedProgress);
    if doc.isSynced && timed != [] {
      TimedShowsWindow(e, base, sample, timed, at);
    } else {
      UntimedWindow(doc, at, e.prevCount, e.nextCount);
    }
  }

  /** Without an offset that is the window at the predicted position. */
  lemma EngineShowsWindowUnshifted(e: Engine, now: real)
    requires e.prevCount >= 0 && e.nextCount >= 0 && e.offsetMs == 0.0
    requires e.sample.Some? && e.lyrics.Some? && e.lyrics.value.uri == e.sample.value.trackUri
      && e.lyrics.value.doc.Some?
    requires e.sample.value.durationMs >= 0.0
    ensures Shown(StateAt(e, now)) == LyricWindow(PredictPlaybackPosition(e.sample.value, now).progressMs,
                                                  e.lyrics.value.doc.value, e.prevCount, e.nextCount)
  {
    EngineShowsWindow(e, now);
  }

  lemma EngineActiveLine(e: Engine, now: real)
    requires e.sample.Some? && e.lyrics.Some? && e.lyrics.value.uri == e.sample.value.trackUri
      && e.lyrics.value.doc.Some?
    requires e.lyrics.value.doc.value.isSynced
    ensures var active := StateAt(e, now).activeLine;
      (if active.Some? then [active.value] else [])
      == LyricWindow(Effective(e, e.sample.value, now), e.lyrics.value.doc.value, 0, 0)
  {
    WindowWithoutContext(Timed(e.lyrics.value.doc.value.lines), Effective(e, e.sample.value, now));
  }

  /** The active lines of all three routes: engine, window and cues. */
  lemma ThreeRoutesAgree(e: Engine, now: real, raw: string, isInstrumental: bool, plainText: Option<string>)
    requires e.sample.Some?
      && e.lyrics == Some(Lookup(e.sample.value.trackUri, Some(ParsedDocument(raw, true, isInstrumental, plainText))))
    ensures var doc, at := e.lyrics.value.doc.value, Effective(e, e.sample.value, now);
      var active := StateAt(e, now).activeLine;
      var lines := if active.Some? then [active.value] else [];
      && lines == LyricWindow(at, doc, 0, 0)
      && lines == Payloads(Filter(DocumentCues(doc), ActiveAt(at)))
  {
    CuesAgreeWithWindow(raw, true, isInstrumental, plainText, Effective(e, e.sample.value, now));
    EngineActiveLine(e, now);
  }

  // ---------------------------------------------------------------- words

  lemma FractionAlgebra(f: real, w: real, l: real, t: real, x: real, c: real)
    requires w > 0.0 && t > 0.0
    requires f * (w * (l / t)) == x * w - w * (c / t)
    ensures c + f * l == t * x
  {
    var lt, ct := l / t, c / t;
    assert l == lt * t && c == ct * t;
    assert w * (f * lt - x + ct) == 0.0;
    assert f * lt == x - ct;
    assert f * l == (f * lt) * t;
  }

  lemma {:induction false} ActiveWordBounds(bounds: seq<real>, at: real, k: nat)
    requires k + 1 < |bounds| && bounds[k] <= at
    ensures var i := ActiveWord(bounds, at, k);
      bounds[i] <= at && (at < bounds[i + 1] || i + 2 == |bounds|)
    decreases |bounds| - k
  {
    if k + 2 < |bounds| && at >= bounds[k + 1] {
      ActiveWordBounds(bounds, at, k + 1);
    }
  }

  /** In the middle of a word: its characters so far follow the share `x` of the window that is over. */
  lemma MidWord(words: seq<string>, start: real, w: real, at: real, i: nat, x: real)
    requires i < |words| && TotalChars(words) > 0 && w > 0.0 && words[i] != [] && x * w == at - start
    requires WordStart(words, start, w, i) <= at < WordStart(words, start, w, i + 1)
    ensures var from, to := WordStart(words, start, w, i), WordStart(words, start, w, i + 1);
      var f := FractionThrough(at, from, to, i == |words| - 1);
      CharsBefore(words, i) as real + f * |words[i]| as real == TotalChars(words) as real * x
  {
    var from, to := WordStart(words, start, w, i), WordStart(words, start, w, i + 1);
    ShareOfWord(words, start, w, i);
    var t, c, l := TotalChars(words) as real, CharsBefore(words, i) as real, |words[i]| as real;
    var f := (at - from) / (to - from);
    QuotientInUnit(at - from, to - from);
    assert f * (to - from) == at - from;
    FractionAlgebra(f, w, l, t, x, c);
  }

  lemma QuotientInUnit(a: real, b: real)
    requires 0.0 <= a < b
    ensures 0.0 <= a / b < 1.0 && (a / b) * b == a
  {
  }

  lemma QuotientAboveUnit(a: real, b: real)
    requires 0.0 < b <= a
    ensures a / b >= 1.0
  {
  }

  /** The characters sung: those before the active word and the fraction of its own. */
  function CharsSung(p: WordProgress): real
    requires p.activeWordIndex < |p.words|
  {
    CharsBefore(p.words, p.activeWordIndex) as real + p.activeWordFraction * |p.words[p.activeWordIndex]| as real
  }

  /** `x` is the share of a window of length `w` that is over after `passed`, at most the whole. */
  ghost predicate ShareOver(passed: real, w: real, x: real) {
    if passed >= w then x == 1.0 else x * w == passed
  }

  lemma WholeShare(t: real, x: real)
    requires x == 1.0
    ensures t * x == t
  {
  }

  /** Past the last word's end all characters are sung. */
  lemma AllSung(words: seq<string>, start: real, w: real, at: real, i: nat, x: real)
    requires i + 1 == |words| && TotalChars(words) > 0 && w > 0.0 && words[i] != [] && at >= start + w
      && ShareOver(at - start, w, x)
    requires i == ActiveWord(Bounds(words, start, w), at, 0)
    ensures CharsSung(ProgressIn(words, Bounds(words, start, w), at)) == TotalChars(words) as real * x
  {
    LastWordDone(words, start, w, at, i);
    WholeShare(TotalChars(words) as real, x);
    WholeShare(|words[i]| as real, 1.0);
  }

  /** Before that, those of the words before and of the active word so far. */
  lemma SomeSung(words: seq<string>, start: real, w: real, at: real, i: nat, x: real)
    requires i < |words| && TotalChars(words) > 0 && w > 0.0 && (forall k :: 0 <= k < |words| ==> words[k] != [])
    requires WordStart(words, start, w, i) <= at < WordStart(words, start, w, i + 1) && ShareOver(at - start, w, x)
    requires i == ActiveWord(Bounds(words, start, w), at, 0)
    ensures CharsSung(ProgressIn(words, Bounds(words, start, w), at)) == TotalChars(words) as real * x
  {
    WordEndWithin(words, start, w, i);
    MidWord(words, start, w, at, i, x);
  }

  /** The same within the boundaries of the words. */
  lemma CharsFollow(words: seq<string>, start: real, w: real, at: real, x: real)
    requires words != [] && (forall i :: 0 <= i < |words| ==> words[i] != []) && TotalChars(words) > 0
    requires w > 0.0 && start <= at && ShareOver(at - start, w, x)
    ensures CharsSung(ProgressIn(words, Bounds(words, start, w), at)) == TotalChars(words) as real * x
  {
    var bounds := Bounds(words, start, w);
    ShareOfAll(words, start, w);
    ActiveWordBounds(bounds, at, 0);
    var i := ActiveWord(bounds, at, 0);
    if at < bounds[i + 1] {
      SomeSung(words, start, w, at, i, x);
    } else {
      AllSung(words, start, w, at, i, x);
    }
  }

  /** For a window of positive length, the characters before the active word plus the fraction of its own
      add up to the share `x` of all characters that the clamped progress through the line makes. */
  lemma WordsFollowClock(words: seq<string>, start: real, end: real, progressMs: real, x: real)
    requires words != [] && (forall i :: 0 <= i < |words| ==> words[i] != []) && end > start
    requires x == Clamp((progressMs - start) / (end - start), 0.0, 1.0)
    ensures ProgressOf(words, start, end, progressMs).Some?
    ensures var p := ProgressOf(words, start, end, progressMs).value;
      && p.words == words && p.activeWordIndex < |words| && 0.0 <= p.activeWordFraction <= 1.0
      && CharsSung(p) == TotalChars(words) as real * x
  {
    ClampedShare(start, end - start, progressMs);
    CharsFollowShare(words, start, end, progressMs, x);
  }

  lemma ProgressExists(words: seq<string>, start: real, end: real, progressMs: real)
    requires words != [] && (forall i :: 0 <= i < |words| ==> words[i] != []) && end > start
    ensures TotalChars(words) > 0
    ensures ProgressOf(words, start, end, progressMs)
      == Some(ProgressIn(words, Bounds(words, start, end - start), MaxR(start, progressMs)))
    ensures var p := ProgressOf(words, start, end, progressMs).value;
      p.words == words && p.activeWordIndex < |words| && 0.0 <= p.activeWordFraction <= 1.0
  {
    CharsGrow(words, 0, |words|);
  }

  lemma CharsFollowShare(words: seq<string>, start: real, end: real, progressMs: real, x: real)
    requires words != [] && (forall i :: 0 <= i < |words| ==> words[i] != []) && end > start
    requires ShareOver(MaxR(start, progressMs) - start, end - start, x)
    ensures ProgressOf(words, start, end, progressMs).Some?
    ensures var p := ProgressOf(words, start, end, progressMs).value;
      && p.words == words && p.activeWordIndex < |words| && 0.0 <= p.activeWordFraction <= 1.0
      && CharsSung(p) == TotalChars(words) as real * x
  {
    ProgressExists(words, start, end, progressMs);
    CharsFollow(words, start, end - start, MaxR(start, progressMs), x);
  }

  /** Clamping the share of the window is clamping the position at the line's start, as long as the
      window has not passed. */
  lemma ClampedShare(start: real, w: real, progressMs: real)
    requires w > 0.0
    ensures ShareOver(MaxR(start, progressMs) - start, w, Clamp((progressMs - start) / w, 0.0, 1.0))
  {
    var q := (progressMs - start) / w;
    assert q * w == progressMs - start;
    if progressMs < start {
      assert q < 0.0;
    } else if progressMs - start >= w {
      QuotientAboveUnit(progressMs - start, w);
    } else {
      QuotientInUnit(progressMs - start, w);
    }
  }

  lemma {:induction false} WordEndWithin(words: seq<string>, start: real, w: real, i: nat)
    requires i < |words| && TotalChars(words) > 0 && w > 0.0 && forall k :: 0 <= k < |words| ==> words[k] != []
    ensures WordStart(words, start, w, i + 1) <= start + w
  {
    var c, t := CharsBefore(words, i + 1) as real, TotalChars(words) as real;
    CharsGrow(words, i + 1, |words|);
    var q := c / t;
    assert q * t == c <= t;
    assert q <= 1.0;
    assert w * q <= w;
  }

  lemma LastWordDone(words: seq<string>, start: real, w: real, at: real, i: nat)
    requires i + 1 == |words| && TotalChars(words) > 0 && w > 0.0 && words[i] != [] && at >= start + w
    ensures WordStart(words, start, w, i + 1) == start + w
    ensures FractionThrough(at, WordStart(words, start, w, i), WordStart(words, start, w, i + 1), true) == 1.0
    ensures CharsBefore(words, i) + |words[i]| == TotalChars(words)
  {
    var from, to := WordStart(words, start, w, i), WordStart(words, start, w, i + 1);
    ShareOfAll(words, start, w);
    ShareOfWord(words, start, w, i);
    var l, t := |words[i]| as real, TotalChars(words) as real;
    assert l / t > 0.0;
    assert w * (l / t) > 0.0;
    QuotientAboveUnit(at - from, to - from);
  }

  // ---------------------------------------------------------------- nothing moves backwards

  lemma {:induction false} ActiveWordAdvances(bounds: seq<real>, at: real, later: real, k: nat)
    requires k + 1 < |bounds| && at <= later
    ensures ActiveWord(bounds, at, k) <= ActiveWord(bounds, later, k)
    decreases |bounds| - k
  {
    if k + 2 < |bounds| && at >= bounds[k + 1] {
      ActiveWordAdvances(bounds, at, later, k + 1);
    }
  }

  lemma FractionAdvances(at: real, later: real, from: real, to: real, last: bool)
    requires at <= later
    ensures FractionThrough(at, from, to, last) <= FractionThrough(later, from, to, last)
  {
    if to > from {
      var a, b, d := at - from, later - from, to - from;
      assert (a / d) * d == a && (b / d) * d == b;
      assert (b / d - a / d) * d >= 0.0;
    }
  }

  /** Before in (word, fraction), or the same. */
  predicate NotAfter(a: WordProgress, b: WordProgress) {
    a.activeWordIndex < b.activeWordIndex
    || (a.activeWordIndex == b.activeWordIndex && a.activeWordFraction <= b.activeWordFraction)
  }

  /** Within one line, whatever its window, word and fraction only advance. */
  lemma WordsAdvance(words: seq<string>, start: real, end: real, progressMs: real, later: real)
    requires progressMs <= later
    ensures var p, q := ProgressOf(words, start, end, progressMs), ProgressOf(words, start, end, later);
      (p.Some? <==> q.Some?) && (p.Some? ==> NotAfter(p.value, q.value))
  {
    if words != [] && TotalChars(words) > 0 {
      var bounds := Bounds(words, start, MaxR(0.0, end - start));
      var at, at' := MaxR(start, progressMs), MaxR(start, later);
      ActiveWordAdvances(bounds, at, at', 0);
      var i := ActiveWord(bounds, at, 0);
      FractionAdvances(at, at', bounds[i], bounds[i + 1], i == |words| - 1);
    }
  }

  /** At least as many lines have started as lead the document with a start at or before the position. */
  lemma {:induction false} StartedAtLeast(timed: seq<LyricsLine>, at: real, n: nat)
    requires AllTimed(timed) && n <= |timed| && forall i :: 0 <= i < n ==> timed[i].startsAtMs.value <= at
    ensures n <= StartedCount(timed, at)
  {
    if n > 0 {
      assert forall i :: 0 <= i < n - 1 ==> timed[1..][i] == timed[i + 1];
      StartedAtLeast(timed[1..], at, n - 1);
    }
  }

  lemma LinesAdvance(timed: seq<LyricsLine>, at: real, later: real)
    requires AllTimed(timed) && at <= later
    ensures StartedCount(timed, at) <= StartedCount(timed, later)
  {
    StartedAtLeast(timed, later, StartedCount(timed, at));
  }

  predicate WordsNotAfter(a: Option<WordProgress>, b: Option<WordProgress>) {
    (a.Some? <==> b.Some?) && (a.Some? ==> NotAfter(a.value, b.value))
  }

  lemma LineWordsAdvance(timed: seq<LyricsLine>, n: nat, at: real, later: real)
    requires AllTimed(timed) && n <= |timed| && at <= later
    ensures WordsNotAfter(ProgressOfLine(timed, n, at), ProgressOfLine(timed, n, later))
  {
    if n > 0 {
      WordsAdvance(Words(timed[n - 1].text), timed[n - 1].startsAtMs.value, LineEnd(timed, n - 1), at, later);
    }
  }

  lemma ProgressAdvances(timed: seq<LyricsLine>, at: real, later: real)
    requires AllTimed(timed) && at <= later
    ensures StartedCount(timed, at) <= StartedCount(timed, later)
    ensures StartedCount(timed, at) == StartedCount(timed, later) ==>
      WordsNotAfter(ProgressAt(timed, at), ProgressAt(timed, later))
  {
    LinesAdvance(timed, at, later);
    LineWordsAdvance(timed, StartedCount(timed, at), at, later);
  }

  lemma NormalizedAdvances(p: real, q: real, durationMs: real)
    requires p <= q
    ensures NormalizeProgress(p, durationMs) <= NormalizeProgress(q, durationMs)
  {
    if durationMs > 0.0 {
      var a, b := p / durationMs, q / durationMs;
      assert a * durationMs == p && b * durationMs == q;
      assert a <= b;
    }
  }

  /** The active line of the state is the `n`-th timed line, or there is none and `n` is zero. */
  predicate OnLine(state: EngineState, timed: seq<LyricsLine>, n: nat) {
    n <= |timed| && state.activeLine == if n == 0 then None else Some(timed[n - 1])
  }

  /** The lines the engine has to show, if it has any with a start. */
  function TimedLines(e: Engine): seq<LyricsLine> {
    if e.sample.Some? && e.lyrics.Some? && e.lyrics.value.uri == e.sample.value.trackUri && e.lyrics.value.doc.Some?
       && e.lyrics.value.doc.value.isSynced
    then Timed(e.lyrics.value.doc.value.lines) else []
  }

  lemma BarAdvances(sample: ClockSample, now: real, later: real)
    requires now <= later && sample.durationMs >= 0.0
    ensures var p, q := PredictPlaybackPosition(sample, now), PredictPlaybackPosition(sample, later);
      p.normalizedProgress <= q.normalizedProgress
  {
    PredictionAdvances(sample, now, later);
    NormalizedAdvances(PredictPlaybackPosition(sample, now).progressMs,
                       PredictPlaybackPosition(sample, later).progressMs, sample.durationMs);
  }

  lemma PlainPassesBar(base: EngineState, bar: real, sample: ClockSample, doc: LyricsDocument)
    ensures PlainState(base.(normalizedProgress := bar), sample, doc) ==
      PlainState(base, sample, doc).(normalizedProgress := bar)
    ensures var s := PlainState(base, sample, doc);
      s.activeLine == base.activeLine && s.wordProgress == base.wordProgress
        && s.normalizedProgress == base.normalizedProgress
  {
  }

  /** Without timed lines the position does not matter, and the progress bar is passed through. */
  lemma UntimedState(lyrics: Option<Lookup>, sample: ClockSample, base: EngineState, bar: real,
                     sung: LyricsDocument -> EngineState, later: LyricsDocument -> EngineState)
    requires lyrics.Some? && lyrics.value.uri == sample.trackUri && lyrics.value.doc.Some? ==>
      !lyrics.value.doc.value.isSynced || Timed(lyrics.value.doc.value.lines) == []
    ensures var s := WithLyrics(lyrics, sample, base, sung);
      && WithLyrics(lyrics, sample, base.(normalizedProgress := bar), later) == s.(normalizedProgress := bar)
      && s.activeLine == base.activeLine && s.wordProgress == base.wordProgress
      && s.normalizedProgress == base.normalizedProgress
  {
    if lyrics.Some? && lyrics.value.doc.Some? {
      PlainPassesBar(base, bar, sample, lyrics.value.doc.value);
    }
  }

  lemma UntimedDisplay(e: Engine, now: real, later: real)
    requires now <= later && (e.sample.Some? ==> e.sample.value.durationMs >= 0.0) && TimedLines(e) == []
    ensures var s, s' := StateAt(e, now), StateAt(e, later);
      s.normalizedProgress <= s'.normalizedProgress && s == s'.(normalizedProgress := s.normalizedProgress)
      && s.activeLine.None? && s.wordProgress.None?
  {
    if e.sample.Some? {
      var sample := e.sample.value;
      var base := EMPTY.(trackUri := Some(sample.trackUri),
                         normalizedProgress := PredictPlaybackPosition(sample, now).normalizedProgress);
      BarAdvances(sample, now, later);
      var base' := base.(normalizedProgress := PredictPlaybackPosition(sample, later).normalizedProgress);
      UntimedState(e.lyrics, sample, base, base'.normalizedProgress, Sung(e, base, sample, now),
                   Sung(e, base', sample, later));
    }
  }

  lemma TimedDisplay(e: Engine, now: real, later: real)
    requires now <= later && (e.sample.Some? ==> e.sample.value.durationMs >= 0.0) && TimedLines(e) != []
    ensures var s, s', timed := StateAt(e, now), StateAt(e, later), TimedLines(e);
      && s'.mode == s.mode && s'.trackUri == s.trackUri && s'.plainText == s.plainText
      && s.normalizedProgress <= s'.normalizedProgress
      && exists n, n' :: n <= n' && OnLine(s, timed, n) && OnLine(s', timed, n')
           && (n == n' ==> WordsNotAfter(s.wordProgress, s'.wordProgress))
  {
    var sample, timed := e.sample.value, TimedLines(e);
    BarAdvances(sample, now, later);
    PredictionAdvances(sample, now, later);
    var at, at' := Effective(e, sample, now), Effective(e, sample, later);
    ProgressAdvances(timed, at, at');
    TimedStateAt(e, now);
    TimedStateAt(e, later);
    assert OnLine(StateAt(e, now), timed, StartedCount(timed, at))
      && OnLine(StateAt(e, later), timed, StartedCount(timed, at'));
  }

  lemma TimedStateAt(e: Engine, now: real)
    requires TimedLines(e) != []
    ensures var s, at := StateAt(e, now), Effective(e, e.sample.value, now);
      && OnLine(s, TimedLines(e), StartedCount(TimedLines(e), at)) && s.wordProgress == ProgressAt(TimedLines(e), at)
      && s.mode == (if e.sample.value.isPlaying then Synced else Paused)
      && s.trackUri == Some(e.sample.value.trackUri) && s.plainText.None?
      && s.normalizedProgress == PredictPlaybackPosition(e.sample.value, now).normalizedProgress
  {
  }

  /** For a fixed sample, lyrics and offset, as the wall clock advances the page keeps its mode, track and
      text, its progress bar never moves back, its active line never does, and while the line stays
      neither do the words in it. */
  lemma DisplayNeverGoesBack(e: Engine, now: real, later: real)
    requires now <= later && (e.sample.Some? ==> e.sample.value.durationMs >= 0.0)
    ensures var s, s', timed := StateAt(e, now), StateAt(e, later), TimedLines(e);
      && s'.mode == s.mode && s'.trackUri == s.trackUri && s'.plainText == s.plainText
      && s.normalizedProgress <= s'.normalizedProgress
      && exists n, n' :: n <= n' && OnLine(s, timed, n) && OnLine(s', timed, n')
           && (n == n' ==> WordsNotAfter(s.wordProgress, s'.wordProgress))
  {
    if TimedLines(e) != [] {
      TimedDisplay(e, now, later);
    } else {
      UntimedDisplay(e, now, later);
      assert OnLine(StateAt(e, now), [], 0) && OnLine(StateAt(e, later), [], 0);
    }
  }

  predicate StartsNoLater(a: LyricsLine, b: LyricsLine) {
    a.startsAtMs.Some? && b.startsAtMs.Some? && a.startsAtMs.value <= b.startsAtMs.value
  }

  lemma ParsedTimedLines(e: Engine, raw: string)
    requires TimedLines(e) == [] || TimedLines(e) == Timed(Lrc.Parsed(raw))
    ensures var timed := TimedLines(e);
      && (forall i, j :: 0 <= i < j < |timed| ==> StartsNoLater(timed[i], timed[j]))
      && Distinct(timed)
  {
    ParsedInOrder(raw);
    ChainedAllTimed(Lrc.Parsed(raw));
    var timed := Lrc.Parsed(raw);
    forall i: nat, j: nat | i < j < |timed| ensures timed[i] != timed[j] {
      if Lrc.LineId(i) == Lrc.LineId(j) {
        IdsDistinct(i, j);
      }
    }
  }

  /** With lyrics parsed from LRC text the start of the active line never decreases, a line once reached
      is never left for none, and while the same line is active its words never go back. */
  lemma ParsedDisplayNeverGoesBack(e: Engine, raw: string, isSynced: bool, isInstrumental: bool,
                                   plainText: Option<string>,
                                   now: real, later: real)
    requires now <= later && e.sample.Some? && e.sample.value.durationMs >= 0.0
    requires e.lyrics ==
      Some(Lookup(e.sample.value.trackUri, Some(ParsedDocument(raw, isSynced, isInstrumental, plainText))))
    ensures var s, s' := StateAt(e, now), StateAt(e, later);
      && (s.activeLine.Some? ==> s'.activeLine.Some? && StartsNoLater(s.activeLine.value, s'.activeLine.value))
      && (s.activeLine == s'.activeLine ==> WordsNotAfter(s.wordProgress, s'.wordProgress))
  {
    DisplayNeverGoesBack(e, now, later);
    ParsedTimedLines(e, raw);
    var s, s', timed := StateAt(e, now), StateAt(e, later), TimedLines(e);
    var n, n' :| n <= n' && OnLine(s, timed, n) && OnLine(s', timed, n')
      && (n == n' ==> WordsNotAfter(s.wordProgress, s'.wordProgress));
    assert AllTimed(timed);
  }
}

/** Three independent ways to the active lyric line: cues, the window and the display engine, with the
    engine's progress through the words of the line. */
module ActiveLine {
  import opened Collections
  import opened SyncTypes
  import opened Snapshot
  import opened Clock
  import Text

  // ---------------------------------------------------------------- cues

  datatype SyncCue = SyncCue(id: string, startsAtMs: real, endsAtMs: Option<real>, payload: LyricsLine)

  predicate HasStart(l: LyricsLine) {
    l.startsAtMs.Some?
  }

  predicate AllTimed(lines: seq<LyricsLine>) {
    forall i :: 0 <= i < |lines| ==> HasStart(lines[i])
  }

  function Timed(lines: seq<LyricsLine>): (r: seq<LyricsLine>)
    ensures AllTimed(r)
  {
    FilterMembers(lines, HasStart);
    Filter(lines, HasStart)
  }

  function CueOf(l: LyricsLine): SyncCue
    requires HasStart(l)
  {
    SyncCue(l.id, l.startsAtMs.value, l.endsAtMs, l)
  }

  function CuesOf(timed: seq<LyricsLine>): (cues: seq<SyncCue>)
    requires AllTimed(timed)
    ensures |cues| == |timed| && forall i :: 0 <= i < |timed| ==> cues[i] == CueOf(timed[i])
  {
    seq(|timed|, i requires 0 <= i < |timed| => CueOf(timed[i]))
  }

  function DocumentCues(doc: LyricsDocument): seq<SyncCue> {
    if doc.isSynced then CuesOf(Timed(doc.lines)) else []
  }

  method LyricsDocumentToSyncCues(doc: LyricsDocument) returns (cues: seq<SyncCue>)
    ensures cues == DocumentCues(doc)
  {
    if !doc.isSynced {
      return [];
    }
    cues := [];
    for i := 0 to |doc.lines|
      invariant cues == CuesOf(Timed(doc.lines[..i]))
    {
      var line := doc.lines[i];
      TimedSnoc(doc.lines[..i], line);
      assert doc.lines[..i + 1] == doc.lines[..i] + [line];
      if line.startsAtMs.None? {
        continue;
      }
      var cue := SyncCue(line.id, line.startsAtMs.value, None, line);
      if line.endsAtMs.Some? {
        cue := cue.(endsAtMs := line.endsAtMs);
      }
      cues := cues + [cue];
    }
    assert doc.lines[..|doc.lines|] == doc.lines;
  }

  lemma TimedSnoc(lines: seq<LyricsLine>, line: LyricsLine)
    ensures Timed(lines + [line]) == if HasStart(line) then Timed(lines) + [line] else Timed(lines)
    ensures HasStart(line) ==> CuesOf(Timed(lines) + [line]) == CuesOf(Timed(lines)) + [CueOf(line)]
  {
    FilterSnoc(lines, line, HasStart);
  }

  /** Started, and not yet ended. */
  function ActiveAt(positionMs: real): SyncCue -> bool {
    (c: SyncCue) => c.startsAtMs <= positionMs && (c.endsAtMs.Some? ==> positionMs < c.endsAtMs.value)
  }

  method FindActiveCues(positionMs: real, cues: seq<SyncCue>) returns (active: seq<SyncCue>)
    ensures active == Filter(cues, ActiveAt(positionMs))
  {
    active := [];
    for i := 0 to |cues|
      invariant active == Filter(cues[..i], ActiveAt(positionMs))
    {
      var cue := cues[i];
      FilterSnoc(cues[..i], cue, ActiveAt(positionMs));
      assert cues[..i + 1] == cues[..i] + [cue];
      if cue.startsAtMs > positionMs {
        continue;
      }
      if cue.endsAtMs.Some? && cue.endsAtMs.value <= positionMs {
        continue;
      }
      active := active + [cue];
    }
    assert cues[..|cues|] == cues;
  }

  // ---------------------------------------------------------------- the window

  /** How many lines, from the first on, have started. */
  function StartedCount(timed: seq<LyricsLine>, progressMs: real): (n: nat)
    requires AllTimed(timed)
    ensures n <= |timed|
    ensures forall i :: 0 <= i < n ==> timed[i].startsAtMs.value <= progressMs
    ensures n < |timed| ==> timed[n].startsAtMs.value > progressMs
  {
    if timed == [] || timed[0].startsAtMs.value > progressMs then 0 else
      var n := StartedCount(timed[1..], progressMs);
      assert forall i :: 0 < i <= n ==> timed[i] == timed[1..][i - 1];
      1 + n
  }

  /** The loop both the window and the engine use; `None` before the first line. */
  method LastStarted(timed: seq<LyricsLine>, progressMs: real) returns (activeIndex: int)
    requires AllTimed(timed)
    ensures activeIndex == StartedCount(timed, progressMs) - 1
  {
    activeIndex := -1;
    var i := 0;
    while i < |timed|
      invariant 0 <= i <= |timed| && activeIndex == i - 1
      invariant forall k :: 0 <= k < i ==> timed[k].startsAtMs.value <= progressMs
    {
      if timed[i].startsAtMs.value <= progressMs {
        activeIndex := i;
      } else {
        break;
      }
      i := i + 1;
    }
  }

  function AtLeast0(n: int): nat {
    if n < 0 then 0 else n
  }

  /** The lines around the last of the first `n`, clipped to the document. */
  function Around(timed: seq<LyricsLine>, n: nat, previousCount: int, nextCount: int): seq<LyricsLine> {
    if n == 0 then Slice(timed, 0, AtLeast0(nextCount))
    else Slice(timed, AtLeast0(n - 1 - AtLeast0(previousCount)), n + AtLeast0(nextCount))
  }

  function Window(timed: seq<LyricsLine>, progressMs: real, previousCount: int, nextCount: int): seq<LyricsLine>
    requires AllTimed(timed)
  {
    Around(timed, StartedCount(timed, progressMs), previousCount, nextCount)
  }

  function LyricWindow(progressMs: real, doc: LyricsDocument, previousCount: int, nextCount: int): seq<LyricsLine> {
    if doc.isSynced then Window(Timed(doc.lines), progressMs, previousCount, nextCount) else []
  }

  method GetActiveLyricWindow(progressMs: real, doc: LyricsDocument, previousCount: int, nextCount: int)
    returns (window: seq<LyricsLine>)
    ensures window == LyricWindow(progressMs, doc, previousCount, nextCount)
  {
    if !doc.isSynced {
      return [];
    }
    var synced := Timed(doc.lines);
    if |synced| == 0 {
      return [];
    }
    var activeIndex := LastStarted(synced, progressMs);
    if activeIndex == -1 {
      return Slice(synced, 0, AtLeast0(nextCount));
    }
    var start := AtLeast0(activeIndex - AtLeast0(previousCount));
    var after := activeIndex + 1 + AtLeast0(nextCount);
    var end := if after < |synced| then after else |synced|;
    window := Slice(synced, start, end);
  }

  // ---------------------------------------------------------------- words

  /** The run of non-space characters `s` begins with. */
  function Word(s: string): (w: string)
    ensures |w| <= |s|
    ensures s != [] && !Text.IsSpace(s[0]) ==> w != []
  {
    if s == [] || Text.IsSpace(s[0]) then [] else [s[0]] + Word(s[1..])
  }

  /** `text.split(/\s+/)` without the empty pieces. */
  function Words(s: string): (ws: seq<string>)
    ensures forall i :: 0 <= i < |ws| ==> ws[i] != []
    decreases |s|
  {
    if s == [] then []
    else if Text.IsSpace(s[0]) then Words(s[1..])
    else [Word(s)] + Words(s[|Word(s)|..])
  }

  /** The characters of the first `k` words. */
  function CharsBefore(words: seq<string>, k: nat): nat
    requires k <= |words|
  {
    if k == 0 then 0 else CharsBefore(words, k - 1) + |words[k - 1]|
  }

  function TotalChars(words: seq<string>): nat {
    CharsBefore(words, |words|)
  }

  datatype WordProgress = WordProgress(words: seq<string>, activeWordIndex: nat, activeWordFraction: real)

  function MaxR(a: real, b: real): real {
    if a >= b then a else b
  }

  /** Where the k-th word begins when the window is shared out by characters. */
  function WordStart(words: seq<string>, start: real, window: real, k: nat): real
    requires k <= |words| && TotalChars(words) > 0
  {
    start + window * (CharsBefore(words, k) as real / TotalChars(words) as real)
  }

  /** Where the words begin, and at last where the window ends. */
  function Bounds(words: seq<string>, start: real, window: real): (bounds: seq<real>)
    requires TotalChars(words) > 0
    ensures |bounds| == |words| + 1
    ensures forall k :: 0 <= k <= |words| ==> bounds[k] == WordStart(words, start, window, k)
  {
    seq(|words| + 1, k requires 0 <= k <= |words| => WordStart(words, start, window, k))
  }

  /** The first stretch that ends after the position, or the last one. */
  function ActiveWord(bounds: seq<real>, at: real, k: nat): (i: nat)
    requires k + 1 < |bounds|
    ensures k <= i && i + 1 < |bounds|
    decreases |bounds| - k
  {
    if k + 2 == |bounds| || at < bounds[k + 1] then k else ActiveWord(bounds, at, k + 1)
  }

  function FractionThrough(at: real, from: real, to: real, last: bool): real {
    Clamp(if to > from then (at - from) / (to - from) else if last then 1.0 else 0.0, 0.0, 1.0)
  }

  lemma {:induction false} CharsGrow(words: seq<string>, j: nat, k: nat)
    requires j <= k <= |words| && forall i :: 0 <= i < |words| ==> words[i] != []
    ensures CharsBefore(words, j) + (k - j) <= CharsBefore(words, k)
  {
    if j < k {
      CharsGrow(words, j, k - 1);
    }
  }

  function ProgressIn(words: seq<string>, bounds: seq<real>, at: real): WordProgress
    requires words != [] && |bounds| == |words| + 1
  {
    var i := ActiveWord(bounds, at, 0);
    WordProgress(words, i, FractionThrough(at, bounds[i], bounds[i + 1], i == |words| - 1))
  }

  function ProgressOf(words: seq<string>, start: real, end: real, progressMs: real): Option<WordProgress> {
    if words == [] || TotalChars(words) == 0 then None
    else Some(ProgressIn(words, Bounds(words, start, MaxR(0.0, end - start)), MaxR(start, progressMs)))
  }

  /** A word's share of the window. */
  function WordDuration(window: real, chars: nat, totalChars: nat): real
    requires totalChars > 0
  {
    window * (chars as real / totalChars as real)
  }

  /** Walk the words with a cursor, each taking its share of the window; the last one takes the rest. */
  method WalkWords(words: seq<string>, totalChars: nat, start: real, windowMs: real,
                   clamped: real, ghost bounds: seq<real>)
    returns (r: WordProgress)
    requires words != [] && totalChars > 0 && |bounds| == |words| + 1
    requires bounds[0] == start && bounds[|words|] == start + windowMs
    requires forall i :: 0 <= i < |words| ==>
      bounds[i + 1] == bounds[i] + WordDuration(windowMs, |words[i]|, totalChars)
    ensures r == ProgressIn(words, bounds, clamped)
  {
    var cursor := start;
    var i := 0;
    while true
      invariant 0 <= i < |words| && cursor == bounds[i]
      invariant ActiveWord(bounds, clamped, 0) == ActiveWord(bounds, clamped, i)
      decreases |words| - i
    {
      var wordDurationMs := WordDuration(windowMs, |words[i]|, totalChars);
      var wordEnd := if i == |words| - 1 then start + windowMs else cursor + wordDurationMs;
      if clamped < wordEnd || i == |words| - 1 {
        return WordProgress(words, i, FractionThrough(clamped, cursor, wordEnd, i == |words| - 1));
      }
      cursor := wordEnd;
      i := i + 1;
    }
  }

  method ComputeWordProgress(text: string, start: real, end: real, progressMs: real) returns (r: Option<WordProgress>)
    ensures r == ProgressOf(Words(text), start, end, progressMs)
  {
    var words := Words(text);
    if |words| == 0 {
      return None;
    }
    CharsGrow(words, 0, |words|);
    var totalChars := SumLengths(words);
    var windowMs := MaxR(0.0, end - start);
    BoundsAddUp(words, start, windowMs);
    var progress := WalkWords(words, totalChars, start, windowMs, MaxR(start, progressMs),
                              Bounds(words, start, windowMs));
    r := Some(progress);
  }

  lemma BoundsAddUp(words: seq<string>, start: real, window: real)
    requires TotalChars(words) > 0
    ensures var bounds := Bounds(words, start, window);
      && bounds[0] == start && bounds[|words|] == start + window
      && forall i :: 0 <= i < |words| ==>
           bounds[i + 1] == bounds[i] + WordDuration(window, |words[i]|, TotalChars(words))
  {
    forall i | 0 <= i < |words|
      ensures WordStart(words, start, window, i + 1)
        == WordStart(words, start, window, i) + WordDuration(window, |words[i]|, TotalChars(words))
    {
      ShareOfWord(words, start, window, i);
    }
    ShareOfAll(words, start, window);
  }

  method SumLengths(words: seq<string>) returns (sum: nat)
    ensures sum == TotalChars(words)
  {
    sum := 0;
    for i := 0 to |words|
      invariant sum == CharsBefore(words, i)
    {
      sum := sum + |words[i]|;
    }
  }

  /** A word's share, added to where it begins, is where the next one begins. */
  lemma ShareOfWord(words: seq<string>, start: real, window: real, i: nat)
    requires i < |words| && TotalChars(words) > 0
    ensures WordStart(words, start, window, i + 1)
      == WordStart(words, start, window, i) + WordDuration(window, |words[i]|, TotalChars(words))
  {
    var t, c, l := TotalChars(words) as real, CharsBefore(words, i) as real, |words[i]| as real;
    assert (c + l) / t == c / t + l / t;
  }

  lemma ShareOfAll(words: seq<string>, start: real, window: real)
    requires TotalChars(words) > 0
    ensures WordStart(words, start, window, 0) == start && WordStart(words, start, window, |words|) == start + window
  {
    var t := TotalChars(words) as real;
    OfItself(t);
    assert 0.0 / t == 0.0;
  }

  lemma OfItself(t: real)
    requires t > 0.0
    ensures t / t == 1.0
  {
    var q := t / t;
    assert q * t == t;
    assert (q - 1.0) * t == 0.0;
  }
}

/** The parser against the grammar: whatever is laid out in it is recovered, and whatever is parsed is
    in order. */
module LrcTheorems {
  import opened Collections
  import opened SyncTypes
  import opened Lrc
  import Text

  // ---------------------------------------------------------------- laying lines out

  datatype Break = Lf | CrLf

  function PrintBreak(b: Break): string {
    match b
    case Lf => "\n"
    case CrLf => "\r\n"
  }

  /** A line of a file: timestamp tags and a text, or something the parser should pass over. */
  datatype LayoutLine = Stamped(tags: seq<Tag>, text: string, br: Break) | Skipped(raw: string, br: Break)

  function PrintTags(tags: seq<Tag>): string {
    if tags == [] then "" else Print(tags[0]) + PrintTags(tags[1..])
  }

  function LineText(l: LayoutLine): string {
    match l
    case Stamped(tags, text, _) => PrintTags(tags) + text
    case Skipped(raw, _) => raw
  }

  function Layout(lines: seq<LayoutLine>): string {
    if lines == [] then "" else LineText(lines[0]) + PrintBreak(lines[0].br) + Layout(lines[1..])
  }

  /** No timestamp tag anywhere in the text. */
  ghost predicate NoTag(s: string) {
    forall i :: 0 <= i <= |s| ==> MatchTag(s[i..]).None?
  }

  predicate OneLine(s: string) {
    '\n' !in s && (s == [] || Last(s) != '\r')
  }

  ghost predicate ValidLine(l: LayoutLine) {
    match l
    case Stamped(tags, text, _) =>
      && tags != [] && (forall i :: 0 <= i < |tags| ==> ValidTag(tags[i]))
      && Text.Trimmed(text) && '\n' !in text && NoTag(text)
    case Skipped(raw, _) =>
      && OneLine(raw)
      && var t := Text.TrimEnd(raw); t == [] || IsMetadataLine(t) || NoTag(t)
  }

  function Stamps(tags: seq<Tag>): (r: seq<nat>)
    requires forall i :: 0 <= i < |tags| ==> ValidTag(tags[i])
    ensures |r| == |tags| && forall i :: 0 <= i < |r| ==> r[i] == ParseTimestamp(tags[i])
  {
    seq(|tags|, i requires 0 <= i < |tags| => ParseTimestamp(tags[i]))
  }

  /** The rows a line stands for: one per tag, all with its text. */
  function LineRows(l: LayoutLine): seq<ParsedRow>
    requires ValidLine(l)
  {
    match l
    case Stamped(tags, text, _) => RowsAt(Stamps(tags), text)
    case Skipped(_, _) => []
  }

  ghost function LayoutRows(lines: seq<LayoutLine>): seq<ParsedRow>
    requires forall i :: 0 <= i < |lines| ==> ValidLine(lines[i])
  {
    if lines == [] then [] else LineRows(lines[0]) + LayoutRows(lines[1..])
  }

  // ---------------------------------------------------------------- reading one line back

  /** The matcher finds nothing anywhere in the text. */
  ghost predicate Silent(s: string, m: Matcher) {
    forall i :: 0 <= i <= |s| ==> m(s[i..]).None?
  }

  /** The matcher reads every printed tag back. */
  ghost predicate Accepts(m: Matcher, tags: seq<Tag>) {
    forall t, rest :: t in tags ==> m(Print(t) + rest) == Some(t)
  }

  lemma {:induction false} ScanSilent(s: string, m: Matcher)
    requires Reads(m) && Silent(s, m)
    ensures Scan(s, m) == ([], s)
  {
    if s != [] {
      assert s[0..] == s;
      assert Silent(s[1..], m) by {
        assert forall i :: 0 <= i <= |s| - 1 ==> s[1..][i..] == s[i + 1..];
      }
      ScanSilent(s[1..], m);
    }
  }

  lemma ScanWithoutTag(s: string)
    requires Reads(MatchTag) && NoTag(s)
    ensures Scan(s, MatchTag) == ([], s)
  {
    assert Silent(s, MatchTag);
    ScanSilent(s, MatchTag);
  }

  lemma ScanTag(s: string, m: Matcher, t: Tag, rest: string)
    requires Reads(m) && s == Print(t) + rest && m(s) == Some(t)
    ensures Scan(s, m) == ([ParseTimestamp(t)] + Scan(rest, m).0, Scan(rest, m).1)
  {
    assert s[|Print(t)|..] == rest;
  }

  lemma {:induction false} ScanTags(tags: seq<Tag>, text: string, m: Matcher)
    requires Reads(m) && Silent(text, m) && Accepts(m, tags) && forall i :: 0 <= i < |tags| ==> ValidTag(tags[i])
    ensures Scan(PrintTags(tags) + text, m) == (Stamps(tags), text)
  {
    if tags == [] {
      assert PrintTags(tags) + text == text;
      ScanSilent(text, m);
    } else {
      var t, rest := tags[0], PrintTags(tags[1..]) + text;
      assert PrintTags(tags) + text == Print(t) + rest;
      ScanTag(Print(t) + rest, m, t, rest);
      ScanTags(tags[1..], text, m);
      assert Stamps(tags) == [ParseTimestamp(t)] + Stamps(tags[1..]);
    }
  }

  lemma ScanPrinted(tags: seq<Tag>, text: string)
    requires Reads(MatchTag) && NoTag(text) && forall i :: 0 <= i < |tags| ==> ValidTag(tags[i])
    ensures Scan(PrintTags(tags) + text, MatchTag) == (Stamps(tags), text)
  {
    assert Silent(text, MatchTag);
    forall t, rest | t in tags ensures MatchTag(Print(t) + rest) == Some(t) {
      MatchPrinted(t, rest);
    }
    ScanTags(tags, text, MatchTag);
  }

  /** The characters of a tag. */
  predicate TagChar(c: char) {
    IsDigit(c) || c == '[' || c == ']' || c == ':' || c == '.'
  }

  lemma PrintedChars(t: Tag)
    requires ValidTag(t)
    ensures forall c :: c in Print(t) ==> TagChar(c)
    ensures |Print(t)| > 1 && Print(t)[0] == '[' && IsDigit(Print(t)[1]) && Last(Print(t)) == ']'
  {
    assert forall c :: c in t.min || c in t.sec || (t.frac.Some? && c in t.frac.value.digits) ==> IsDigit(c);
  }

  lemma {:induction false} PrintedTags(tags: seq<Tag>)
    requires tags != [] && forall i :: 0 <= i < |tags| ==> ValidTag(tags[i])
    ensures var s := PrintTags(tags);
      && (forall c :: c in s ==> TagChar(c))
      && |s| > 1 && s[0] == '[' && IsDigit(s[1]) && Last(s) == ']'
  {
    PrintedChars(tags[0]);
    if |tags| > 1 {
      PrintedTags(tags[1..]);
    } else {
      assert PrintTags(tags) == Print(tags[0]);
    }
  }

  lemma TrimmedIsItself(s: string)
    requires s != [] ==> !Text.IsSpace(Last(s))
    ensures Text.TrimEnd(s) == s
  {
  }

  lemma StampedReadBack(tags: seq<Tag>, text: string)
    requires ValidLine(Stamped(tags, text, Lf))
    ensures RowsOfLine(PrintTags(tags) + text) == RowsAt(Stamps(tags), text)
  {
    var tagged, line := PrintTags(tags), PrintTags(tags) + text;
    PrintedTags(tags);
    assert Last(line) == if text == [] then Last(tagged) else Last(text);
    TrimmedIsItself(line);
    assert line[1..][0] == tagged[1];
    assert Letters(line[1..]) == [];
    assert !IsMetadataLine(line);
    ScanPrinted(tags, text);
    assert Text.TrimStart(text) == text;
  }

  lemma LineReadBack(l: LayoutLine)
    requires ValidLine(l)
    ensures RowsOfLine(LineText(l)) == LineRows(l)
    ensures OneLine(LineText(l))
  {
    match l
    case Stamped(tags, text, _) =>
      StampedReadBack(tags, text);
      PrintedTags(tags);
      assert text != [] ==> !Text.IsSpace(Last(text)) && Last(LineText(l)) == Last(text);
    case Skipped(raw, _) =>
      var t := Text.TrimEnd(raw);
      if t != [] && !IsMetadataLine(t) {
        ScanWithoutTag(t);
      }
  }

  // ---------------------------------------------------------------- reading the file back

  lemma {:induction false} FirstBreakAt(s: string, rest: string)
    requires '\n' !in s
    ensures FirstBreak(s + "\n" + rest) == |s|
  {
    var whole := s + "\n" + rest;
    if s == [] {
      assert whole[0] == '\n';
    } else {
      assert whole[1..] == s[1..] + "\n" + rest;
      FirstBreakAt(s[1..], rest);
    }
  }

  lemma SplitFirst(s: string, b: Break, rest: string)
    requires OneLine(s)
    ensures SplitLines(s + PrintBreak(b) + rest) == [s] + SplitLines(rest)
  {
    var whole := s + PrintBreak(b) + rest;
    var line := if b.CrLf? then s + "\r" else s;
    assert whole == line + "\n" + rest;
    FirstBreakAt(line, rest);
    assert whole[..|line|] == line && whole[|line| + 1..] == rest;
    if b.CrLf? {
      assert Init(line) == s;
    }
  }

  lemma {:induction false} AllRowsCons(line: string, lines: seq<string>, rowsOf: string -> seq<ParsedRow>)
    ensures AllRows([line] + lines, rowsOf) == rowsOf(line) + AllRows(lines, rowsOf)
  {
    var all := [line] + lines;
    if lines == [] {
      assert all == [line] && Init(all) == [];
    } else {
      var h, l := Init(lines), Last(lines);
      assert Init(all) == [line] + h && Last(all) == l;
      AllRowsCons(line, h, rowsOf);
    }
  }

  lemma {:induction false} LayoutReadBack(lines: seq<LayoutLine>)
    requires forall i :: 0 <= i < |lines| ==> ValidLine(lines[i])
    ensures RowsOf(Layout(lines)) == LayoutRows(lines)
  {
    if lines == [] {
      assert SplitLines("") == [""] && Init([""]) == [] && Last([""]) == "";
      assert RowsOfLine("") == [];
    } else {
      var l, rest := lines[0], lines[1..];
      LineReadBack(l);
      SplitFirst(LineText(l), l.br, Layout(rest));
      AllRowsCons(LineText(l), SplitLines(Layout(rest)), RowsOfLine);
      LayoutReadBack(rest);
    }
  }

  /** Whatever is laid out in the documented grammar is recovered: every tag of every line becomes a
      timed line with that line's text, in order of start, ties in file order, numbered, each ending
      where the next one starts. Blank, metadata and untimed lines leave no trace. */
  lemma ParseRecoversLayout(lines: seq<LayoutLine>)
    requires forall i :: 0 <= i < |lines| ==> ValidLine(lines[i])
    ensures Parsed(Layout(lines)) == Numbered(StableSort(LayoutRows(lines), ByStart))
  {
    LayoutReadBack(lines);
  }

  // ---------------------------------------------------------------- the round trip

  function TwoDigits(n: nat): (s: string)
    requires n < 100
    ensures |s| == 2 && AllDigits(s)
  {
    [DigitChar(n / 10), DigitChar(n % 10)]
  }

  function ThreeDigits(n: nat): (s: string)
    requires n < 1000
    ensures |s| == 3 && AllDigits(s)
  {
    [DigitChar(n / 10 / 10), DigitChar(n / 10 % 10), DigitChar(n % 10)]
  }

  /** The tag `[mm:ss.xxx]` of an instant, with a third minute digit when it is needed. */
  function TagOf(ms: nat): (t: Tag)
    requires ms < 60_000_000
    ensures ValidTag(t)
  {
    var m := ms / 60_000;
    Tag(if m < 100 then TwoDigits(m) else ThreeDigits(m), TwoDigits(ms / 1000 % 60),
        Some(Fraction('.', ThreeDigits(ms % 1000))))
  }

  lemma TwoDigitsValue(n: nat)
    requires n < 100
    ensures ParseInt(TwoDigits(n)) == n
  {
    var s := TwoDigits(n);
    assert Init(s) == [s[0]] && Init([s[0]]) == [] && Last([s[0]]) == s[0];
    assert ParseInt([s[0]]) == n / 10;
  }

  lemma ThreeDigitsValue(n: nat)
    requires n < 1000
    ensures ParseInt(ThreeDigits(n)) == n
  {
    var s := ThreeDigits(n);
    TwoDigitsValue(n / 10);
    assert Init(s) == TwoDigits(n / 10) && Last(s) == DigitChar(n % 10);
    assert ParseInt(s) == 10 * ParseInt(Init(s)) + DigitValue(Last(s));
  }

  lemma TagOfValue(ms: nat)
    requires ms < 60_000_000
    ensures ParseTimestamp(TagOf(ms)) == ms
  {
    var t, m := TagOf(ms), ms / 60_000;
    assert ParseInt(t.min) == m by {
      if m < 100 {
        TwoDigitsValue(m);
      } else {
        ThreeDigitsValue(m);
      }
    }
    assert ParseInt(t.sec) == ms / 1000 % 60 by {
      TwoDigitsValue(ms / 1000 % 60);
    }
    var frac := ThreeDigits(ms % 1000);
    assert ParseInt(PadEnd3(frac)) == ms % 1000 by {
      assert PadEnd3(frac) == frac;
      ThreeDigitsValue(ms % 1000);
    }
    Positional(ms);
  }

  lemma Positional(ms: nat)
    ensures 60_000 * (ms / 60_000) + 1000 * (ms / 1000 % 60) + ms % 1000 == ms
  {
    var s := ms / 1000;
    assert ms == 1000 * s + ms % 1000 && s == 60 * (s / 60) + s % 60 && s / 60 == ms / 60_000;
  }

  /** A timed line the layout can carry. */
  ghost predicate Representable(r: ParsedRow) {
    r.startsAtMs < 60_000_000 && Text.Trimmed(r.text) && '\n' !in r.text && NoTag(r.text)
  }

  ghost function OneTagLine(r: ParsedRow): LayoutLine
    requires Representable(r)
  {
    Stamped([TagOf(r.startsAtMs)], r.text, Lf)
  }

  ghost function TagLines(rows: seq<ParsedRow>): (lines: seq<LayoutLine>)
    requires forall r :: r in rows ==> Representable(r)
    ensures |lines| == |rows| && forall i :: 0 <= i < |rows| ==> lines[i] == OneTagLine(rows[i])
  {
    if rows == [] then [] else [OneTagLine(rows[0])] + TagLines(rows[1..])
  }

  lemma OneTagRow(r: ParsedRow)
    requires Representable(r)
    ensures ValidLine(OneTagLine(r)) && LineRows(OneTagLine(r)) == [r]
  {
    TagOfValue(r.startsAtMs);
    assert Stamps([TagOf(r.startsAtMs)]) == [r.startsAtMs];
  }

  /** Lines that stand for one row each. */
  ghost predicate StandFor(lines: seq<LayoutLine>, rows: seq<ParsedRow>) {
    |lines| == |rows| && forall i :: 0 <= i < |rows| ==> ValidLine(lines[i]) && LineRows(lines[i]) == [rows[i]]
  }

  lemma {:induction false} OneRowEach(lines: seq<LayoutLine>, rows: seq<ParsedRow>)
    requires StandFor(lines, rows)
    ensures LayoutRows(lines) == rows
  {
    if rows != [] {
      assert StandFor(lines[1..], rows[1..]) by {
        assert forall i :: 0 <= i < |rows| - 1 ==> lines[1..][i] == lines[i + 1] && rows[1..][i] == rows[i + 1];
      }
      OneRowEach(lines[1..], rows[1..]);
      assert rows == [rows[0]] + rows[1..];
    }
  }

  lemma TagLinesStand(rows: seq<ParsedRow>)
    requires forall r :: r in rows ==> Representable(r)
    ensures StandFor(TagLines(rows), rows)
  {
    forall i | 0 <= i < |rows| ensures ValidLine(TagLines(rows)[i]) && LineRows(TagLines(rows)[i]) == [rows[i]] {
      assert rows[i] in rows;
      OneTagRow(rows[i]);
    }
  }

  /** Laying out a start-sorted list of timed lines and parsing it gives the list back: every start and
      text, equal starts in their order, sequential ids, each end the next start. */
  lemma RoundTrip(rows: seq<ParsedRow>)
    requires SortedBy(rows, ByStart) && forall r :: r in rows ==> Representable(r)
    ensures Parsed(Layout(TagLines(rows))) == Numbered(rows)
  {
    TagLinesStand(rows);
    OneRowEach(TagLines(rows), rows);
    ParseRecoversLayout(TagLines(rows));
    SortOfSorted(rows, ByStart);
  }

  // ---------------------------------------------------------------- every raw text

  /** Timed lines in order of start, each ending where the next one starts, the last one open. */
  ghost predicate Chained(lines: seq<LyricsLine>) {
    && (forall i :: 0 <= i < |lines| ==> lines[i].startsAtMs.Some?)
    && (forall i, j :: 0 <= i < j < |lines| ==> lines[i].startsAtMs.value <= lines[j].startsAtMs.value)
    && (forall i :: 0 <= i < |lines| ==> lines[i].endsAtMs == if i + 1 < |lines| then lines[i + 1].startsAtMs else None)
  }

  /** Whatever the raw text, the parsed lines are chained and numbered from zero, and they are a
      rearrangement of the rows of its lines. */
  lemma ParsedInOrder(raw: string)
    ensures Chained(Parsed(raw))
    ensures forall i :: 0 <= i < |Parsed(raw)| ==> Parsed(raw)[i].id == LineId(i)
    ensures exists rows :: Parsed(raw) == Numbered(rows) && multiset(rows) == multiset(RowsOf(raw))
  {
    var rows := RowsOf(raw);
    var sorted := StableSort(rows, ByStart);
    SortSorted(rows, ByStart);
    SortMultiset(rows, ByStart);
    assert Parsed(raw) == Numbered(sorted);
  }

  lemma {:induction false} DecimalDigits(n: nat)
    ensures AllDigits(Decimal(n)) && ParseInt(Decimal(n)) == n
  {
    if n < 10 {
      var d := DigitChar(n);
      assert Init([d]) == [] && Last([d]) == d;
    } else {
      DecimalDigits(n / 10);
      var h, d := Decimal(n / 10), DigitChar(n % 10);
      assert Init(h + [d]) == h && Last(h + [d]) == d;
    }
  }

  /** No two lines of a document share an id. */
  lemma IdsDistinct(i: nat, j: nat)
    requires LineId(i) == LineId(j)
    ensures i == j
  {
    assert LineId(i)[5..] == Decimal(i) && LineId(j)[5..] == Decimal(j);
    DecimalDigits(i);
    DecimalDigits(j);
  }
}

/** The LRC parser: lines, timestamp tags, metadata, and the rows it sorts and numbers. */
module Lrc {
  import opened Collections
  import opened SyncTypes
  import Text

  // ---------------------------------------------------------------- characters

  predicate IsDigit(c: char) {
    '0' <= c <= '9'
  }

  predicate AllDigits(s: string) {
    forall i :: 0 <= i < |s| ==> IsDigit(s[i])
  }

  /** The run of digits `s` begins with. */
  function Digits(s: string): (r: string)
    ensures |r| <= |s| && s[..|r|] == r && AllDigits(r)
    ensures |r| < |s| ==> !IsDigit(s[|r|])
  {
    if s == [] || !IsDigit(s[0]) then [] else [s[0]] + Digits(s[1..])
  }

  function DigitValue(c: char): nat
    requires IsDigit(c)
  {
    (c - '0') as nat
  }

  /** `Number.parseInt(s, 10)` of a run of digits. */
  function ParseInt(s: string): nat
    requires AllDigits(s)
  {
    if s == [] then 0 else 10 * ParseInt(Init(s)) + DigitValue(Last(s))
  }

  // ---------------------------------------------------------------- timestamp tags

  /** The captured groups of a timestamp tag. */
  datatype Tag = Tag(min: string, sec: string, frac: Option<Fraction>)

  datatype Fraction = Fraction(sep: char, digits: string)

  predicate ShortDigits(s: string) {
    1 <= |s| <= 3 && AllDigits(s)
  }

  /** One digit, or two of which the first is at most 5. */
  predicate Seconds(s: string) {
    AllDigits(s) && (|s| == 1 || (|s| == 2 && s[0] <= '5'))
  }

  predicate ValidTag(t: Tag) {
    ShortDigits(t.min) && Seconds(t.sec) && (t.frac.Some? ==> ValidFraction(t.frac.value))
  }

  predicate ValidFraction(f: Fraction) {
    (f.sep == '.' || f.sep == ':') && ShortDigits(f.digits)
  }

  /** What a tag ends with: the fraction, if any, and the bracket. */
  function PrintEnd(frac: Option<Fraction>): string {
    if frac.Some? then [frac.value.sep] + (frac.value.digits + "]") else "]"
  }

  /** The tag as it stands in a file. */
  function Print(t: Tag): string {
    "[" + (t.min + (":" + (t.sec + PrintEnd(t.frac))))
  }

  /** The end of a tag, if the text begins with one. */
  function MatchEnd(s: string): (end: Option<Option<Fraction>>)
    ensures end.Some? ==> (end.value.Some? ==> ValidFraction(end.value.value)) && PrintEnd(end.value) <= s
  {
    if s == [] then None
    else if s[0] == ']' then Some(None)
    else if s[0] != '.' && s[0] != ':' then None else
      var digits := Digits(s[1..]);
      var rest := s[1 + |digits|..];
      if !ShortDigits(digits) || rest == [] || rest[0] != ']' then None else
        assert s == [s[0]] + (digits + "]") + rest[1..];
        Some(Some(Fraction(s[0], digits)))
  }

  /** The digits `s` begins with, and the rest. */
  function TakeDigits(s: string): (r: (string, string))
    ensures s == r.0 + r.1 && AllDigits(r.0)
  {
    var d := Digits(s);
    (d, s[|d|..])
  }

  /** The tag the text begins with, if it begins with one. */
  function MatchTag(s: string): (t: Option<Tag>)
    ensures t.Some? ==> ValidTag(t.value) && Print(t.value) <= s
  {
    if s == [] || s[0] != '[' then None else
      var (min, afterMin) := TakeDigits(s[1..]);
      if !ShortDigits(min) || afterMin == [] || afterMin[0] != ':' then None else
        var (sec, afterSec) := TakeDigits(afterMin[1..]);
        var end := MatchEnd(afterSec);
        if !Seconds(sec) || end.None? then None else
          PrintedPrefix(s, Tag(min, sec, end.value), afterMin, afterSec);
          Some(Tag(min, sec, end.value))
  }

  lemma PrintedPrefix(s: string, t: Tag, afterMin: string, afterSec: string)
    requires s != [] && s[0] == '[' && s[1..] == t.min + afterMin
    requires afterMin != [] && afterMin[0] == ':' && afterMin[1..] == t.sec + afterSec
    requires PrintEnd(t.frac) <= afterSec
    ensures Print(t) <= s
  {
    var end := PrintEnd(t.frac);
    assert afterMin == ":" + (t.sec + afterSec) && s == "[" + (t.min + afterMin);
    PrefixBehind(t.sec, end, afterSec);
    PrefixBehind(":", t.sec + end, t.sec + afterSec);
    PrefixBehind(t.min, ":" + (t.sec + end), afterMin);
    PrefixBehind("[", t.min + (":" + (t.sec + end)), t.min + afterMin);
  }

  lemma PrefixBehind(a: string, b: string, c: string)
    requires b <= c
    ensures a + b <= a + c
  {
  }

  lemma {:induction false} DigitsOf(d: string, rest: string)
    requires AllDigits(d) && (rest == [] || !IsDigit(rest[0]))
    ensures Digits(d + rest) == d
  {
    if d == [] {
      assert d + rest == rest;
    } else {
      assert (d + rest)[1..] == d[1..] + rest;
      DigitsOf(d[1..], rest);
      assert d == [d[0]] + d[1..];
    }
  }

  lemma MatchEndPrinted(frac: Option<Fraction>, rest: string)
    requires frac.Some? ==> ValidFraction(frac.value)
    ensures MatchEnd(PrintEnd(frac) + rest) == Some(frac)
    ensures !IsDigit((PrintEnd(frac) + rest)[0])
  {
    if frac.Some? {
      var f, s := frac.value, PrintEnd(frac) + rest;
      assert s[1..] == f.digits + ("]" + rest);
      DigitsOf(f.digits, "]" + rest);
      assert s[1 + |f.digits|..] == "]" + rest;
    }
  }

  /** The matcher accepts the whole grammar: a printed tag is read back whatever follows it. */
  lemma MatchPrinted(t: Tag, rest: string)
    requires ValidTag(t)
    ensures MatchTag(Print(t) + rest) == Some(t)
  {
    var s, afterSec := Print(t) + rest, PrintEnd(t.frac) + rest;
    var afterMin := ":" + (t.sec + afterSec);
    assert s[1..] == t.min + afterMin;
    DigitsOf(t.min, afterMin);
    assert s[1 + |t.min|..] == afterMin;
    assert afterMin[1..] == t.sec + afterSec;
    MatchEndPrinted(t.frac, rest);
    DigitsOf(t.sec, afterSec);
    assert afterMin[1 + |t.sec|..] == afterSec;
  }

  /** The matcher is exactly the grammar. */
  lemma MatchTagExact(s: string, t: Tag)
    ensures MatchTag(s) == Some(t) <==> ValidTag(t) && Print(t) <= s
  {
    if ValidTag(t) && Print(t) <= s {
      assert s == Print(t) + s[|Print(t)|..];
      MatchPrinted(t, s[|Print(t)|..]);
    }
  }

  function PadEnd3(s: string): (r: string)
    requires ShortDigits(s)
    ensures |r| == 3 && AllDigits(r)
  {
    s + seq(3 - |s|, _ => '0')
  }

  /** Minutes, seconds and a left-aligned fraction, in milliseconds. */
  function ParseTimestamp(t: Tag): nat
    requires ValidTag(t)
  {
    60_000 * ParseInt(t.min) + 1000 * ParseInt(t.sec) + if t.frac.Some? then ParseInt(PadEnd3(t.frac.value.digits))
      else 0
  }

  // ---------------------------------------------------------------- metadata

  function LowerLetter(c: char): char {
    if 'A' <= c <= 'Z' then 'a' + (c - 'A') else c
  }

  function Letters(s: string): (r: string)
    ensures |r| <= |s|
  {
    if s == [] || !('a' <= LowerLetter(s[0]) <= 'z') then [] else [LowerLetter(s[0])] + Letters(s[1..])
  }

  const METADATA_TAGS := {"ar", "ti", "al", "au", "by", "length", "offset", "re", "ve"}

  predicate IsMetadataLine(line: string) {
    && line != [] && line[0] == '['
    && var name := Letters(line[1..]);
       |name| <= 8 && 1 + |name| < |line| && line[1 + |name|] == ':' && name in METADATA_TAGS
  }

  // ---------------------------------------------------------------- one line

  datatype ParsedRow = ParsedRow(startsAtMs: nat, text: string)

  /** A way to read the tag a text begins with. */
  type Matcher = string -> Option<Tag>

  ghost predicate Reads(m: Matcher) {
    forall s :: m(s).Some? ==> ValidTag(m(s).value) && Print(m(s).value) <= s
  }

  /** The stamps in `s`, left to right, and what follows the last of them: the whole of `s` when it has
      none. */
  function Scan(s: string, m: Matcher): (r: (seq<nat>, string))
    requires Reads(m)
    ensures r.0 == [] ==> r.1 == s
    decreases |s|
  {
    if s == [] then ([], s) else
      match m(s)
      case Some(t) =>
        var (stamps, after) := Scan(s[|Print(t)|..], m);
        ([ParseTimestamp(t)] + stamps, after)
      case None =>
        var (stamps, after) := Scan(s[1..], m);
        (stamps, if stamps == [] then s else after)
  }

  function RowsAt(stamps: seq<nat>, text: string): (rows: seq<ParsedRow>)
    ensures |rows| == |stamps| && forall i :: 0 <= i < |rows| ==> rows[i] == ParsedRow(stamps[i], text)
  {
    seq(|stamps|, i requires 0 <= i < |stamps| => ParsedRow(stamps[i], text))
  }

  function RowsOfLine(rawLine: string): seq<ParsedRow> {
    var line := Text.TrimEnd(rawLine);
    if line == [] || IsMetadataLine(line) then [] else
      var (stamps, after) := Scan(line, MatchTag);
      RowsAt(stamps, Text.TrimStart(after))
  }

  // ---------------------------------------------------------------- the document

  function FirstBreak(s: string): (k: nat)
    ensures k <= |s| && (k < |s| ==> s[k] == '\n') && '\n' !in s[..k]
  {
    if s == [] || s[0] == '\n' then 0 else
      var k := FirstBreak(s[1..]);
      assert s[..1 + k] == [s[0]] + s[1..][..k];
      1 + k
  }

  /** A carriage return right before a line feed belongs to the break. */
  function WithoutCr(s: string): string {
    if s != [] && Last(s) == '\r' then Init(s) else s
  }

  /** `raw.split(/\r?\n/)`. */
  function SplitLines(raw: string): (lines: seq<string>)
    ensures lines != []
    decreases |raw|
  {
    var k := FirstBreak(raw);
    if k == |raw| then [raw] else [WithoutCr(raw[..k])] + SplitLines(raw[k + 1..])
  }

  /** The rows of all lines, in file order. */
  function AllRows(lines: seq<string>, rowsOf: string -> seq<ParsedRow>): seq<ParsedRow> {
    if lines == [] then [] else AllRows(Init(lines), rowsOf) + rowsOf(Last(lines))
  }

  function RowsOf(raw: string): seq<ParsedRow> {
    AllRows(SplitLines(raw), RowsOfLine)
  }

  predicate ByStart(a: ParsedRow, b: ParsedRow) {
    a.startsAtMs <= b.startsAtMs
  }

  function Decimal(n: nat): string {
    if n < 10 then [DigitChar(n)] else Decimal(n / 10) + [DigitChar(n % 10)]
  }

  function DigitChar(d: nat): (c: char)
    requires d < 10
    ensures IsDigit(c) && DigitValue(c) == d
  {
    '0' + d as char
  }

  function LineId(i: nat): string {
    "line-" + Decimal(i)
  }

  /** Sorted rows as lyric lines: numbered, each ending where the next one starts. */
  function Numbered(rows: seq<ParsedRow>): (lines: seq<LyricsLine>)
    ensures |lines| == |rows|
    ensures forall i :: 0 <= i < |rows| ==> lines[i] == NumberedAt(rows, i)
  {
    seq(|rows|, i requires 0 <= i < |rows| => NumberedAt(rows, i))
  }

  function NumberedAt(rows: seq<ParsedRow>, i: nat): LyricsLine
    requires i < |rows|
  {
    LyricsLine(LineId(i), rows[i].text, Some(rows[i].startsAtMs as real),
               if i + 1 < |rows| then Some(rows[i + 1].startsAtMs as real) else None)
  }

  function Parsed(raw: string): seq<LyricsLine> {
    Numbered(StableSort(RowsOf(raw), ByStart))
  }

  /** With `left` still to read and `tail` what follows the last tag so far, the stamps so far and those
      still to come are `all` of them. */
  ghost predicate Scanned(all: (seq<nat>, string), m: Matcher, left: string, stamps: seq<nat>, tail: string)
    requires Reads(m)
  {
    var (more, after) := Scan(left, m);
    all == (stamps + more, if more == [] then tail else after)
  }

  lemma ScannedTag(all: (seq<nat>, string), m: Matcher, left: string, stamps: seq<nat>, tail: string, t: Tag)
    requires Reads(m) && Scanned(all, m, left, stamps, tail) && left != [] && m(left) == Some(t)
    ensures 0 < |Print(t)| <= |left|
    ensures Scanned(all, m, left[|Print(t)|..], stamps + [ParseTimestamp(t)], left[|Print(t)|..])
  {
    var x, more := ParseTimestamp(t), Scan(left[|Print(t)|..], m).0;
    assert stamps + ([x] + more) == (stamps + [x]) + more;
  }

  lemma ScannedChar(all: (seq<nat>, string), m: Matcher, left: string, stamps: seq<nat>, tail: string)
    requires Reads(m) && Scanned(all, m, left, stamps, tail) && left != [] && m(left).None?
    ensures Scanned(all, m, left[1..], stamps, tail)
  {
  }

  lemma ScannedStart(line: string, m: Matcher)
    requires Reads(m)
    ensures Scanned(Scan(line, m), m, line, [], line)
  {
    var (more, after) := Scan(line, m);
    assert [] + more == more;
  }

  lemma ScannedEnd(all: (seq<nat>, string), m: Matcher, stamps: seq<nat>, tail: string)
    requires Reads(m) && Scanned(all, m, [], stamps, tail)
    ensures all == (stamps, tail)
  {
    assert stamps + [] == stamps;
  }

  /** Collect the tags of a line. */
  method ScanStamps(line: string, exec: Matcher) returns (stamps: seq<nat>, lastIndex: nat)
    requires Reads(exec)
    ensures lastIndex <= |line|
    ensures (stamps, line[lastIndex..]) == Scan(line, exec)
  {
    ghost var all := Scan(line, exec);
    stamps := [];
    lastIndex := 0;
    var at, left := 0, line;
    ScannedStart(line, exec);
    while at < |line|
      invariant lastIndex <= at <= |line| && left == line[at..]
      invariant Scanned(all, exec, left, stamps, line[lastIndex..])
      decreases |left|
    {
      var m := exec(left);
      if m.Some? {
        var length := |Print(m.value)|;
        ScannedTag(all, exec, left, stamps, line[lastIndex..], m.value);
        stamps := stamps + [ParseTimestamp(m.value)];
        assert left[length..] == line[at + length..];
        at, left := at + length, left[length..];
        lastIndex := at;
      } else {
        ScannedChar(all, exec, left, stamps, line[lastIndex..]);
        at, left := at + 1, left[1..];
      }
    }
    ScannedEnd(all, exec, stamps, line[lastIndex..]);
  }

  /** One row per stamp of a line, all with its text. */
  method PushRows(rows: seq<ParsedRow>, stamps: seq<nat>, text: string) returns (out: seq<ParsedRow>)
    ensures out == rows + RowsAt(stamps, text)
  {
    out := rows;
    for k := 0 to |stamps|
      invariant out == rows + RowsAt(stamps, text)[..k]
    {
      out := out + [ParsedRow(stamps[k], text)];
    }
    assert RowsAt(stamps, text)[..|stamps|] == RowsAt(stamps, text);
  }

  method NumberRows(rows: seq<ParsedRow>) returns (lines: seq<LyricsLine>)
    ensures lines == Numbered(rows)
  {
    lines := [];
    for index := 0 to |rows|
      invariant lines == Numbered(rows)[..index]
    {
      var line := LyricsLine(LineId(index), rows[index].text, Some(rows[index].startsAtMs as real), None);
      if index + 1 < |rows| {
        line := line.(endsAtMs := Some(rows[index + 1].startsAtMs as real));
      }
      lines := lines + [line];
    }
  }

  method ParseLrc(raw: string) returns (lines: seq<LyricsLine>)
    ensures lines == Parsed(raw)
  {
    var rawLines := SplitLines(raw);
    var rows: seq<ParsedRow> := [];
    for i := 0 to |rawLines|
      invariant rows == AllRows(rawLines[..i], RowsOfLine)
    {
      assert Init(rawLines[..i + 1]) == rawLines[..i] && Last(rawLines[..i + 1]) == rawLines[i];
      var line := Text.TrimEnd(rawLines[i]);
      if |line| == 0 || IsMetadataLine(line) {
        continue;
      }
      var stamps, lastIndex := ScanStamps(line, MatchTag);
      if |stamps| == 0 {
        continue;
      }
      rows := PushRows(rows, stamps, Text.TrimStart(line[lastIndex..]));
    }
    assert rawLines[..|rawLines|] == rawLines;
    rows := StableSort(rows, ByStart);
    lines := NumberRows(rows);
  }
}

/** Whitespace and trimming as JavaScript's `\s`, `trim` and `split(/\s+/)` see them. */
module Text {
  import opened Collections

  /** The members of JavaScript's `\s` class. */
  predicate IsSpace(c: char) {
    || c == ' ' || '\U{9}' <= c <= '\U{D}' || c == '\U{A0}' || c == '\U{1680}'
    || '\U{2000}' <= c <= '\U{200A}' || c == '\U{2028}' || c == '\U{2029}' || c == '\U{202F}'
    || c == '\U{205F}' || c == '\U{3000}' || c == '\U{FEFF}'
  }

  function TrimStart(s: string): (r: string)
    ensures |r| <= |s| && (r == [] || !IsSpace(r[0]))
    ensures r == s[|s| - |r|..]
  {
    if s != [] && IsSpace(s[0]) then TrimStart(s[1..]) else s
  }

  function TrimEnd(s: string): (r: string)
    ensures |r| <= |s| && (r == [] || !IsSpace(Last(r)))
    ensures r == s[..|r|]
  {
    if s != [] && IsSpace(Last(s)) then TrimEnd(Init(s)) else s
  }

  /** Neither end is whitespace. */
  predicate Trimmed(s: string) {
    s == [] || (!IsSpace(s[0]) && !IsSpace(Last(s)))
  }

  const DISPLAY_NAME_MAX := 40

  /** C0 controls, DEL and C1 controls. */
  predicate IsControl(c: char) {
    c <= '\U{1F}' || '\U{7F}' <= c <= '\U{9F}'
  }

  /** The name put on the TV: control characters stripped, ends trimmed, one to forty characters. */
  function SanitizeDisplayName(raw: string): (r: Option<string>)
    ensures r.Some? ==> 1 <= |r.value| <= DISPLAY_NAME_MAX && Trimmed(r.value)
  {
    var cleaned := TrimEnd(TrimStart(Filter(raw, (c: char) => !IsControl(c))));
    if |cleaned| < 1 || |cleaned| > DISPLAY_NAME_MAX then None else Some(cleaned)
  }
}

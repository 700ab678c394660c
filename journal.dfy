/**
 * The records the journaling component keeps, and JavaScript's
 * `String.prototype.trim`, which decides whether an entry is blank, and
 * string `length`, which counts UTF-16 code units.
 */
module Journal {
  import opened Wrappers

  /**
   * The language model's sentiment analysis of one entry, as parsed from its
   * JSON reply. A field the reply leaves out is modelled by its falsy value:
   * an empty `insight` is a missing one, a missing category score is absent
   * from `categories`.
   */
  datatype Analysis = Analysis(
    categories: map<string, int>,
    sentiment: string,
    dominantTheme: string,
    insight: string)

  /** The analysis used when the analysis request fails. */
  const DEFAULT_ANALYSIS: Analysis := Analysis(
    map["relationship" := 0, "money" := 0, "health" := 0, "education" := 0, "job" := 0],
    "neutral", "general", "")

  /**
   * One journal entry. The clock readings (`id`, the locale-formatted
   * `date`, `time`, `dayOfWeek`) are opaque; `fullDate` is the entry's
   * timestamp in milliseconds.
   */
  datatype JournalEntry = JournalEntry(
    id: int,
    date: string,
    time: string,
    dayOfWeek: string,
    fullDate: int,
    entry: string,
    guidance: string,
    mood: string,
    analysis: Option<Analysis>)

  /** The characters `trim` removes: ECMAScript WhiteSpace and LineTerminator. */
  predicate IsJsWhitespace(c: char) {
    c == '\t' || c == '\n' || c == '\U{B}' || c == '\U{C}' || c == '\r' ||
    c == ' ' || c == '\U{A0}' || c == '\U{1680}' ||
    ('\U{2000}' <= c <= '\U{200A}') ||
    c == '\U{2028}' || c == '\U{2029}' || c == '\U{202F}' || c == '\U{205F}' ||
    c == '\U{3000}' || c == '\U{FEFF}'
  }

  /** `s` without its leading whitespace. */
  function TrimStart(s: string): (r: string)
    ensures |r| <= |s| && r == s[|s| - |r|..]
    ensures forall i :: 0 <= i < |s| - |r| ==> IsJsWhitespace(s[i])
    ensures r != [] ==> !IsJsWhitespace(r[0])
  {
    if |s| > 0 && IsJsWhitespace(s[0]) then TrimStart(s[1..]) else s
  }

  /** `s` without its trailing whitespace. */
  function TrimEnd(s: string): (r: string)
    ensures |r| <= |s| && r == s[..|r|]
    ensures forall i :: |r| <= i < |s| ==> IsJsWhitespace(s[i])
    ensures r != [] ==> !IsJsWhitespace(r[|r| - 1])
  {
    if |s| > 0 && IsJsWhitespace(s[|s| - 1]) then TrimEnd(s[..|s| - 1]) else s
  }

  /** JavaScript's `s.trim()`. */
  function Trim(s: string): string {
    TrimEnd(TrimStart(s))
  }

  /**
   * JavaScript's `s.length`: the number of UTF-16 code units, two for each
   * character beyond U+FFFF (a surrogate pair) and one for every other.
   */
  function Utf16Length(s: string): (n: nat)
    ensures |s| <= n <= 2 * |s|
    ensures n == |s| <==> forall i :: 0 <= i < |s| ==> s[i] <= '\U{FFFF}'
  {
    if s == [] then 0
    else Utf16Length(s[..|s| - 1]) + (if s[|s| - 1] > '\U{FFFF}' then 2 else 1)
  }

  /** `s.trim()` is the empty (falsy) string exactly when every character of `s` is whitespace. */
  lemma TrimBlank(s: string)
    ensures Trim(s) == [] <==> forall i :: 0 <= i < |s| ==> IsJsWhitespace(s[i])
  {
    var t := TrimStart(s);
    if t != [] {
      assert t[0] == s[|s| - |t|];
    }
  }
}

/**
  The email check of the bot's `process_email` handler: the reply is passed
  through Python's `str.strip()` and accepted when it contains both `@` and `.`.
*/
module EmailCheck {

  /** Python's `str.isspace()` for one character: the characters `strip()` removes. */
  predicate IsSpace(c: char) {
    || c == ' ' || c == '\t' || c == '\n' || c == '\r'
    || c == '\U{B}' || c == '\U{C}'
    || ('\U{1C}' <= c <= '\U{1F}')
    || c == '\U{85}' || c == '\U{A0}' || c == '\U{1680}'
    || ('\U{2000}' <= c <= '\U{200A}')
    || c == '\U{2028}' || c == '\U{2029}' || c == '\U{202F}' || c == '\U{205F}' || c == '\U{3000}'
  }

  predicate AllSpace(t: string) {
    forall k :: 0 <= k < |t| ==> IsSpace(t[k])
  }

  /** Length of the longest all-whitespace prefix of `t`. */
  function LeadingSpaces(t: string): (n: nat)
    ensures n <= |t|
    ensures AllSpace(t[..n])
    ensures n < |t| ==> !IsSpace(t[n])
  {
    if |t| > 0 && IsSpace(t[0]) then
      var m := LeadingSpaces(t[1..]);
      assert t[..m + 1] == [t[0]] + t[1..][..m];
      m + 1
    else 0
  }

  /** Length of the longest all-whitespace suffix of `t`. */
  function TrailingSpaces(t: string): (n: nat)
    ensures n <= |t|
    ensures AllSpace(t[|t| - n..])
    ensures n < |t| ==> !IsSpace(t[|t| - 1 - n])
  {
    if |t| > 0 && IsSpace(t[|t| - 1]) then
      var front := t[..|t| - 1];
      var m := TrailingSpaces(front);
      assert t[|t| - (m + 1)..] == front[|front| - m..] + [t[|t| - 1]];
      m + 1
    else 0
  }

  /** Python's `t.strip()`: drops leading and trailing whitespace. */
  function Strip(t: string): (r: string)
    ensures |r| <= |t|
    ensures r == [] <==> AllSpace(t)
    ensures r != [] ==> !IsSpace(r[0]) && !IsSpace(r[|r| - 1])
  {
    var lo := LeadingSpaces(t);
    var rest := t[lo..];
    var r := rest[..|rest| - TrailingSpaces(rest)];
    assert lo == |t| ==> AllSpace(t) by {
      if lo == |t| { assert t[..lo] == t; }
    }
    assert lo < |t| ==> rest[0] == t[lo];
    r
  }

  /**
    `Strip(t)` is a slice of `t` whose cut-off prefix and suffix are whitespace;
    together with the ends that `Strip` guarantees to be non-whitespace this
    pins `Strip(t)` down completely.
  */
  lemma StripDecomposes(t: string)
    ensures var lo, r := LeadingSpaces(t), Strip(t);
      && lo + |r| <= |t|
      && (forall j :: 0 <= j < lo ==> IsSpace(t[j]))
      && (forall j :: 0 <= j < |r| ==> r[j] == t[lo + j])
      && (forall j :: lo + |r| <= j < |t| ==> IsSpace(t[j]))
  {
  }

  /** Stripping keeps every non-whitespace character: it occurs in the result iff it occurs in the input. */
  lemma StripKeepsVisible(t: string, c: char)
    requires !IsSpace(c)
    ensures c in Strip(t) <==> c in t
  {
  }

  /** Stripping twice is stripping once. */
  lemma StripIdempotent(t: string)
    ensures Strip(Strip(t)) == Strip(t)
  {
  }

  /** The check of `process_email`: the stripped reply contains both `@` and `.`. */
  predicate EmailAccepted(text: string) {
    var email := Strip(text);
    '@' in email && '.' in email
  }

  /** Because `@` and `.` are not whitespace, stripping never changes the verdict. */
  lemma EmailAcceptedIff(text: string)
    ensures EmailAccepted(text) <==> '@' in text && '.' in text
  {
  }
}

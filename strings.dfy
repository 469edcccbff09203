/** The null-safe blank test the synchronizer applies to the cloud token. */
module Strings {
  import opened Wrappers

  /** Java's `Character.isWhitespace`, restricted to the ASCII range. */
  predicate IsWhitespace(c: char) {
    c == ' ' || c == '\t' || c == '\n' || c == '\U{B}' || c == '\U{C}' || c == '\r'
    || ('\U{1C}' <= c <= '\U{1F}')
  }

  /** A string is blank when every character of it is whitespace (so the empty string is blank). */
  function IsBlank(s: string): (r: bool)
    ensures r <==> forall i :: 0 <= i < |s| ==> IsWhitespace(s[i])
  {
    if |s| == 0 then true else IsWhitespace(s[0]) && IsBlank(s[1..])
  }

  /** `StringUtils.isNotBlank`: present, and holding at least one non-whitespace character. */
  function IsNotBlank(s: Option<string>): (r: bool)
    ensures r <==> s.Some? && exists i :: 0 <= i < |s.value| && !IsWhitespace(s.value[i])
  {
    s.Some? && !IsBlank(s.value)
  }
}

/** The few PHP string semantics the Email class relies on. A PHP `null` string is
    modelled as "": truthiness, `empty`, interpolation and concatenation treat the
    two alike (`isset` does not; see `EmailMessage.Email.AddCustomHeader`). */
module PhpStrings {

  /** PHP converts a string to `false` exactly when it is "" or "0"; `empty($s)` is
      the negation of this. */
  predicate Truthy(s: string) {
    s != "" && s != "0"
  }

  /** The characters PHP's `trim()` strips by default: space, tab, line feed,
      carriage return, NUL and vertical tab (code 11). */
  predicate IsTrimChar(c: char) {
    c == ' ' || c == '\t' || c == '\n' || c == '\r' || c == '\0' || c as int == 11
  }

  /** The number of trimmed characters at the front of `s`, as `ltrim()` removes them. */
  function LeadingTrimmed(s: string): (n: nat)
    ensures n <= |s|
    ensures forall i :: 0 <= i < n ==> IsTrimChar(s[i])
    ensures n == |s| || !IsTrimChar(s[n])
  {
    if s != [] && IsTrimChar(s[0]) then 1 + LeadingTrimmed(s[1..]) else 0
  }

  /** The number of trimmed characters at the back of `s`, as `rtrim()` removes them. */
  function TrailingTrimmed(s: string): (n: nat)
    ensures n <= |s|
    ensures forall i :: |s| - n <= i < |s| ==> IsTrimChar(s[i])
    ensures n == |s| || !IsTrimChar(s[|s| - 1 - n])
  {
    if s != [] && IsTrimChar(s[|s| - 1]) then 1 + TrailingTrimmed(s[..|s| - 1]) else 0
  }

  /** `trim()`: `s` with every trimmed character removed from both ends. The result
      neither starts nor ends with a trimmed character, it is empty exactly when `s`
      holds trimmed characters only, and otherwise it is the slice of `s` that lies
      between the leading and the trailing run of trimmed characters. */
  function Trim(s: string): (r: string)
    ensures r == [] || (!IsTrimChar(r[0]) && !IsTrimChar(r[|r| - 1]))
    ensures r == [] <==> forall i :: 0 <= i < |s| ==> IsTrimChar(s[i])
    ensures r != [] ==>
              && LeadingTrimmed(s) + TrailingTrimmed(s) < |s|
              && r == s[LeadingTrimmed(s)..|s| - TrailingTrimmed(s)]
  {
    var lead := LeadingTrimmed(s);
    if lead == |s| then "" else
      var trail := TrailingTrimmed(s);
      assert !IsTrimChar(s[lead]);
      assert lead + trail < |s|;
      s[lead..|s| - trail]
  }

  /** A header value counts as non-blank for `!empty($v) && trim($v)` exactly when its
      trimmed form is truthy: the `!empty` half of the test is implied by the other. */
  lemma TrimmedTruthyImpliesTruthy(s: string)
    ensures Truthy(Trim(s)) ==> Truthy(s)
  {
  }
}

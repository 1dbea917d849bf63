/** The output validator of tools/validation.go. */
module Validation {
  import opened Strings

  /** The behaviour of Go's regexp package, left abstract: `compiles(p)` says
      whether regexp.Compile(p) succeeds, and `matches(p, s)` whether the
      compiled `p` matches somewhere in `s` (regexp.MatchString is unanchored). */
  datatype Regex = Regex(compiles: string -> bool, matches: (string, string) -> bool)

  /** ValidateOutput: an empty expectation accepts anything; otherwise both
      strings are trimmed, and the expectation is used as a pattern when it
      compiles and compared literally when it does not. */
  function ValidateOutput(re: Regex, output: string, expected: string): (ok: bool)
    ensures expected == "" ==> ok
    ensures expected != "" && re.compiles(TrimSpace(expected)) ==> ok == re.matches(TrimSpace(expected), TrimSpace(output))
    ensures expected != "" && !re.compiles(TrimSpace(expected)) ==> (ok <==> TrimSpace(output) == TrimSpace(expected))
  {
    if expected == "" then true
    else
      var out := TrimSpace(output);
      var exp := TrimSpace(expected);
      if re.compiles(exp) then re.matches(exp, out) else out == exp
  }

  /** No expectation: every output passes. */
  lemma EmptyExpectedAccepts(re: Regex, output: string)
    ensures ValidateOutput(re, output, "")
  {
  }

  /** A non-empty expectation that compiles decides by an unanchored match of
      the trimmed pattern against the trimmed output. */
  lemma PatternDecides(re: Regex, output: string, expected: string)
    requires expected != "" && re.compiles(TrimSpace(expected))
    ensures ValidateOutput(re, output, expected) == re.matches(TrimSpace(expected), TrimSpace(output))
  {
  }

  /** A malformed pattern degrades to equality of the trimmed strings. */
  lemma LiteralFallback(re: Regex, output: string, expected: string)
    requires expected != "" && !re.compiles(TrimSpace(expected))
    ensures ValidateOutput(re, output, expected) == (TrimSpace(output) == TrimSpace(expected))
  {
  }

  /** Trimming the output first, as the step loop does, changes nothing. */
  lemma PretrimmedOutput(re: Regex, output: string, expected: string)
    ensures ValidateOutput(re, TrimSpace(output), expected) == ValidateOutput(re, output, expected)
  {
    TrimSpaceIdempotent(output);
  }

  /** Surrounding white space on the expectation never matters once it is not
      empty: an expectation and its trimmed form validate alike. */
  lemma PretrimmedExpected(re: Regex, output: string, expected: string)
    requires TrimSpace(expected) != ""
    ensures ValidateOutput(re, output, TrimSpace(expected)) == ValidateOutput(re, output, expected)
  {
    TrimSpaceIdempotent(expected);
  }
}

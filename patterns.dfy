/**
 * Text patterns used by the comment gate and the validation utilities.
 *
 * The simple patterns are written out as scanners that follow the regular
 * expression engine's global matching: try a match at the current position,
 * consume it when it matches, otherwise move one character on. The patterns
 * whose meaning rests on backtracking (the XSS and SQL-injection lists, the
 * e-mail pattern searched inside free text, the HTML tag filter) are kept
 * abstract, as function values carried in `Detectors`.
 */
module Patterns {
  import opened Common

  /** The regular-expression tests the model does not write out. */
  datatype Detectors = Detectors(
    isXssFree: string -> bool,        // no dangerous script pattern matches
    hasSqlInjection: string -> bool,  // some SQL-injection pattern matches
    sanitizeHtml: string -> string,   // tag and attribute filter
    emailMatches: string -> nat       // matches of the e-mail pattern inside a text
  )

  /** JavaScript's `\s` class. */
  predicate IsSpace(c: char) {
    c == ' ' || c == '\t' || c == '\n' || c == '\r' || c == '\U{000B}' || c == '\U{000C}' ||
    c == '\U{00A0}' || c == '\U{1680}' || ('\U{2000}' <= c <= '\U{200A}') ||
    c == '\U{2028}' || c == '\U{2029}' || c == '\U{202F}' || c == '\U{205F}' ||
    c == '\U{3000}' || c == '\U{FEFF}'
  }

  /** The characters `.` does not match. */
  predicate IsLineTerminator(c: char) {
    c == '\n' || c == '\r' || c == '\U{2028}' || c == '\U{2029}'
  }

  // ------------------------------------------------ (.)\1{3,}, global

  /** Length of the run of copies of `s[i]` that starts at `i`. */
  function RunLength(s: string, i: nat): (n: nat)
    requires i < |s|
    ensures 1 <= n <= |s| - i
    ensures forall k :: i <= k < i + n ==> s[k] == s[i]
    ensures i + n == |s| || s[i + n] != s[i]
    decreases |s| - i
  {
    if i + 1 < |s| && s[i + 1] == s[i] then 1 + RunLength(s, i + 1) else 1
  }

  /** Matches of `(.)\1{3,}` from position `i`: runs of four or more copies of one character. */
  function RepeatRunsFrom(s: string, i: nat): (n: nat)
    requires i <= |s|
    ensures 4 * n <= |s| - i
    decreases |s| - i
  {
    if i == |s| then 0
    else
      var len := RunLength(s, i);
      if !IsLineTerminator(s[i]) && len >= 4 then 1 + RepeatRunsFrom(s, i + len)
      else RepeatRunsFrom(s, i + 1)
  }

  function RepeatRuns(s: string): (n: nat)
    ensures 4 * n <= |s|
  {
    RepeatRunsFrom(s, 0)
  }

  /** A string of one character repeated at least four times is one run. */
  lemma {:induction false} RepeatedCharIsOneRun(c: char, n: nat)
    requires n >= 4 && !IsLineTerminator(c)
    ensures RepeatRuns(seq(n, _ => c)) == 1
  {
    var s := seq(n, _ => c);
    RunIsWhole(s, 0);
    assert RunLength(s, 0) == n;
  }

  lemma {:induction false} RunIsWhole(s: string, i: nat)
    requires i < |s|
    requires forall k :: i <= k < |s| ==> s[k] == s[i]
    ensures RunLength(s, i) == |s| - i
    decreases |s| - i
  {
    if i + 1 < |s| {
      RunIsWhole(s, i + 1);
    }
  }

  // -------------------------------------------------- \d{11}, global

  predicate DigitsAt(s: string, i: nat, n: nat) {
    i + n <= |s| && forall k :: i <= k < i + n ==> IsDigit(s[k])
  }

  /** Matches of `\d{11}` from position `i`. */
  function ElevenDigitRunsFrom(s: string, i: nat): (n: nat)
    requires i <= |s|
    ensures 11 * n <= |s| - i
    decreases |s| - i
  {
    if i == |s| then 0
    else if DigitsAt(s, i, 11) then 1 + ElevenDigitRunsFrom(s, i + 11)
    else ElevenDigitRunsFrom(s, i + 1)
  }

  function ElevenDigitRuns(s: string): (n: nat)
    ensures 11 * n <= |s|
  {
    ElevenDigitRunsFrom(s, 0)
  }

  // -------------------------------------------- (https?:\/\/[^\s]+), global

  /** Length of the run of non-space characters that starts at `i`. */
  function NonSpaceRun(s: string, i: nat): (n: nat)
    requires i <= |s|
    ensures n <= |s| - i
    ensures forall k :: i <= k < i + n ==> !IsSpace(s[k])
    ensures i + n == |s| || IsSpace(s[i + n])
    decreases |s| - i
  {
    if i < |s| && !IsSpace(s[i]) then 1 + NonSpaceRun(s, i + 1) else 0
  }

  /** A link starts at `i`: the scheme, then at least one non-space character. */
  predicate LinkAt(s: string, i: nat)
    requires i <= |s|
  {
    (StartsWith(s[i..], "https://") && i + 8 < |s| && !IsSpace(s[i + 8])) ||
    (StartsWith(s[i..], "http://") && i + 7 < |s| && !IsSpace(s[i + 7]))
  }

  /** Matches of the link pattern from position `i`; a match runs to the next space. */
  function LinksFrom(s: string, i: nat): (n: nat)
    requires i <= |s|
    ensures 8 * n <= |s| - i
    decreases |s| - i
  {
    if i == |s| then 0
    else if LinkAt(s, i) then
      var len := NonSpaceRun(s, i);
      assert s[i..][..7] == s[i..i + 7];
      assert len >= 8;
      1 + LinksFrom(s, i + len)
    else LinksFrom(s, i + 1)
  }

  function Links(s: string): (n: nat)
    ensures 8 * n <= |s|
  {
    LinksFrom(s, 0)
  }

  // ----------------------------------------------- character classes

  /** The class `[!@#$%^&*()_+=\[\]{}|;:,.<>?]` of the spam score. */
  predicate IsSpamSpecial(c: char) {
    c in "!@#$%^&*()_+=[]{}|;:,.<>?"
  }

  /** Characters of the e-mail local part: `[a-zA-Z0-9._%+-]`. */
  predicate IsEmailLocalChar(c: char) {
    IsLetter(c) || IsDigit(c) || c in "._%+-"
  }

  /** Characters of the e-mail domain: `[a-zA-Z0-9.-]`. */
  predicate IsEmailDomainChar(c: char) {
    IsLetter(c) || IsDigit(c) || c == '.' || c == '-'
  }

  /**
   * `^[a-zA-Z0-9._%+-]+@[a-zA-Z0-9.-]+\.[a-zA-Z]{2,}$`: a non-empty local
   * part, one '@', a domain whose final '.' has at least one character before
   * it and at least two letters after it.
   */
  predicate IsValidEmail(s: string) {
    exists at | 0 < at < |s| :: EmailSplit(s, at)
  }

  predicate EmailSplit(s: string, at: int)
    requires 0 < at < |s|
  {
    s[at] == '@' &&
    (forall k :: 0 <= k < at ==> IsEmailLocalChar(s[k])) &&
    exists dot | at + 1 < dot < |s| - 2 ::
      s[dot] == '.' &&
      (forall k :: at + 1 <= k < dot ==> IsEmailDomainChar(s[k])) &&
      (forall k :: dot + 1 <= k < |s| ==> IsLetter(s[k]))
  }

  /** The e-mail check rejects a text without '@' and a text with a space in it. */
  lemma EmailNeedsAtAndNoSpace(s: string)
    requires IsValidEmail(s)
    ensures '@' in s
    ensures forall k :: 0 <= k < |s| ==> !IsSpace(s[k])
  {
    var at :| 0 < at < |s| && EmailSplit(s, at);
    var dot :| at + 1 < dot < |s| - 2 && s[dot] == '.' &&
      (forall k :: at + 1 <= k < dot ==> IsEmailDomainChar(s[k])) &&
      (forall k :: dot + 1 <= k < |s| ==> IsLetter(s[k]));
    forall k | 0 <= k < |s| ensures !IsSpace(s[k]) {
      if k < at {
        assert IsEmailLocalChar(s[k]);
      } else if at < k < dot {
        assert IsEmailDomainChar(s[k]);
      } else if k > dot {
        assert IsLetter(s[k]);
      }
    }
  }

  lemma SampleEmailIsValid()
    ensures IsValidEmail("a@b.cd")
  {
    var s := "a@b.cd";
    assert EmailSplit(s, 1) by {
      assert s[1] == '@' && s[3] == '.';
    }
  }
}

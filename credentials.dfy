/**
 * The field rules shared by the sign-in and sign-up forms: the email pattern
 * `^[a-zA-Z0-9._+-]+@[a-zA-Z0-9.-]+\.[a-zA-Z]{2,}$`, the required/pattern
 * email message, and the required/minimum-length password message.
 */
module Credentials {
  import opened Wrappers
  import opened JsText

  const MinPasswordLength := 8

  predicate AsciiLetter(c: char) {
    'a' <= c <= 'z' || 'A' <= c <= 'Z'
  }

  predicate AsciiDigit(c: char) {
    '0' <= c <= '9'
  }

  /** `[a-zA-Z0-9._+-]`, the characters before the '@'. */
  predicate LocalChar(c: char) {
    AsciiLetter(c) || AsciiDigit(c) || c == '.' || c == '_' || c == '+' || c == '-'
  }

  /** `[a-zA-Z0-9.-]`, the characters between the '@' and the final dot. */
  predicate DomainChar(c: char) {
    AsciiLetter(c) || AsciiDigit(c) || c == '.' || c == '-'
  }

  /** The pattern matches `s` with its '@' at index `at` and its `\.` at index `dot`. */
  predicate EmailSplit(s: string, at: int, dot: int) {
    && 0 < at && at + 1 < dot && dot + 2 < |s|
    && (forall k :: 0 <= k < at ==> LocalChar(s[k]))
    && s[at] == '@'
    && (forall k :: at < k < dot ==> DomainChar(s[k]))
    && s[dot] == '.'
    && (forall k :: dot < k < |s| ==> AsciiLetter(s[k]))
  }

  /** What the regular expression accepts: some placement of '@' and of the dot before the
      top-level label makes every group match (a backtracking matcher tries them all). */
  ghost predicate MatchesEmailPattern(s: string) {
    exists at, dot :: EmailSplit(s, at, dot)
  }

  function FirstIndexOf(s: string, c: char): (r: Option<nat>)
    ensures r.None? ==> c !in s
    ensures r.Some? ==> r.value < |s| && s[r.value] == c && c !in s[..r.value]
  {
    if |s| == 0 then None
    else if s[0] == c then Some(0)
    else
      var r := FirstIndexOf(s[1..], c);
      if r.None? then None
      else
        assert s[..r.value + 1] == [s[0]] + s[1..][..r.value];
        Some(r.value + 1)
  }

  function LastIndexOf(s: string, c: char): (r: Option<nat>)
    ensures r.None? ==> c !in s
    ensures r.Some? ==> r.value < |s| && s[r.value] == c && c !in s[r.value + 1..]
  {
    if |s| == 0 then None
    else if s[|s| - 1] == c then Some(|s| - 1)
    else
      var r := LastIndexOf(s[..|s| - 1], c);
      if r.None? then None
      else
        assert s[r.value + 1..] == s[..|s| - 1][r.value + 1..] + [s[|s| - 1]];
        Some(r.value)
  }

  /** In any match, the '@' is the first '@' of `s` and the dot is its last '.'. */
  lemma EmailSplitIsForced(s: string, at: int, dot: int)
    requires EmailSplit(s, at, dot)
    ensures FirstIndexOf(s, '@') == Some(at)
    ensures LastIndexOf(s, '.') == Some(dot)
  {
    assert s[at] == '@' && s[dot] == '.';
    assert '@' !in s[..at] by {
      forall k | 0 <= k < at ensures s[..at][k] != '@' { assert LocalChar(s[k]); }
    }
    assert '.' !in s[dot + 1..] by {
      forall k | dot < k < |s| ensures s[k] != '.' { assert AsciiLetter(s[k]); }
    }
  }

  /** `emailPattern.test(s)`, decided from the first '@' and the last '.'. */
  function IsEmail(s: string): (r: bool)
    ensures r <==> MatchesEmailPattern(s)
  {
    var at := FirstIndexOf(s, '@');
    var dot := LastIndexOf(s, '.');
    if at.Some? && dot.Some? && EmailSplit(s, at.value, dot.value) then
      true
    else
      assert !MatchesEmailPattern(s) by {
        if a, d :| EmailSplit(s, a, d) {
          EmailSplitIsForced(s, a, d);
        }
      }
      false
  }

  /** The top-level label: `s` ends in '.' followed by `n` ASCII letters. */
  predicate EndsWithLabel(s: string, n: int) {
    0 <= n < |s| && s[|s| - n - 1] == '.' && forall k :: |s| - n <= k < |s| ==> AsciiLetter(s[k])
  }

  /** An accepted address holds exactly one '@' and ends in '.' and at least two ASCII letters. */
  lemma {:induction false} AcceptedEmailShape(s: string)
    requires IsEmail(s)
    ensures multiset(s)['@'] == 1
    ensures exists n :: n >= 2 && EndsWithLabel(s, n)
  {
    var at, dot :| EmailSplit(s, at, dot);
    assert s == s[..at] + [s[at]] + s[at + 1..];
    assert '@' !in s[..at] by {
      forall k | 0 <= k < at ensures s[..at][k] != '@' { assert LocalChar(s[k]); }
    }
    assert '@' !in s[at + 1..] by {
      forall k | at < k < |s| ensures s[k] != '@' {
        if k < dot { assert DomainChar(s[k]); }
        else if k > dot { assert AsciiLetter(s[k]); }
      }
    }
    calc {
      multiset(s)['@'];
      (multiset(s[..at]) + multiset([s[at]]) + multiset(s[at + 1..]))['@'];
      0 + 1 + 0;
    }
    assert EndsWithLabel(s, |s| - dot - 1);
  }

  /** The email field's message. */
  function EmailError(email: string): (msg: string)
    ensures email == "" ==> msg == "Email is required"
    ensures email != "" && !IsEmail(email) ==> msg == "Please enter a valid email address"
    ensures msg == "" <==> IsEmail(email)
  {
    if email == "" then "Email is required"
    else if !IsEmail(email) then "Please enter a valid email address"
    else ""
  }

  /** The password field's message; the length is counted in UTF-16 code units. */
  function PasswordError(password: string): (msg: string)
    ensures password == "" ==> msg == "Password is required"
    ensures password != "" && Utf16Length(password) < MinPasswordLength ==>
              msg == "Password must be at least 8 characters"
    ensures msg == "" <==> Utf16Length(password) >= MinPasswordLength
  {
    if password == "" then "Password is required"
    else if Utf16Length(password) < MinPasswordLength then "Password must be at least 8 characters"
    else ""
  }
}

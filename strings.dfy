/**
 * String logic used by the login and registration forms and by the session store:
 * the e-mail pattern `^[^\s@]+@[^\s@]+\.[^\s@]+$`, `email.split('@')[0]`,
 * the UTF-16 `length` of a password and the decimal form of a timestamp.
 */
module Strings {

  /** The characters `\s` matches in an ECMAScript regular expression (WhiteSpace and LineTerminator). */
  predicate IsWhitespace(c: char) {
    || c == '\t' || c == '\n' || c == '\U{000B}' || c == '\U{000C}' || c == '\r' || c == ' '
    || c == '\U{00A0}' || c == '\U{1680}' || ('\U{2000}' <= c <= '\U{200A}')
    || c == '\U{2028}' || c == '\U{2029}' || c == '\U{202F}' || c == '\U{205F}'
    || c == '\U{3000}' || c == '\U{FEFF}'
  }

  /** The character class `[^\s@]`. */
  predicate PatternChar(c: char) {
    !IsWhitespace(c) && c != '@'
  }

  /**
   * The regular expression, read literally: a non-empty run of pattern characters,
   * an '@' at index `at`, a non-empty run, a '.' at index `dot`, a non-empty run, end of input.
   */
  ghost predicate MatchesAt(s: string, at: int, dot: int) {
    && 0 < at && at + 1 < dot && dot + 1 < |s|
    && s[at] == '@' && s[dot] == '.'
    && (forall k :: 0 <= k < at ==> PatternChar(s[k]))
    && (forall k :: at < k < dot ==> PatternChar(s[k]))
    && (forall k :: dot < k < |s| ==> PatternChar(s[k]))
  }

  /** `re.test(s)` for `re = /^[^\s@]+@[^\s@]+\.[^\s@]+$/`: some way of matching exists. */
  ghost predicate MatchesEmailPattern(s: string) {
    exists at, dot :: MatchesAt(s, at, dot)
  }

  /** `s.indexOf(c)`: the first index holding `c`, or -1. */
  function IndexOf(s: string, c: char): (i: int)
    ensures -1 <= i < |s|
    ensures i == -1 <==> c !in s
    ensures 0 <= i ==> s[i] == c && c !in s[..i]
  {
    if s == [] then -1
    else if s[0] == c then 0
    else
      var j := IndexOf(s[1..], c);
      if j < 0 then -1
      else
        assert s[1..][..j] == s[1..j + 1];
        j + 1
  }

  /** `email.split('@')[0]`: the text before the first '@', or the whole string when there is none. */
  function LocalPart(email: string): (local: string)
    ensures local <= email && '@' !in local
    ensures |local| < |email| ==> email[|local|] == '@'
  {
    var at := IndexOf(email, '@');
    if at < 0 then email else email[..at]
  }

  /** The part after the '@' has a '.' that is neither its first nor its last character. */
  predicate HasInnerDot(domain: string) {
    exists k :: 0 < k < |domain| - 1 && domain[k] == '.'
  }

  /**
   * The e-mail check of the login and registration forms, character by character:
   * no whitespace, an '@' that is not the first character and is the only one,
   * and an inner '.' in what follows it.
   */
  predicate ValidateEmail(email: string)
    ensures ValidateEmail(email) ==> 5 <= |email| && '@' in email
  {
    && (forall k :: 0 <= k < |email| ==> !IsWhitespace(email[k]))
    && var at := IndexOf(email, '@');
       && 0 < at
       && '@' !in email[at + 1..]
       && HasInnerDot(email[at + 1..])
  }

  /** The character-level check accepts exactly the strings the regular expression matches. */
  lemma ValidateEmailIsPattern(s: string)
    ensures ValidateEmail(s) <==> MatchesEmailPattern(s)
  {
    if ValidateEmail(s) {
      var at := IndexOf(s, '@');
      var domain := s[at + 1..];
      var k :| 0 < k < |domain| - 1 && domain[k] == '.';
      var dot := at + 1 + k;
      forall j | 0 <= j < at ensures PatternChar(s[j]) {
        assert s[j] in s[..at];
      }
      forall j | at < j < |s| ensures PatternChar(s[j]) {
        assert s[j] == domain[j - at - 1];
      }
      assert MatchesAt(s, at, dot);
    }
    if MatchesEmailPattern(s) {
      var at, dot :| MatchesAt(s, at, dot);
      assert '@' !in s[..at] by {
        forall j | 0 <= j < at ensures s[..at][j] != '@' { assert PatternChar(s[j]); }
      }
      var i := IndexOf(s, '@');
      assert i == at;
      var domain := s[at + 1..];
      assert '@' !in domain by {
        forall j | 0 <= j < |domain| ensures domain[j] != '@' { assert domain[j] == s[at + 1 + j]; }
      }
      assert domain[dot - at - 1] == '.';
      assert HasInnerDot(domain);
    }
  }

  /**
   * The check read as a description: no whitespace, exactly one '@', a non-empty part
   * before it, and a '.' after it that is neither the first nor the last character there.
   */
  lemma ValidateEmailByCount(s: string)
    ensures ValidateEmail(s) <==>
      && (forall k :: 0 <= k < |s| ==> !IsWhitespace(s[k]))
      && multiset(s)['@'] == 1
      && LocalPart(s) != []
      && |LocalPart(s)| < |s| && HasInnerDot(s[|LocalPart(s)| + 1..])
  {
    var at := IndexOf(s, '@');
    if at >= 0 {
      var before, after := s[..at], s[at + 1..];
      assert s == before + [s[at]] + after;
      assert multiset(s) == multiset(before) + multiset([s[at]]) + multiset(after);
      assert multiset(before)['@'] == 0;
      assert multiset(after)['@'] == 0 <==> '@' !in after;
    } else {
      assert multiset(s)['@'] == 0;
    }
  }

  /** On an address the form accepts, `split('@')[0]` is the non-empty text before its one '@'. */
  lemma LocalPartOfValidEmail(email: string)
    requires ValidateEmail(email)
    ensures LocalPart(email) != []
    ensures email == LocalPart(email) + "@" + email[|LocalPart(email)| + 1..]
    ensures '@' !in email[|LocalPart(email)| + 1..]
  {
  }

  /** JavaScript's `s.length`: characters outside the Basic Multilingual Plane take two UTF-16 code units. */
  function Utf16Length(s: string): (n: nat)
    ensures |s| <= n <= 2 * |s|
    ensures n == |s| <==> forall k :: 0 <= k < |s| ==> s[k] as int < 0x1_0000
  {
    if s == [] then 0
    else
      var rest := Utf16Length(s[1..]);
      assert forall k :: 0 < k < |s| ==> s[1..][k - 1] == s[k];
      (if s[0] as int < 0x1_0000 then 1 else 2) + rest
  }

  /** The decimal digit for `d`. */
  function Digit(d: nat): char
    requires d < 10
  {
    "0123456789"[d]
  }

  /** `String(n)` for a non-negative integer such as `Date.now()`: its decimal digits, no leading zero. */
  function Decimal(n: nat): (s: string)
    ensures 1 <= |s|
    ensures forall k :: 0 <= k < |s| ==> '0' <= s[k] <= '9'
    ensures s[0] == '0' ==> n == 0
    decreases n
  {
    if n < 10 then [Digit(n)] else Decimal(n / 10) + [Digit(n % 10)]
  }

  /** Different timestamps have different decimal forms. */
  lemma {:induction false} DecimalInjective(a: nat, b: nat)
    requires Decimal(a) == Decimal(b)
    ensures a == b
    decreases a
  {
    if a >= 10 && b >= 10 {
      var da, db := Decimal(a), Decimal(b);
      assert da[..|da| - 1] == Decimal(a / 10);
      assert db[..|db| - 1] == Decimal(b / 10);
      DecimalInjective(a / 10, b / 10);
      assert Digit(a % 10) == da[|da| - 1] == db[|db| - 1] == Digit(b % 10);
    }
  }
}

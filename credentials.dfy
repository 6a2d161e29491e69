/**
 * The credential checks shared by the sign-up and password-reset pages
 * and the sign-up route: the email pattern `^[^\s@]+@[^\s@]+\.[^\s@]+$`
 * and the five-criterion password-strength classifier.
 */
module Credentials {
  import opened Wrappers
  import opened Strings

  // ---------------------------------------------------------------------
  // Email

  /** A character `[^\s@]` accepts. */
  predicate IsPartChar(c: char) {
    !IsJsWhitespace(c) && c != '@'
  }

  /** `[^\s@]+` matches all of `s`. */
  predicate IsPart(s: string) {
    |s| >= 1 && forall k :: 0 <= k < |s| ==> IsPartChar(s[k])
  }

  /** The pieces of a match, in terms of positions in `s`. */
  predicate SplitsAt(s: string, i: int, j: int) {
    0 <= i < j < |s| && s[i] == '@' && s[j] == '.'
    && IsPart(s[..i]) && IsPart(s[i + 1..j]) && IsPart(s[j + 1..])
  }

  /**
   * What the pattern matches: a local part, '@', then a domain in which
   * some '.' has a part on each side (the pattern backtracks over every
   * '.' of the domain).
   */
  predicate MatchesEmailPattern(s: string) {
    exists i, j :: 0 <= i < j < |s| && SplitsAt(s, i, j)
  }

  /** The index of the first `c` in `s`, or -1. */
  function FindChar(s: string, c: char): (r: int)
    ensures r >= -1
    ensures r == -1 <==> c !in s
    ensures r >= 0 ==> r < |s| && s[r] == c && c !in s[..r]
  {
    if s == [] then -1
    else if s[0] == c then 0
    else
      var rest := FindChar(s[1..], c);
      assert s == [s[0]] + s[1..];
      if rest == -1 then -1
      else
        assert s[..rest + 1] == [s[0]] + s[1..][..rest];
        rest + 1
  }

  /**
   * What follows the '@' at `at`. Its own function so that the slice is
   * taken only where `at` is known to be an index.
   */
  function DomainAfter(email: string, at: nat): string
    requires at < |email|
  {
    email[at + 1..]
  }

  /**
   * `validateEmail`, checked directly: no whitespace, exactly one '@'
   * with something before it, and a '.' strictly inside the domain.
   */
  predicate ValidateEmail(email: string) {
    && (forall k :: 0 <= k < |email| ==> !IsJsWhitespace(email[k]))
    && var at := FindChar(email, '@');
       && at >= 1
       && var domain := DomainAfter(email, at);
          && '@' !in domain
          && |domain| >= 3 && '.' in domain[1..|domain| - 1]
  }

  lemma ValidateEmailMatches(s: string)
    requires ValidateEmail(s)
    ensures MatchesEmailPattern(s)
  {
    var i := FindChar(s, '@');
    var domain := s[i + 1..];
    var inner := domain[1..|domain| - 1];
    var m :| 0 <= m < |inner| && inner[m] == '.';
    var j := i + 2 + m;
    assert s[j] == '.';
    var local, host, top := s[..i], s[i + 1..j], s[j + 1..];
    forall k | 0 <= k < |host| ensures IsPartChar(host[k]) {
      assert host[k] == domain[k];
    }
    forall k | 0 <= k < |top| ensures IsPartChar(top[k]) {
      assert top[k] == domain[j - i + k];
    }
    forall k | 0 <= k < |local| ensures IsPartChar(local[k]) {
      assert local[k] in s[..i];
      assert local[k] == s[k];
    }
    assert SplitsAt(s, i, j);
  }

  lemma SplitNoWhitespace(s: string, i: int, j: int)
    requires SplitsAt(s, i, j)
    ensures forall k :: 0 <= k < |s| ==> !IsJsWhitespace(s[k])
    ensures forall k :: 0 <= k < |s| && k != i ==> s[k] != '@'
  {
    var local, host, top := s[..i], s[i + 1..j], s[j + 1..];
    forall k | 0 <= k < |s| ensures !IsJsWhitespace(s[k]) && (k != i ==> s[k] != '@') {
      if k < i {
        assert local[k] == s[k];
      } else if i < k < j {
        assert host[k - i - 1] == s[k];
      } else if j < k {
        assert top[k - j - 1] == s[k];
      }
    }
  }

  lemma MatchesValidateEmail(s: string)
    requires MatchesEmailPattern(s)
    ensures ValidateEmail(s)
  {
    var i, j :| SplitsAt(s, i, j);
    SplitNoWhitespace(s, i, j);
    var at := FindChar(s, '@');
    assert s[i] == '@';
    assert at == i;
    var domain := s[i + 1..];
    assert '@' !in domain by {
      forall k | 0 <= k < |domain| ensures domain[k] != '@' {
        assert domain[k] == s[i + 1 + k];
      }
    }
    var inner := domain[1..|domain| - 1];
    assert inner[j - i - 2] == '.';
  }

  /** The direct check accepts exactly the strings the pattern matches. */
  lemma ValidateEmailIff(s: string)
    ensures ValidateEmail(s) <==> MatchesEmailPattern(s)
  {
    if ValidateEmail(s) {
      ValidateEmailMatches(s);
    }
    if MatchesEmailPattern(s) {
      MatchesValidateEmail(s);
    }
  }

  /** "a@b.co" passes the check. */
  lemma SimpleEmailAccepted()
    ensures ValidateEmail("a@b.co")
  {
    var e := "a@b.co";
    assert e[1] == '@' && e[3] == '.';
    assert e[..1] == "a" && e[2..3] == "b" && e[4..] == "co";
    assert IsPart("a") && IsPart("b") && IsPart("co");
    assert SplitsAt(e, 1, 3);
    ValidateEmailIff(e);
  }

  /** "a@b" fails: nothing after the '@' can hold an inner '.'. */
  lemma EmailWithoutDotRejected()
    ensures !ValidateEmail("a@b")
  {
    assert FindChar("a@b", '@') == 1;
    assert |DomainAfter("a@b", 1)| == 1;
  }

  /** "a@@b.co" fails: a second '@' follows the first. */
  lemma EmailWithTwoAtsRejected()
    ensures !ValidateEmail("a@@b.co")
  {
    assert FindChar("a@@b.co", '@') == 1;
    assert DomainAfter("a@@b.co", 1)[0] == '@';
  }

  // ---------------------------------------------------------------------
  // Password strength

  datatype Strength = Weak | Medium | Strong

  predicate HasLowerCase(p: string) { exists k :: 0 <= k < |p| && 'a' <= p[k] <= 'z' }
  predicate HasUpperCase(p: string) { exists k :: 0 <= k < |p| && 'A' <= p[k] <= 'Z' }
  predicate HasNumber(p: string) { exists k :: 0 <= k < |p| && '0' <= p[k] <= '9' }

  /** The thirty characters of the class `[!@#$%^&*()_+\-=\[\]{};':"\\|,.<>\/?]`. */
  const SpecialChars := "!@#$%^&*()_+-=[]{};':\"\\|,.<>/?"

  /**
   * Membership in that class, as the four ASCII ranges it fills: all of
   * the ASCII punctuation except '`' and '~'.
   */
  predicate IsSpecialChar(c: char) {
    || ('!' <= c <= '/') || (':' <= c <= '@') || ('[' <= c <= '_') || ('{' <= c <= '}')
  }

  /** The ranges hold exactly the characters the class lists. */
  lemma SpecialCharRanges(c: char)
    ensures IsSpecialChar(c) <==> c in SpecialChars
  {
  }

  predicate HasSpecialChar(p: string) { exists k :: 0 <= k < |p| && IsSpecialChar(p[k]) }
  predicate IsLongEnough(p: string) { |p| >= 8 }

  function Count(b: bool): nat { if b then 1 else 0 }

  /** `criteria.filter(Boolean).length`. */
  function MetCriteria(p: string): (n: nat)
    ensures n <= 5
  {
    Count(HasLowerCase(p)) + Count(HasUpperCase(p)) + Count(HasNumber(p))
    + Count(HasSpecialChar(p)) + Count(IsLongEnough(p))
  }

  /** The strength effect: none for an empty password, else by criteria met. */
  function PasswordStrength(p: string): Option<Strength> {
    if p == [] then None
    else if MetCriteria(p) <= 2 then Some(Weak)
    else if MetCriteria(p) <= 4 then Some(Medium)
    else Some(Strong)
  }

  function Rank(s: Option<Strength>): nat {
    match s
    case None => 0
    case Some(Weak) => 1
    case Some(Medium) => 2
    case Some(Strong) => 3
  }

  /** Strong exactly when all five criteria hold; a password under 8 characters is never strong. */
  lemma StrongIffAllCriteria(p: string)
    ensures PasswordStrength(p) == Some(Strong) <==>
      HasLowerCase(p) && HasUpperCase(p) && HasNumber(p) && HasSpecialChar(p) && IsLongEnough(p)
    ensures |p| < 8 ==> PasswordStrength(p) != Some(Strong)
  {
  }

  /** Weak exactly when at most two criteria hold, for a non-empty password. */
  lemma WeakIffFewCriteria(p: string)
    ensures PasswordStrength(p) == Some(Weak) <==> p != [] && MetCriteria(p) <= 2
    ensures PasswordStrength(p) == None <==> p == []
  {
  }

  /** Appending characters keeps every criterion that already held. */
  lemma CriteriaKept(p: string, more: string)
    ensures HasLowerCase(p) ==> HasLowerCase(p + more)
    ensures HasUpperCase(p) ==> HasUpperCase(p + more)
    ensures HasNumber(p) ==> HasNumber(p + more)
    ensures HasSpecialChar(p) ==> HasSpecialChar(p + more)
    ensures MetCriteria(p) <= MetCriteria(p + more)
  {
    var q := p + more;
    if HasLowerCase(p) {
      var k :| 0 <= k < |p| && 'a' <= p[k] <= 'z';
      assert q[k] == p[k];
    }
    if HasUpperCase(p) {
      var k :| 0 <= k < |p| && 'A' <= p[k] <= 'Z';
      assert q[k] == p[k];
    }
    if HasNumber(p) {
      var k :| 0 <= k < |p| && '0' <= p[k] <= '9';
      assert q[k] == p[k];
    }
    if HasSpecialChar(p) {
      var k :| 0 <= k < |p| && IsSpecialChar(p[k]);
      assert q[k] == p[k];
    }
  }

  /** Typing more characters never lowers the strength. */
  lemma StrengthMonotone(p: string, more: string)
    ensures Rank(PasswordStrength(p)) <= Rank(PasswordStrength(p + more))
  {
    CriteriaKept(p, more);
  }

  lemma WeakExample()
    ensures PasswordStrength("abc") == Some(Weak)
  {
    var s := "abc";
    assert !HasUpperCase(s) && !HasNumber(s) && !IsLongEnough(s);
    assert MetCriteria(s) <= 2;
  }

  lemma StrongExample()
    ensures PasswordStrength("Passw0rd!") == Some(Strong)
  {
    var s := "Passw0rd!";
    assert 'a' <= s[1] <= 'z';
    assert 'A' <= s[0] <= 'Z';
    assert '0' <= s[5] <= '9';
    assert IsSpecialChar(s[8]);
    assert MetCriteria(s) == 5;
  }

  lemma MediumExample()
    ensures PasswordStrength("password1") == Some(Medium)
  {
    var s := "password1";
    assert 'a' <= s[0] <= 'z';
    assert '0' <= s[8] <= '9';
    assert !HasUpperCase(s);
    assert MetCriteria(s) <= 4;
  }
}

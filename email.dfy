/** The e-mail check of `POST /submitData`: the regular expression
    `^[^\s@]+@[^\s@]+\.[^\s@]+$` as a decidable predicate on strings. */
module EmailPattern {

  import opened Wrappers

  /** The characters of ECMAScript's `\s` class: WhiteSpace (TAB, VT, FF,
      ZWNBSP and every Zs space) and LineTerminator (LF, CR, LS, PS). */
  predicate IsJsWhitespace(c: char)
  {
    || c == '\t' || c == '\n' || c == '\U{000B}' || c == '\U{000C}' || c == '\r'
    || c == ' ' || c == '\U{00A0}' || c == '\U{1680}'
    || ('\U{2000}' <= c <= '\U{200A}')
    || c == '\U{2028}' || c == '\U{2029}' || c == '\U{202F}' || c == '\U{205F}'
    || c == '\U{3000}' || c == '\U{FEFF}'
  }

  /** One character of the class `[^\s@]`. */
  predicate IsWordChar(c: char)
  {
    !IsJsWhitespace(c) && c != '@'
  }

  /** No character of `t` is whitespace or `@`. */
  predicate AllWordChars(t: string)
  {
    forall k :: 0 <= k < |t| ==> IsWordChar(t[k])
  }

  /** A string matched by `[^\s@]+`. */
  predicate IsWord(t: string)
  {
    |t| > 0 && AllWordChars(t)
  }

  /** The reference reading of the regular expression: `s` is
      L + "@" + D1 + "." + D2 where L, D1 and D2 are each matched by
      `[^\s@]+` (the anchors `^` and `$` make the three runs cover `s`). */
  ghost predicate MatchesPattern(s: string)
  {
    exists i, j :: 0 <= i < j < |s| && s[i] == '@' && s[j] == '.'
      && IsWord(s[..i]) && IsWord(s[i + 1..j]) && IsWord(s[j + 1..])
  }

  /** The index of the first `@` in `s`, if there is one. */
  function FirstAt(s: string): (r: Option<nat>)
    ensures r.Some? ==> r.value < |s| && s[r.value] == '@'
                        && forall k :: 0 <= k < r.value ==> s[k] != '@'
    ensures r.None? ==> forall k :: 0 <= k < |s| ==> s[k] != '@'
  {
    if |s| == 0 then None
    else if s[0] == '@' then Some(0)
    else match FirstAt(s[1..])
      case None => None
      case Some(i) => Some(i + 1)
  }

  /** A domain part: no whitespace, no `@`, and a `.` that is neither its
      first nor its last character. */
  predicate IsDomain(d: string)
  {
    AllWordChars(d) && exists k :: 0 < k < |d| - 1 && d[k] == '.'
  }

  /** `emailRegex.test(s)`, decided by splitting at the first `@`. */
  predicate IsValidEmail(s: string)
  {
    match FirstAt(s)
    case None => false
    case Some(i) => IsWord(s[..i]) && IsDomain(s[i + 1..])
  }

  /** Every string the decision procedure accepts is matched by the
      regular expression. */
  lemma ValidEmailMatches(s: string)
    requires IsValidEmail(s)
    ensures MatchesPattern(s)
  {
    var i := FirstAt(s).value;
    var d := s[i + 1..];
    var k :| 0 < k < |d| - 1 && d[k] == '.';
    var j := i + 1 + k;
    assert s[i + 1..j] == d[..k];
    assert s[j + 1..] == d[k + 1..];
    assert IsWord(s[i + 1..j]) && IsWord(s[j + 1..]);
  }

  /** A split of `s` as the regular expression reads it is a split at the
      first `@`, with a well-formed domain after it. */
  lemma SplitIsValidEmail(s: string, i: nat, j: nat)
    requires i < j < |s| && s[i] == '@' && s[j] == '.'
    requires IsWord(s[..i]) && IsWord(s[i + 1..j]) && IsWord(s[j + 1..])
    ensures IsValidEmail(s)
  {
    forall k | 0 <= k < i ensures s[k] != '@' {
      assert s[..i][k] == s[k];
    }
    assert FirstAt(s) == Some(i);
    var d := s[i + 1..];
    forall k | 0 <= k < |d| ensures IsWordChar(d[k]) {
      if k < j - i - 1 {
        assert d[k] == s[i + 1..j][k];
      } else if k > j - i - 1 {
        assert d[k] == s[j + 1..][k - (j - i)];
      }
    }
    assert d[j - i - 1] == '.';
  }

  /** Every string the regular expression matches is accepted by the
      decision procedure. */
  lemma MatchesIsValidEmail(s: string)
    requires MatchesPattern(s)
    ensures IsValidEmail(s)
  {
    var i, j :| 0 <= i < j < |s| && s[i] == '@' && s[j] == '.'
      && IsWord(s[..i]) && IsWord(s[i + 1..j]) && IsWord(s[j + 1..]);
    SplitIsValidEmail(s, i, j);
  }

  /** The decision procedure accepts exactly the strings the regular
      expression matches. */
  lemma ValidEmailIffPattern(s: string)
    ensures IsValidEmail(s) <==> MatchesPattern(s)
  {
    if IsValidEmail(s) { ValidEmailMatches(s); }
    if MatchesPattern(s) { MatchesIsValidEmail(s); }
  }

  /** The pattern admits exactly one `@`: the one it splits at. */
  lemma ValidEmailHasOneAt(s: string, p: nat)
    requires IsValidEmail(s)
    requires p < |s| && s[p] == '@'
    ensures FirstAt(s) == Some(p)
  {
  }

  /** A well-formed address. */
  lemma AcceptedEmails()
    ensures IsValidEmail("a@b.com")
  {
    assert FirstAt("a@b.com") == Some(1);
    assert "a@b.com"[2..] == "b.com";
    assert "b.com"[1] == '.';
  }

  /** The domain's runs may themselves hold dots: the pattern splits at
      some `.` of the domain, not at the first. */
  lemma DoubleDotEmail()
    ensures IsValidEmail("a@b..c")
  {
    assert FirstAt("a@b..c") == Some(1);
    assert "a@b..c"[2..] == "b..c";
    assert "b..c"[1] == '.';
  }

  /** Addresses whose shape is wrong: no `@`, an empty local part, a domain
      that starts or ends with its only `.`. */
  lemma MisshapenEmails()
    ensures !IsValidEmail("bad")
    ensures !IsValidEmail("@b.com")
    ensures !IsValidEmail("a@.com")
    ensures !IsValidEmail("a@b.")
  {
    assert FirstAt("bad") == None;
    assert FirstAt("@b.com") == Some(0);
    assert FirstAt("a@.com") == Some(1);
    assert "a@.com"[2..] == ".com";
    assert FirstAt("a@b.") == Some(1);
    assert "a@b."[2..] == "b.";
  }

  /** Addresses with a character the pattern excludes: a second `@`, a
      space. */
  lemma ForbiddenCharEmails()
    ensures !IsValidEmail("a@b@c.com")
    ensures !IsValidEmail("a b@c.com")
  {
    assert FirstAt("a@b@c.com") == Some(1);
    assert "a@b@c.com"[2..] == "b@c.com";
    assert "b@c.com"[1] == '@';
    assert FirstAt("a b@c.com") == Some(3);
    assert "a b@c.com"[..3] == "a b";
    assert "a b"[1] == ' ';
  }
}

/**
 * The per-field validator of the contact form: a field name and the raw
 * value typed into it map to an error message, or to `None` when the value
 * is acceptable.
 */
module FieldValidation {
  import opened Wrappers
  import opened Text

  const NameRequired := "Name is required"
  const NameTooShort := "Name must be at least 2 characters"
  const NameTooLong := "Name must be less than 50 characters"
  const EmailRequired := "Email is required"
  const EmailInvalid := "Please enter a valid email address"
  const MessageRequired := "Message is required"
  const MessageTooShort := "Message must be at least 10 characters"
  const MessageTooLong := "Message must be less than 1000 characters"

  /** A character the class `[^\s@]` of the email pattern accepts. */
  predicate IsPlain(c: char)
  {
    !IsJsWhitespace(c) && c != '@'
  }

  predicate AllPlain(s: string)
  {
    forall i :: 0 <= i < |s| ==> IsPlain(s[i])
  }

  /**
   * The language of `/^[^\s@]+@[^\s@]+\.[^\s@]+$/`: a non-empty run of plain
   * characters, '@', a non-empty run, '.', and a non-empty run, covering the
   * whole string.
   */
  ghost predicate MatchesEmailRegex(s: string)
  {
    exists i, j :: 0 < i && i + 1 < j && j + 1 < |s| && s[i] == '@' && s[j] == '.'
      && AllPlain(s[..i]) && AllPlain(s[i + 1..j]) && AllPlain(s[j + 1..])
  }

  /** The position of the first '@' in `s`, or `|s|` when there is none. */
  function FirstAt(s: string): (k: nat)
    ensures k <= |s|
    ensures k < |s| ==> s[k] == '@'
    ensures forall m :: 0 <= m < k ==> s[m] != '@'
  {
    if s == [] then 0
    else if s[0] == '@' then 0
    else 1 + FirstAt(s[1..])
  }

  /**
   * The email pattern as a check: the local part runs up to the first '@',
   * and the domain after it is plain and has a '.' with at least one
   * character on either side.
   */
  predicate EmailPattern(s: string)
  {
    var i := FirstAt(s);
    var d := s[if i < |s| then i + 1 else |s|..];
    0 < i < |s| && AllPlain(s[..i]) && AllPlain(d)
    && |d| >= 3 && '.' in d[1..|d| - 1]
  }

  lemma AllPlainSlice(s: string, a: nat, b: nat)
    requires AllPlain(s) && a <= b <= |s|
    ensures AllPlain(s[a..b])
  {
    assert forall k :: 0 <= k < b - a ==> s[a..b][k] == s[a + k];
  }

  lemma AllPlainJoin(u: string, c: char, w: string)
    requires AllPlain(u) && IsPlain(c) && AllPlain(w)
    ensures AllPlain(u + [c] + w)
  {
    var s := u + [c] + w;
    forall k | 0 <= k < |s| ensures IsPlain(s[k]) {
      if k < |u| { assert s[k] == u[k]; }
      else if k > |u| { assert s[k] == w[k - |u| - 1]; }
    }
  }

  /** The check accepts exactly the language of the regular expression. */
  lemma EmailPatternIsRegex(s: string)
    ensures EmailPattern(s) <==> MatchesEmailRegex(s)
  {
    if EmailPattern(s) {
      PatternToRegex(s);
    }
    if MatchesEmailRegex(s) {
      var i, j :| 0 < i && i + 1 < j && j + 1 < |s| && s[i] == '@' && s[j] == '.'
        && AllPlain(s[..i]) && AllPlain(s[i + 1..j]) && AllPlain(s[j + 1..]);
      RegexToPattern(s, i, j);
    }
  }

  lemma PatternToRegex(s: string)
    requires EmailPattern(s)
    ensures MatchesEmailRegex(s)
  {
    var i := FirstAt(s);
    var d := s[i + 1..];
    var m :| 0 <= m < |d| - 2 && d[1..|d| - 1][m] == '.';
    var j := i + 2 + m;
    assert s[j] == d[m + 1];
    assert s[i + 1..j] == d[..m + 1];
    assert s[j + 1..] == d[m + 2..];
    AllPlainSlice(d, 0, m + 1);
    AllPlainSlice(d, m + 2, |d|);
    assert d[m + 2..|d|] == d[m + 2..];
  }

  lemma RegexToPattern(s: string, i: nat, j: nat)
    requires 0 < i && i + 1 < j && j + 1 < |s| && s[i] == '@' && s[j] == '.'
    requires AllPlain(s[..i]) && AllPlain(s[i + 1..j]) && AllPlain(s[j + 1..])
    ensures EmailPattern(s)
  {
    assert forall m :: 0 <= m < i ==> s[..i][m] == s[m];
    assert FirstAt(s) == i;
    var d := s[i + 1..];
    assert d == s[i + 1..j] + [s[j]] + s[j + 1..];
    AllPlainJoin(s[i + 1..j], s[j], s[j + 1..]);
    assert d[1..|d| - 1][j - i - 2] == '.';
  }

  /** A value the pattern accepts contains no whitespace at all, not even at its ends. */
  lemma EmailPatternHasNoWhitespace(s: string)
    requires EmailPattern(s)
    ensures forall k :: 0 <= k < |s| ==> !IsJsWhitespace(s[k])
  {
    var i := FirstAt(s);
    var d := s[i + 1..];
    forall k | 0 <= k < |s| ensures !IsJsWhitespace(s[k]) {
      if k < i {
        assert s[k] == s[..i][k];
      } else if k > i {
        assert s[k] == d[k - i - 1];
      }
    }
  }

  /** `validateField`: the error message for `value` typed into the field called `field`. */
  function ValidateField(field: string, value: string): (r: Option<string>)
    ensures r.Some? ==> r.value != ""
  {
    if field == "name" then
      if JsTrim(value) == "" then Some(NameRequired)
      else if Utf16Length(JsTrim(value)) < 2 then Some(NameTooShort)
      else if Utf16Length(JsTrim(value)) > 50 then Some(NameTooLong)
      else None
    else if field == "email" then
      if JsTrim(value) == "" then Some(EmailRequired)
      else if !EmailPattern(value) then Some(EmailInvalid)
      else None
    else if field == "message" then
      if JsTrim(value) == "" then Some(MessageRequired)
      else if Utf16Length(JsTrim(value)) < 10 then Some(MessageTooShort)
      else if Utf16Length(JsTrim(value)) > 1000 then Some(MessageTooLong)
      else None
    else None
  }

  /**
   * A name is accepted exactly when it has 2 to 50 UTF-16 code units once
   * trimmed; a blank name is reported as required before any length rule.
   */
  lemma NameRule(v: string)
    ensures ValidateField("name", v) == None <==> 2 <= Utf16Length(JsTrim(v)) <= 50
    ensures ValidateField("name", v) == Some(NameRequired) <==> AllIn(v, IsJsWhitespace)
    ensures !AllIn(v, IsJsWhitespace) && Utf16Length(JsTrim(v)) < 2 ==> ValidateField("name", v) == Some(NameTooShort)
    ensures Utf16Length(JsTrim(v)) > 50 ==> ValidateField("name", v) == Some(NameTooLong)
  {
  }

  /**
   * A message is accepted exactly when it has 10 to 1000 UTF-16 code units
   * once trimmed; a blank message is reported as required first.
   */
  lemma MessageRule(v: string)
    ensures ValidateField("message", v) == None <==> 10 <= Utf16Length(JsTrim(v)) <= 1000
    ensures ValidateField("message", v) == Some(MessageRequired) <==> AllIn(v, IsJsWhitespace)
    ensures !AllIn(v, IsJsWhitespace) && Utf16Length(JsTrim(v)) < 10 ==> ValidateField("message", v) == Some(MessageTooShort)
    ensures Utf16Length(JsTrim(v)) > 1000 ==> ValidateField("message", v) == Some(MessageTooLong)
  {
  }

  /**
   * An email is reported as required exactly when it is blank, and accepted
   * exactly when the untrimmed value matches the regular expression.
   */
  lemma EmailRule(v: string)
    ensures ValidateField("email", v) == Some(EmailRequired) <==> AllIn(v, IsJsWhitespace)
    ensures ValidateField("email", v) == None <==> MatchesEmailRegex(v)
    ensures ValidateField("email", v) == None ==> forall k :: 0 <= k < |v| ==> !IsJsWhitespace(v[k])
  {
    EmailPatternIsRegex(v);
    if EmailPattern(v) {
      EmailPatternHasNoWhitespace(v);
      assert !IsJsWhitespace(v[FirstAt(v)]);
    }
  }

  /** A well-formed address is accepted as typed. */
  lemma EmailPlainAccepted()
    ensures ValidateField("email", "a@b.co") == None
  {
    var good := "a@b.co";
    RegexToPattern(good, 1, 3);
    assert !IsJsWhitespace(good[0]);
    assert !AllIn(good, IsJsWhitespace);
  }

  /** A leading space makes the same address fail the pattern. */
  lemma EmailLeadingSpaceRejected()
    ensures ValidateField("email", " a@b.co") == Some(EmailInvalid)
  {
    var lead := " a@b.co";
    assert FirstAt(lead) == 2 by {
      assert FirstAt(lead[2..]) == 0;
      assert FirstAt(lead[1..]) == 1;
    }
    assert !IsPlain(lead[..2][0]);
    assert !EmailPattern(lead);
    assert !IsJsWhitespace(lead[1]);
    assert !AllIn(lead, IsJsWhitespace);
  }

  /** A trailing space makes the same address fail the pattern. */
  lemma EmailTrailingSpaceRejected()
    ensures ValidateField("email", "a@b.co ") == Some(EmailInvalid)
  {
    var trail := "a@b.co ";
    assert FirstAt(trail) == 1;
    assert trail[2..][4] == ' ';
    assert !AllPlain(trail[2..]);
    assert !EmailPattern(trail);
    assert !IsJsWhitespace(trail[0]);
    assert !AllIn(trail, IsJsWhitespace);
  }

  /** Any other field name has no rule. */
  lemma UnknownField(field: string, v: string)
    requires field != "name" && field != "email" && field != "message"
    ensures ValidateField(field, v) == None
  {
  }
}

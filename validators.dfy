/**
 * Registration input checks: the email shape, the password strength rule, and
 * the per-field error map that registration reports.
 */
module Validators {
  import opened Wrappers
  import opened Text

  /** One run of the email pattern's class `[^\s@]+`: non-empty, no white space, no '@'. */
  predicate EmailPart(s: string)
  {
    |s| > 0 && forall i :: 0 <= i < |s| ==> !IsWhitespace(s[i]) && s[i] != '@'
  }

  /**
   * What `^[^\s@]+@[^\s@]+\.[^\s@]+$` accepts: the string splits as
   * local '@' domain '.' tail, each of the three parts a run of `[^\s@]+`.
   */
  ghost predicate MatchesEmailPattern(s: string)
  {
    exists i, j :: 0 < i && i + 1 < j < |s| - 1 && s[i] == '@' && s[j] == '.'
      && EmailPart(s[..i]) && EmailPart(s[i + 1..j]) && EmailPart(s[j + 1..])
  }

  /** Position of the first occurrence of `c`. */
  function IndexOf(s: string, c: char): (r: Option<nat>)
    ensures r.None? ==> forall k :: 0 <= k < |s| ==> s[k] != c
    ensures r.Some? ==> r.value < |s| && s[r.value] == c
    ensures r.Some? ==> forall k :: 0 <= k < r.value ==> s[k] != c
  {
    if s == [] then None
    else if s[0] == c then Some(0)
    else match IndexOf(s[1..], c)
      case None => None
      case Some(k) => Some(k + 1)
  }

  /** After the '@': no white space or '@', and a '.' that is neither first nor last. */
  predicate DomainOk(d: string)
  {
    EmailPart(d) && exists k :: 0 < k < |d| - 1 && d[k] == '.'
  }

  /**
   * The email check: a well-formed local part before the first '@', and a
   * well-formed domain after it. It accepts exactly what the pattern matches.
   */
  predicate ValidateEmail(s: string): (ok: bool)
    ensures ok <==> MatchesEmailPattern(s)
  {
    EmailPatternAtFirstAt(s);
    match IndexOf(s, '@')
    case None => false
    case Some(i) => EmailPart(s[..i]) && DomainOk(s[i + 1..])
  }

  /**
   * The pattern's '@' is the first '@' of the string, and the pattern holds
   * exactly when the runs before and after that '@' are well formed.
   */
  lemma EmailPatternAtFirstAt(s: string)
    ensures MatchesEmailPattern(s) ==> IndexOf(s, '@').Some?
    ensures IndexOf(s, '@').Some? ==>
      var i := IndexOf(s, '@').value;
      MatchesEmailPattern(s) <==> EmailPart(s[..i]) && DomainOk(s[i + 1..])
  {
    if MatchesEmailPattern(s) {
      EmailCheckComplete(s);
    }
    var at := IndexOf(s, '@');
    if at.Some? && EmailPart(s[..at.value]) && DomainOk(s[at.value + 1..]) {
      EmailCheckSound(s, at.value);
    }
  }

  /** Clean runs around the first '@', with a '.' inside the domain, match the pattern. */
  lemma EmailCheckSound(s: string, i: nat)
    requires IndexOf(s, '@') == Some(i)
    requires EmailPart(s[..i]) && DomainOk(s[i + 1..])
    ensures MatchesEmailPattern(s)
  {
    var d := s[i + 1..];
    var k :| 0 < k < |d| - 1 && d[k] == '.';
    var j := i + 1 + k;
    assert s[i + 1..j] == d[..k];
    assert s[j + 1..] == d[k + 1..];
    assert EmailPart(s[..i]);
    assert s[j] == '.';
  }

  /** An '@' with a clean run before it is the first '@'. */
  lemma FirstAt(s: string, i: nat)
    requires i < |s| && s[i] == '@' && EmailPart(s[..i])
    ensures IndexOf(s, '@') == Some(i)
  {
    assert forall k :: 0 <= k < i ==> s[k] == s[..i][k];
  }

  /** Two clean runs around the '.' at j make a well-formed domain after the '@' at i. */
  lemma DomainFromParts(s: string, i: nat, j: nat)
    requires i + 1 < j < |s| - 1 && s[j] == '.'
    requires EmailPart(s[i + 1..j]) && EmailPart(s[j + 1..])
    ensures DomainOk(s[i + 1..])
  {
    var d := s[i + 1..];
    forall m | 0 <= m < |d| ensures !IsWhitespace(d[m]) && d[m] != '@' {
      if i + 1 + m < j {
        assert d[m] == s[i + 1..j][m];
      } else if i + 1 + m > j {
        assert d[m] == s[j + 1..][m - (j - i)];
      }
    }
    assert d[j - i - 1] == '.';
  }

  /** In every string the pattern matches, the runs around the first '@' are well formed. */
  lemma EmailCheckComplete(s: string)
    requires MatchesEmailPattern(s)
    ensures IndexOf(s, '@').Some?
    ensures var i := IndexOf(s, '@').value; EmailPart(s[..i]) && DomainOk(s[i + 1..])
  {
    var i, j :| 0 < i && i + 1 < j < |s| - 1 && s[i] == '@' && s[j] == '.'
      && EmailPart(s[..i]) && EmailPart(s[i + 1..j]) && EmailPart(s[j + 1..]);
    FirstAt(s, i);
    DomainFromParts(s, i, j);
  }

  /**
   * What `^(?=.*[a-z])(?=.*[A-Z])(?=.*\d)[a-zA-Z\d]{8,}$` accepts: at least 8
   * characters, all ASCII letters or digits, with a lower-case letter, an
   * upper-case letter and a digit among them.
   */
  ghost predicate MatchesPasswordPattern(s: string)
  {
    && |s| >= 8
    && (forall i :: 0 <= i < |s| ==> IsLowerAscii(s[i]) || IsUpperAscii(s[i]) || IsDigit(s[i]))
    && (exists i :: 0 <= i < |s| && IsLowerAscii(s[i]))
    && (exists i :: 0 <= i < |s| && IsUpperAscii(s[i]))
    && (exists i :: 0 <= i < |s| && IsDigit(s[i]))
  }

  /** What one pass over a password finds. */
  datatype CharClasses = CharClasses(alphanumeric: bool, lower: bool, upper: bool, digit: bool)

  /** Scans the password once, recording which character classes occur. */
  function Classify(s: string): (c: CharClasses)
    ensures c.alphanumeric <==>
      forall i :: 0 <= i < |s| ==> IsLowerAscii(s[i]) || IsUpperAscii(s[i]) || IsDigit(s[i])
    ensures c.lower <==> exists i :: 0 <= i < |s| && IsLowerAscii(s[i])
    ensures c.upper <==> exists i :: 0 <= i < |s| && IsUpperAscii(s[i])
    ensures c.digit <==> exists i :: 0 <= i < |s| && IsDigit(s[i])
  {
    if s == [] then CharClasses(true, false, false, false)
    else
      var rest := Classify(s[1..]);
      var x := s[0];
      assert forall i :: 0 < i < |s| ==> s[i] == s[1..][i - 1];
      CharClasses(
        rest.alphanumeric && (IsLowerAscii(x) || IsUpperAscii(x) || IsDigit(x)),
        rest.lower || IsLowerAscii(x),
        rest.upper || IsUpperAscii(x),
        rest.digit || IsDigit(x))
  }

  /** The password strength rule. */
  predicate ValidatePassword(s: string): (ok: bool)
    ensures ok <==> MatchesPasswordPattern(s)
  {
    var c := Classify(s);
    |s| >= 8 && c.alphanumeric && c.lower && c.upper && c.digit
  }

  /** The input to registration; a field the request leaves out is None. */
  datatype Registration = Registration(
    email: Option<string>,
    password: Option<string>,
    firstName: Option<string>,
    lastName: Option<string>)

  const EmailError: string := "Valid email is required"
  const PasswordError: string :=
    "Password must be at least 8 characters with 1 uppercase, 1 lowercase, and 1 number"
  const FirstNameError: string := "First name is required"
  const LastNameError: string := "Last name is required"

  /**
   * Checks all four fields independently and collects one message per failing
   * field; the registration is valid exactly when no message was collected.
   */
  method ValidateRegistration(data: Registration) returns (isValid: bool, errors: map<string, string>)
    ensures "email" in errors <==> data.email.None? || !MatchesEmailPattern(data.email.value)
    ensures "password" in errors <==>
      data.password.None? || !MatchesPasswordPattern(data.password.value)
    ensures "firstName" in errors <==> data.firstName.None? || IsBlank(data.firstName.value)
    ensures "lastName" in errors <==> data.lastName.None? || IsBlank(data.lastName.value)
    ensures errors.Keys <= {"email", "password", "firstName", "lastName"}
    ensures "email" in errors ==> errors["email"] == EmailError
    ensures "password" in errors ==> errors["password"] == PasswordError
    ensures "firstName" in errors ==> errors["firstName"] == FirstNameError
    ensures "lastName" in errors ==> errors["lastName"] == LastNameError
    ensures isValid <==> errors == map[]
  {
    errors := map[];
    if data.email.None? || data.email.value == "" || !ValidateEmail(data.email.value) {
      errors := errors["email" := EmailError];
    }
    if data.password.None? || data.password.value == "" || !ValidatePassword(data.password.value) {
      errors := errors["password" := PasswordError];
    }
    if data.firstName.None? || Trim(data.firstName.value) == "" {
      errors := errors["firstName" := FirstNameError];
    }
    if data.lastName.None? || Trim(data.lastName.value) == "" {
      errors := errors["lastName" := LastNameError];
    }
    if data.firstName.Some? {
      TrimEmptyIffBlank(data.firstName.value);
    }
    if data.lastName.Some? {
      TrimEmptyIffBlank(data.lastName.value);
    }
    isValid := |errors| == 0;
  }
}

/**
 * The field rules the three form hooks share: the email pattern, the two
 * password policies, the name rule and the confirmation rule. A rule returns
 * `None` when the value is acceptable and `Some(message)` otherwise.
 */
module FieldRules {
  import opened Wrappers
  import opened Text

  const EmailRequired := "Email is required"
  const EmailInvalid := "Please enter a valid email address"
  const PasswordRequired := "Password is required"
  const PasswordTooShort := "Password must be at least 6 characters"
  const StrongTooShort := "Password must be at least 8 characters"
  const NeedsLower := "Password must contain at least one lowercase letter"
  const NeedsUpper := "Password must contain at least one uppercase letter"
  const NeedsDigit := "Password must contain at least one number"
  const NeedsSpecial := "Password must contain at least one special character"
  const ConfirmRequired := "Please confirm your password"
  const ConfirmMismatch := "Passwords do not match"

  // ---------------------------------------------------------------------------
  // Email: /^[^\s@]+@[^\s@]+\.[^\s@]+$/

  /** A character the class `[^\s@]` matches. */
  predicate IsPlain(c: char) {
    !IsSpace(c) && c != '@'
  }

  ghost predicate AllPlain(s: string) {
    forall k :: 0 <= k < |s| ==> IsPlain(s[k])
  }

  /**
   * The email pattern read off the regular expression: a non-empty run of
   * plain characters, `@`, a non-empty run, a literal `.`, a non-empty run,
   * and nothing else.
   */
  ghost predicate MatchesEmailPattern(v: string) {
    exists i, j ::
      && 0 < i && i + 1 < j && j + 1 < |v|
      && v[i] == '@' && v[j] == '.'
      && AllPlain(v[..i]) && AllPlain(v[i + 1..j]) && AllPlain(v[j + 1..])
  }

  /** The first index at or after `k` holding `c`. */
  function FirstIndex(v: string, c: char, k: nat): (r: Option<nat>)
    requires k <= |v|
    ensures r.Some? ==> k <= r.value < |v| && v[r.value] == c
    ensures r.Some? ==> forall m :: k <= m < r.value ==> v[m] != c
    ensures r.None? ==> forall m :: k <= m < |v| ==> v[m] != c
    decreases |v| - k
  {
    if k == |v| then None
    else if v[k] == c then Some(k)
    else FirstIndex(v, c, k + 1)
  }

  /**
   * The shape the pattern accepts, as a check: no whitespace, exactly one
   * `@`, a non-empty part before it, and a `.` after it that is neither the
   * first nor the last character of the domain.
   */
  predicate IsEmailShape(v: string) {
    && (forall k :: 0 <= k < |v| ==> !IsSpace(v[k]))
    && match FirstIndex(v, '@', 0)
       case None => false
       case Some(i) =>
         && 0 < i
         && (forall k :: i < k < |v| ==> v[k] != '@')
         && (exists j :: i + 1 < j < |v| - 1 && v[j] == '.')
  }

  /** The check accepts exactly the strings the regular expression matches. */
  lemma {:induction false} EmailShapeIffPattern(v: string)
    ensures IsEmailShape(v) <==> MatchesEmailPattern(v)
  {
    assert !IsSpace('@') && !IsSpace('.');
    if IsEmailShape(v) {
      var i := FirstIndex(v, '@', 0).value;
      var j :| i + 1 < j < |v| - 1 && v[j] == '.';
      assert forall k :: 0 <= k < |v| && k != i ==> IsPlain(v[k]);
      assert AllPlain(v[..i]) && AllPlain(v[i + 1..j]) && AllPlain(v[j + 1..]);
    }
    if MatchesEmailPattern(v) {
      var i, j :| && 0 < i && i + 1 < j && j + 1 < |v|
        && v[i] == '@' && v[j] == '.'
        && AllPlain(v[..i]) && AllPlain(v[i + 1..j]) && AllPlain(v[j + 1..]);
      forall k | 0 <= k < |v| ensures IsPlain(v[k]) || k == i || k == j {
        if k < i {
          assert v[..i][k] == v[k];
        } else if i < k < j {
          assert v[i + 1..j][k - (i + 1)] == v[k];
        } else if j < k {
          assert v[j + 1..][k - (j + 1)] == v[k];
        }
      }
      var first := FirstIndex(v, '@', 0);
      assert first == Some(i);
    }
  }

  /** The `email` rule. */
  function EmailError(v: string): (r: Option<string>)
    ensures r.Some? ==> r.value == (if v == "" then EmailRequired else EmailInvalid)
  {
    if v == "" then Some(EmailRequired)
    else if !IsEmailShape(v) then Some(EmailInvalid)
    else None
  }

  /** The rule accepts exactly the strings the regular expression matches, and rejects the empty one as missing. */
  lemma EmailErrorMeaning(v: string)
    ensures EmailError(v).None? <==> MatchesEmailPattern(v)
    ensures EmailError(v) == Some(EmailRequired) <==> v == ""
  {
    EmailShapeIffPattern(v);
  }

  // ---------------------------------------------------------------------------
  // Passwords

  /** The six-character `password` rule of the login and signup forms. */
  function PasswordError(v: string): (r: Option<string>)
    ensures r.None? <==> |v| >= 6
    ensures r.Some? ==> r.value == (if v == "" then PasswordRequired else PasswordTooShort)
  {
    if v == "" then Some(PasswordRequired)
    else if |v| < 6 then Some(PasswordTooShort)
    else None
  }

  predicate HasLower(v: string) {
    exists k :: 0 <= k < |v| && 'a' <= v[k] <= 'z'
  }

  predicate HasUpper(v: string) {
    exists k :: 0 <= k < |v| && 'A' <= v[k] <= 'Z'
  }

  predicate HasDigit(v: string) {
    exists k :: 0 <= k < |v| && '0' <= v[k] <= '9'
  }

  predicate IsSpecial(c: char) {
    c in {'@', '$', '!', '%', '*', '?', '&'}
  }

  predicate HasSpecial(v: string) {
    exists k :: 0 <= k < |v| && IsSpecial(v[k])
  }

  /** The message of the first check that fails, in list order. */
  function FirstFailure(checks: seq<(bool, string)>): (r: Option<string>)
    ensures r.None? <==> forall k :: 0 <= k < |checks| ==> checks[k].0
    ensures r.Some? ==> exists k :: 0 <= k < |checks| && !checks[k].0 && r.value == checks[k].1
  {
    if checks == [] then None
    else if !checks[0].0 then Some(checks[0].1)
    else
      var r := FirstFailure(checks[1..]);
      assert forall k :: 1 <= k < |checks| ==> checks[k] == checks[1..][k - 1];
      r
  }

  /** The register form's policy, as the ordered list of checks and messages. */
  function StrongPasswordChecks(v: string): seq<(bool, string)> {
    [ (v != "", PasswordRequired),
      (|v| >= 8, StrongTooShort),
      (HasLower(v), NeedsLower),
      (HasUpper(v), NeedsUpper),
      (HasDigit(v), NeedsDigit),
      (HasSpecial(v), NeedsSpecial) ]
  }

  /** The register form's `password` rule. */
  function StrongPasswordError(v: string): (r: Option<string>)
    ensures r == Some(PasswordRequired) <==> v == ""
    ensures r.None? ==> |v| >= 8
    ensures r.Some? ==> r.value in {PasswordRequired, StrongTooShort, NeedsLower, NeedsUpper, NeedsDigit, NeedsSpecial}
  {
    if v == "" then Some(PasswordRequired)
    else if |v| < 8 then Some(StrongTooShort)
    else if !HasLower(v) then Some(NeedsLower)
    else if !HasUpper(v) then Some(NeedsUpper)
    else if !HasDigit(v) then Some(NeedsDigit)
    else if !HasSpecial(v) then Some(NeedsSpecial)
    else None
  }

  /** The rule reports the first failing check of the policy, in the source's order. */
  lemma {:induction false} StrongPasswordFirstFailure(v: string)
    ensures StrongPasswordError(v) == FirstFailure(StrongPasswordChecks(v))
  {
    var c := StrongPasswordChecks(v);
    assert c[1..][1..] == c[2..] && c[2..][1..] == c[3..] && c[3..][1..] == c[4..];
    assert c[4..][1..] == c[5..] && c[5..][1..] == [];
    assert FirstFailure(c[5..]) == (if !c[5].0 then Some(c[5].1) else None);
    assert FirstFailure(c[4..]) == (if !c[4].0 then Some(c[4].1) else FirstFailure(c[5..]));
    assert FirstFailure(c[3..]) == (if !c[3].0 then Some(c[3].1) else FirstFailure(c[4..]));
    assert FirstFailure(c[2..]) == (if !c[2].0 then Some(c[2].1) else FirstFailure(c[3..]));
    assert FirstFailure(c[1..]) == (if !c[1].0 then Some(c[1].1) else FirstFailure(c[2..]));
  }

  /** The register form accepts a password exactly when every check of the policy passes. */
  lemma StrongPasswordMeaning(v: string)
    ensures StrongPasswordError(v).None? <==> |v| >= 8 && HasLower(v) && HasUpper(v) && HasDigit(v) && HasSpecial(v)
  {
    StrongPasswordFirstFailure(v);
  }

  /** A password the register form accepts is also accepted by the six-character rule. */
  lemma StrongPasswordIsLongEnough(v: string)
    requires StrongPasswordError(v).None?
    ensures PasswordError(v).None?
  {
    StrongPasswordMeaning(v);
  }

  // ---------------------------------------------------------------------------
  // Names and confirmation

  /** The `firstName` / `lastName` rule; `fieldName` is "First name" or "Last name". */
  function NameError(fieldName: string, v: string): (r: Option<string>)
    ensures r.None? <==> |v| >= 2
    ensures r.Some? ==> r.value == fieldName + (if v == "" then " is required" else " must be at least 2 characters")
  {
    if v == "" then Some(fieldName + " is required")
    else if |v| < 2 then Some(fieldName + " must be at least 2 characters")
    else None
  }

  /** The `confirmPassword` rule against the current password. */
  function ConfirmPasswordError(value: string, password: string): (r: Option<string>)
    ensures r.None? <==> value != "" && value == password
    ensures r.Some? ==> r.value == (if value == "" then ConfirmRequired else ConfirmMismatch)
  {
    if value == "" then Some(ConfirmRequired)
    else if value != password then Some(ConfirmMismatch)
    else None
  }
}

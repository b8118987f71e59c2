/**
 * The context-backed form hooks `useLoginForm` and `useRegisterForm`: each
 * keeps a form record and an `isSubmitting` flag, validates with its own
 * rules, clears the session error when the user types, and on a valid
 * submit calls `login` or `register` on the session provider and then
 * navigates to the dashboard.
 */
module AuthFormHooks {
  import opened Wrappers
  import opened AuthTypes
  import opened FieldRules
  import opened Forms
  import opened AuthContext
  import opened TokenStore

  /** The keys of the login form's initial values, in declaration order. */
  const LoginFields := [Email, Password]

  /** The keys of the register form's initial values, in declaration order. */
  const RegisterFields := [Email, Password, ConfirmPassword, FirstName, LastName]

  const AfterAuth := "/dashboard"

  /** What a form hook does outside its record, in order. */
  datatype FormEvent =
    | SubmittingSet(on: bool)
    | CalledLogin(credentials: LoginRequest)
    | CalledRegister(userData: RegisterRequest)
    | Navigated(path: string)

  /** The navigation a submit performs: to the dashboard when the call succeeds, nowhere when it throws. */
  function Landing(outcome: ApiOutcome): seq<FormEvent> {
    if Accepted(outcome).Some? then [Navigated(AfterAuth)] else []
  }

  /** `if (state.error)`: a missing message and an empty one are both falsy in JavaScript. */
  predicate ErrorShown(error: Option<string>) {
    error.Some? && error.value != ""
  }

  /** The login form's `validateField`. */
  function LoginRule(name: Field, value: string): (r: Option<string>)
    ensures name == Email ==> (r.None? <==> value != "" && IsEmailShape(value))
    ensures name == Password ==> (r.None? <==> |value| >= 6)
    ensures name != Email && name != Password ==> r.None?
  {
    match name
    case Email => EmailError(value)
    case Password => PasswordError(value)
    case _ => None
  }

  /** The login form's rule applied to the field's current text. */
  function LoginCheck(values: map<Field, string>): Field -> Option<string> {
    f => LoginRule(f, ValueOf(values, f))
  }

  /** The register form's `validateField`; `confirmPassword` is checked against the current password. */
  function RegisterRule(password: string, name: Field, value: string): (r: Option<string>)
    ensures name == Email ==> (r.None? <==> value != "" && IsEmailShape(value))
    ensures name == Password ==>
      (r.None? <==> |value| >= 8 && HasLower(value) && HasUpper(value) && HasDigit(value) && HasSpecial(value))
    ensures name == ConfirmPassword ==> (r.None? <==> value != "" && value == password)
    ensures name == FirstName || name == LastName ==> (r.None? <==> |value| >= 2)
  {
    match name
    case Email => EmailError(value)
    case Password => StrongPasswordMeaning(value); StrongPasswordError(value)
    case ConfirmPassword => ConfirmPasswordError(value, password)
    case FirstName => NameError("First name", value)
    case LastName => NameError("Last name", value)
  }

  function RegisterCheck(values: map<Field, string>): Field -> Option<string> {
    f => RegisterRule(ValueOf(values, Password), f, ValueOf(values, f))
  }

  /**
   * The register form is valid exactly when the email matches the pattern,
   * the password meets the strong policy, the confirmation repeats it, and
   * both names have at least two characters.
   */
  lemma RegisterValidExactly(values: map<Field, string>)
    ensures ErrorMap(RegisterFields, RegisterCheck(values)) == map[] <==>
      && MatchesEmailPattern(ValueOf(values, Email))
      && StrongPasswordError(ValueOf(values, Password)).None?
      && ValueOf(values, ConfirmPassword) == ValueOf(values, Password)
      && |ValueOf(values, FirstName)| >= 2 && |ValueOf(values, LastName)| >= 2
  {
    var check := RegisterCheck(values);
    ErrorMapExact(RegisterFields, check);
    EmailErrorMeaning(ValueOf(values, Email));
    assert check(Email) == EmailError(ValueOf(values, Email));
    assert check(Password) == StrongPasswordError(ValueOf(values, Password));
    assert check(ConfirmPassword) == ConfirmPasswordError(ValueOf(values, ConfirmPassword), ValueOf(values, Password));
    assert check(FirstName) == NameError("First name", ValueOf(values, FirstName));
    assert check(LastName) == NameError("Last name", ValueOf(values, LastName));
  }

  /**
   * The login form is valid exactly when the email matches the pattern and
   * the password has at least six characters.
   */
  lemma LoginValidExactly(values: map<Field, string>)
    ensures ErrorMap(LoginFields, LoginCheck(values)) == map[] <==>
      MatchesEmailPattern(ValueOf(values, Email)) && |ValueOf(values, Password)| >= 6
  {
    var check := LoginCheck(values);
    ErrorMapExact(LoginFields, check);
    EmailErrorMeaning(ValueOf(values, Email));
    assert check(Email) == EmailError(ValueOf(values, Email));
    assert check(Password) == PasswordError(ValueOf(values, Password));
  }

  /** The request `register` receives: the form values without `confirmPassword`. */
  function RegisterPayload(values: map<Field, string>): (r: RegisterRequest)
    ensures r.email == ValueOf(values, Email) && r.password == ValueOf(values, Password)
    ensures r.firstName == ValueOf(values, FirstName) && r.lastName == ValueOf(values, LastName)
  {
    RegisterRequest(ValueOf(values, Email), ValueOf(values, Password), ValueOf(values, FirstName), ValueOf(values, LastName))
  }

  /** `useLoginForm` of the context-backed hooks. */
  class LoginForm {
    var formState: FormState
    var isSubmitting: bool
    ghost var events: seq<FormEvent>
    const auth: AuthProvider

    ghost predicate Valid()
      reads this, auth
    {
      Shaped(formState, LoginFields) && !isSubmitting && auth.Valid()
    }

    constructor (auth: AuthProvider)
      requires auth.Valid()
      ensures Valid() && formState == Blank(LoginFields) && !isSubmitting
      ensures events == [] && this.auth == auth
    {
      formState := Blank(LoginFields);
      isSubmitting := false;
      events := [];
      this.auth := auth;
    }

    /** `validateForm()`: replace the errors with exactly those of the failing fields. */
    method ValidateForm() returns (isValid: bool)
      requires Valid()
      modifies this
      ensures Valid()
      ensures formState == old(formState).(errors := formState.errors)
      ensures formState.errors == ErrorMap(LoginFields, LoginCheck(formState.values))
      ensures isValid <==> formState.errors == map[]
      ensures events == old(events)
    {
      var errors;
      errors, isValid := CollectErrors(LoginFields, LoginCheck(formState.values));
      formState := formState.(errors := errors);
    }

    /** `handleChange(name, value)`. */
    method HandleChange(name: Field, value: string)
      requires Valid() && name in LoginFields
      modifies this, auth
      ensures Valid()
      ensures formState == Changed(old(formState), name, value)
      ensures events == old(events)
      ensures ErrorShown(old(auth.state.error)) ==>
        auth.state == old(auth.state).(error := None)
        && auth.effects == old(auth.effects) + [Dispatched(AuthAction.ClearError)]
      ensures !ErrorShown(old(auth.state.error)) ==> auth.state == old(auth.state) && auth.effects == old(auth.effects)
    {
      UpdatesKeepShape(formState, LoginFields, name, value, None);
      formState := Changed(formState, name, value);
      if ErrorShown(auth.state.error) {
        auth.ClearError();
      }
    }

    /** `handleBlur(name)`. */
    method HandleBlur(name: Field)
      requires Valid() && name in LoginFields
      modifies this
      ensures Valid()
      ensures formState == Blurred(old(formState), name, LoginRule(name, old(formState).values[name]))
      ensures events == old(events)
    {
      var error := LoginRule(name, formState.values[name]);
      UpdatesKeepShape(formState, LoginFields, name, "", error);
      formState := Blurred(formState, name, error);
    }

    /**
     * `handleSubmit`: nothing beyond the new errors when validation fails;
     * otherwise `isSubmitting` is raised, `login` runs with the form values,
     * a success navigates to the dashboard, a failure is swallowed, and
     * `isSubmitting` is lowered again.
     */
    method HandleSubmit(outcome: ApiOutcome)
      requires Valid()
      modifies this, auth, auth.storage
      ensures Valid()
      ensures formState == old(formState).(errors := formState.errors)
      ensures formState.errors == ErrorMap(LoginFields, LoginCheck(formState.values))
      ensures formState.errors != map[] ==> events == old(events)
      ensures formState.errors == map[] ==>
        events == old(events) + [SubmittingSet(true), CalledLogin(LoginRequest(ValueOf(formState.values, Email), ValueOf(formState.values, Password)))] + Landing(outcome) + [SubmittingSet(false)]
      ensures
        var values := formState.values;
        var credentials := LoginRequest(ValueOf(values, Email), ValueOf(values, Password));
        if formState.errors != map[] then
          && events == old(events)
          && auth.state == old(auth.state) && auth.effects == old(auth.effects)
          && auth.storage.items == old(auth.storage.items)
        else if Accepted(outcome).Some? then
          var d := Accepted(outcome).value;
          && auth.state == SignedIn(d.user, d.tokens)
          && auth.effects == old(auth.effects) + [Dispatched(AuthStart), RequestedLogin(credentials),
               CalledSetTokens(d.tokens), CalledSetUser(d.user), Dispatched(AuthSuccess(d.user, d.tokens))]
          && auth.storage.items == WithUser(WithTokens(old(auth.storage.items), auth.storage.isBrowser, d.tokens),
               auth.storage.isBrowser, auth.storage.userCodec, d.user)
        else
          var message := ErrorMessage(Rejection(outcome, "Login failed"));
          && auth.state == Failed(message)
          && auth.effects == old(auth.effects) + [Dispatched(AuthStart), RequestedLogin(credentials), Dispatched(AuthError(message))]
          && auth.storage.items == old(auth.storage.items)
    {
      var isValid := ValidateForm();
      if !isValid {
        return;
      }
      Submit(outcome);
    }

    /** The part of `handleSubmit` after validation has passed. */
    method Submit(outcome: ApiOutcome)
      requires Valid()
      modifies this, auth, auth.storage
      ensures Valid() && formState == old(formState)
      ensures events == old(events) + [SubmittingSet(true), CalledLogin(LoginRequest(ValueOf(formState.values, Email), ValueOf(formState.values, Password)))] + Landing(outcome) + [SubmittingSet(false)]
      ensures
        var credentials := LoginRequest(ValueOf(formState.values, Email), ValueOf(formState.values, Password));
        if Accepted(outcome).Some? then
          var d := Accepted(outcome).value;
          && auth.state == SignedIn(d.user, d.tokens)
          && auth.effects == old(auth.effects) + [Dispatched(AuthStart), RequestedLogin(credentials),
               CalledSetTokens(d.tokens), CalledSetUser(d.user), Dispatched(AuthSuccess(d.user, d.tokens))]
          && auth.storage.items == WithUser(WithTokens(old(auth.storage.items), auth.storage.isBrowser, d.tokens),
               auth.storage.isBrowser, auth.storage.userCodec, d.user)
        else
          var message := ErrorMessage(Rejection(outcome, "Login failed"));
          && auth.state == Failed(message)
          && auth.effects == old(auth.effects) + [Dispatched(AuthStart), RequestedLogin(credentials), Dispatched(AuthError(message))]
          && auth.storage.items == old(auth.storage.items)
    {
      isSubmitting := true;
      var credentials := LoginRequest(ValueOf(formState.values, Email), ValueOf(formState.values, Password));
      events := events + [SubmittingSet(true), CalledLogin(credentials)];
      var thrown := auth.Login(credentials, outcome);
      if thrown.None? {
        events := events + [Navigated(AfterAuth)];
      }
      isSubmitting := false;
      events := events + [SubmittingSet(false)];
    }
  }

  /** `useRegisterForm` of the context-backed hooks. */
  class RegisterForm {
    var formState: FormState
    var isSubmitting: bool
    ghost var events: seq<FormEvent>
    const auth: AuthProvider

    ghost predicate Valid()
      reads this, auth
    {
      Shaped(formState, RegisterFields) && !isSubmitting && auth.Valid()
    }

    constructor (auth: AuthProvider)
      requires auth.Valid()
      ensures Valid() && formState == Blank(RegisterFields) && !isSubmitting
      ensures events == [] && this.auth == auth
    {
      formState := Blank(RegisterFields);
      isSubmitting := false;
      events := [];
      this.auth := auth;
    }

    /** `validateForm()`: replace the errors with exactly those of the failing fields. */
    method ValidateForm() returns (isValid: bool)
      requires Valid()
      modifies this
      ensures Valid()
      ensures formState == old(formState).(errors := formState.errors)
      ensures formState.errors == ErrorMap(RegisterFields, RegisterCheck(formState.values))
      ensures isValid <==> formState.errors == map[]
      ensures events == old(events)
    {
      var errors;
      errors, isValid := CollectErrors(RegisterFields, RegisterCheck(formState.values));
      formState := formState.(errors := errors);
    }

    /** `handleChange(name, value)`, without the confirmation re-check that follows it in the source. */
    method HandleChange(name: Field, value: string)
      requires Valid() && name in RegisterFields
      modifies this, auth
      ensures Valid()
      ensures formState == Changed(old(formState), name, value)
      ensures events == old(events)
      ensures ErrorShown(old(auth.state.error)) ==>
        auth.state == old(auth.state).(error := None)
        && auth.effects == old(auth.effects) + [Dispatched(AuthAction.ClearError)]
      ensures !ErrorShown(old(auth.state.error)) ==> auth.state == old(auth.state) && auth.effects == old(auth.effects)
    {
      UpdatesKeepShape(formState, RegisterFields, name, value, None);
      formState := Changed(formState, name, value);
      if ErrorShown(auth.state.error) {
        auth.ClearError();
      }
    }

    /** `handleBlur(name)`. */
    method HandleBlur(name: Field)
      requires Valid() && name in RegisterFields
      modifies this
      ensures Valid()
      ensures formState == Blurred(old(formState), name, RegisterCheck(old(formState).values)(name))
      ensures events == old(events)
    {
      var error := RegisterCheck(formState.values)(name);
      UpdatesKeepShape(formState, RegisterFields, name, "", error);
      formState := Blurred(formState, name, error);
    }

    /**
     * `handleSubmit`: as for the login form, with `register` called on the
     * values stripped of `confirmPassword`.
     */
    method HandleSubmit(outcome: ApiOutcome)
      requires Valid()
      modifies this, auth, auth.storage
      ensures Valid()
      ensures formState == old(formState).(errors := formState.errors)
      ensures formState.errors == ErrorMap(RegisterFields, RegisterCheck(formState.values))
      ensures formState.errors != map[] ==> events == old(events)
      ensures formState.errors == map[] ==>
        events == old(events) + [SubmittingSet(true), CalledRegister(RegisterPayload(formState.values))] + Landing(outcome) + [SubmittingSet(false)]
      ensures
        var userData := RegisterPayload(formState.values);
        if formState.errors != map[] then
          && events == old(events)
          && auth.state == old(auth.state) && auth.effects == old(auth.effects)
          && auth.storage.items == old(auth.storage.items)
        else if Accepted(outcome).Some? then
          var d := Accepted(outcome).value;
          && auth.state == SignedIn(d.user, d.tokens)
          && auth.effects == old(auth.effects) + [Dispatched(AuthStart), RequestedRegister(userData),
               CalledSetTokens(d.tokens), CalledSetUser(d.user), Dispatched(AuthSuccess(d.user, d.tokens))]
          && auth.storage.items == WithUser(WithTokens(old(auth.storage.items), auth.storage.isBrowser, d.tokens),
               auth.storage.isBrowser, auth.storage.userCodec, d.user)
        else
          var message := ErrorMessage(Rejection(outcome, "Registration failed"));
          && auth.state == Failed(message)
          && auth.effects == old(auth.effects) + [Dispatched(AuthStart), RequestedRegister(userData), Dispatched(AuthError(message))]
          && auth.storage.items == old(auth.storage.items)
    {
      var isValid := ValidateForm();
      if !isValid {
        return;
      }
      Submit(outcome);
    }

    /** The part of `handleSubmit` after validation has passed. */
    method Submit(outcome: ApiOutcome)
      requires Valid()
      modifies this, auth, auth.storage
      ensures Valid() && formState == old(formState)
      ensures events == old(events) + [SubmittingSet(true), CalledRegister(RegisterPayload(formState.values))] + Landing(outcome) + [SubmittingSet(false)]
      ensures
        var userData := RegisterPayload(formState.values);
        if Accepted(outcome).Some? then
          var d := Accepted(outcome).value;
          && auth.state == SignedIn(d.user, d.tokens)
          && auth.effects == old(auth.effects) + [Dispatched(AuthStart), RequestedRegister(userData),
               CalledSetTokens(d.tokens), CalledSetUser(d.user), Dispatched(AuthSuccess(d.user, d.tokens))]
          && auth.storage.items == WithUser(WithTokens(old(auth.storage.items), auth.storage.isBrowser, d.tokens),
               auth.storage.isBrowser, auth.storage.userCodec, d.user)
        else
          var message := ErrorMessage(Rejection(outcome, "Registration failed"));
          && auth.state == Failed(message)
          && auth.effects == old(auth.effects) + [Dispatched(AuthStart), RequestedRegister(userData), Dispatched(AuthError(message))]
          && auth.storage.items == old(auth.storage.items)
    {
      isSubmitting := true;
      var userData := RegisterPayload(formState.values);
      events := events + [SubmittingSet(true), CalledRegister(userData)];
      var thrown := auth.Register(userData, outcome);
      if thrown.None? {
        events := events + [Navigated(AfterAuth)];
      }
      isSubmitting := false;
      events := events + [SubmittingSet(false)];
    }
  }
}

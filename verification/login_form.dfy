/**
 * The mutation-backed `useLoginForm`: the same email and six-character
 * password rules as the context-backed login hook (`LoginRule`), a form
 * record without a submitting flag, and a submit that hands exactly
 * `{email, password}` to the login mutation when both fields pass. Its
 * `validateForm` checks the two fields by name instead of looping over the
 * record's keys; `FormErrorsExact` shows the two give the same errors.
 */
module LoginFormHook {
  import opened Wrappers
  import opened AuthTypes
  import opened FieldRules
  import opened Forms
  import opened AuthFormHooks

  const Fields := LoginFields

  /** The errors object built from the email and password verdicts, in that order, each only when it fails. */
  function ErrorsByName(emailError: Option<string>, passwordError: Option<string>): map<Field, string> {
    var withEmail := if emailError.Some? then map[Email := emailError.value] else map[];
    if passwordError.Some? then withEmail[Password := passwordError.value] else withEmail
  }

  /** The errors `validateForm` records. */
  function FormErrors(values: map<Field, string>): map<Field, string> {
    ErrorsByName(LoginRule(Email, ValueOf(values, Email)), LoginRule(Password, ValueOf(values, Password)))
  }

  /** Checking the two fields by name records what checking each field of the form in turn records. */
  lemma ByNameIsByField(check: Field -> Option<string>)
    ensures ErrorsByName(check(Email), check(Password)) == ErrorMap(Fields, check)
  {
    var errors := ErrorsByName(check(Email), check(Password));
    ErrorMapExact(Fields, check);
    assert errors.Keys == ErrorMap(Fields, check).Keys;
  }

  /**
   * The two explicit checks record exactly the failing fields, and the form
   * is valid exactly when the email matches the pattern and the password
   * has at least six characters.
   */
  lemma FormErrorsExact(values: map<Field, string>)
    ensures FormErrors(values) == ErrorMap(Fields, LoginCheck(values))
    ensures FormErrors(values) == map[] <==> MatchesEmailPattern(ValueOf(values, Email)) && |ValueOf(values, Password)| >= 6
  {
    var check := LoginCheck(values);
    assert check(Email) == LoginRule(Email, ValueOf(values, Email));
    assert check(Password) == LoginRule(Password, ValueOf(values, Password));
    ByNameIsByField(check);
    LoginValidExactly(values);
  }

  class LoginForm {
    var formState: FormState

    ghost predicate Valid()
      reads this
    {
      Shaped(formState, Fields)
    }

    constructor ()
      ensures Valid() && formState == Blank(Fields)
    {
      formState := Blank(Fields);
    }

    /** `validateForm()`: record the failing fields and report whether there were none. */
    method ValidateForm() returns (isValid: bool)
      requires Valid()
      modifies this
      ensures Valid()
      ensures formState == old(formState).(errors := FormErrors(old(formState).values))
      ensures isValid <==> formState.errors == map[]
    {
      var emailError := LoginRule(Email, ValueOf(formState.values, Email));
      var passwordError := LoginRule(Password, ValueOf(formState.values, Password));
      var errors: map<Field, string> := map[];
      isValid := true;
      if emailError.Some? {
        errors := errors[Email := emailError.value];
        isValid := false;
      }
      if passwordError.Some? {
        errors := errors[Password := passwordError.value];
        isValid := false;
      }
      assert !isValid ==> Email in errors || Password in errors;
      formState := formState.(errors := errors);
    }

    /** `handleChange(name, value)`; the mutation's error reset is not part of this model. */
    method HandleChange(name: Field, value: string)
      requires Valid() && name in Fields
      modifies this
      ensures Valid()
      ensures formState == Changed(old(formState), name, value)
    {
      UpdatesKeepShape(formState, Fields, name, value, None);
      formState := Changed(formState, name, value);
    }

    /** `handleBlur(name)`. */
    method HandleBlur(name: Field)
      requires Valid() && name in Fields
      modifies this
      ensures Valid()
      ensures formState == Blurred(old(formState), name, LoginRule(name, old(formState).values[name]))
    {
      var error := LoginRule(name, formState.values[name]);
      UpdatesKeepShape(formState, Fields, name, "", error);
      formState := Blurred(formState, name, error);
    }

    /** `handleSubmit`: the argument passed to the login mutation, or `None` when validation stops it. */
    method HandleSubmit() returns (request: Option<LoginRequest>)
      requires Valid()
      modifies this
      ensures Valid()
      ensures formState == old(formState).(errors := FormErrors(old(formState).values))
      ensures request.Some? <==> formState.errors == map[]
      ensures request.Some? <==> MatchesEmailPattern(formState.values[Email]) && |formState.values[Password]| >= 6
      ensures request.Some? ==>
        request.value == LoginRequest(formState.values[Email], formState.values[Password])
    {
      FormErrorsExact(formState.values);
      var isValid := ValidateForm();
      if !isValid {
        return None;
      }
      request := Some(LoginRequest(formState.values[Email], formState.values[Password]));
    }
  }
}

/**
 * The mutation-backed `useSignupForm`: a four-field form (email, password,
 * first and last name) that validates only the email and the password,
 * with the login hook's two rules, and hands a complete `RegisterRequest`
 * to the signup mutation when both pass.
 */
module SignupFormHook {
  import opened Wrappers
  import opened AuthTypes
  import opened FieldRules
  import opened Forms
  import opened AuthFormHooks
  import LoginFormHook

  const Fields := [Email, Password, FirstName, LastName]

  /**
   * `validateField`: the signup hook's rule table is the login hook's
   * (`LoginRule`: email and six-character password); the names have no rule.
   */
  lemma NamesHaveNoRule(value: string)
    ensures LoginRule(FirstName, value).None? && LoginRule(LastName, value).None?
  {
  }

  /** `validateForm` checks the email and the password by name, exactly as the mutation-backed login hook does. */
  function FormErrors(values: map<Field, string>): map<Field, string> {
    LoginFormHook.FormErrors(values)
  }

  /**
   * The names never carry a validation error after `validateForm`, and the
   * form is valid exactly when the email matches the pattern and the
   * password has at least six characters.
   */
  lemma FormErrorsIgnoreNames(values: map<Field, string>)
    ensures FirstName !in FormErrors(values) && LastName !in FormErrors(values)
    ensures FormErrors(values) == map[] <==> MatchesEmailPattern(ValueOf(values, Email)) && |ValueOf(values, Password)| >= 6
  {
    LoginFormHook.FormErrorsExact(values);
  }

  /** Whatever the names hold, `validateForm` records the same errors. */
  lemma NamesDoNotMatter(values: map<Field, string>, first: string, last: string)
    ensures FormErrors(values[FirstName := first][LastName := last]) == FormErrors(values)
  {
    var w := values[FirstName := first][LastName := last];
    assert ValueOf(w, Email) == ValueOf(values, Email);
    assert ValueOf(w, Password) == ValueOf(values, Password);
  }

  class SignupForm {
    var formState: FormState

    ghost predicate Valid()
      reads this
    {
      Shaped(formState, Fields)
    }

    constructor ()
      ensures Valid() && formState == Blank(Fields)
    {
      formState := Blank(Fields);
    }

    /** `validateForm()`: record the failing email and password and report whether there were none. */
    method ValidateForm() returns (isValid: bool)
      requires Valid()
      modifies this
      ensures Valid()
      ensures formState == old(formState).(errors := FormErrors(old(formState).values))
      ensures isValid <==> formState.errors == map[]
    {
      var emailError := LoginRule(Email, ValueOf(formState.values, Email));
      var passwordError := LoginRule(Password, ValueOf(formState.values, Password));
      var errors: map<Field, string> := map[];
      isValid := true;
      if emailError.Some? {
        errors := errors[Email := emailError.value];
        isValid := false;
      }
      if passwordError.Some? {
        errors := errors[Password := passwordError.value];
        isValid := false;
      }
      assert !isValid ==> Email in errors || Password in errors;
      formState := formState.(errors := errors);
    }

    /** `handleChange(name, value)`; the mutation's error reset is not part of this model. */
    method HandleChange(name: Field, value: string)
      requires Valid() && name in Fields
      modifies this
      ensures Valid()
      ensures formState == Changed(old(formState), name, value)
    {
      UpdatesKeepShape(formState, Fields, name, value, None);
      formState := Changed(formState, name, value);
    }

    /** `handleBlur(name)`: a name field's blur only marks it touched and clears its error. */
    method HandleBlur(name: Field)
      requires Valid() && name in Fields
      modifies this
      ensures Valid()
      ensures formState == Blurred(old(formState), name, LoginRule(name, old(formState).values[name]))
      ensures name == FirstName || name == LastName ==> name !in formState.errors
    {
      var error := LoginRule(name, formState.values[name]);
      UpdatesKeepShape(formState, Fields, name, "", error);
      formState := Blurred(formState, name, error);
    }

    /** `handleSubmit`: the argument passed to the signup mutation, or `None` when validation stops it. */
    method HandleSubmit() returns (request: Option<RegisterRequest>)
      requires Valid()
      modifies this
      ensures Valid()
      ensures formState == old(formState).(errors := FormErrors(old(formState).values))
      ensures request.Some? <==> formState.errors == map[]
      ensures request.Some? <==> MatchesEmailPattern(formState.values[Email]) && |formState.values[Password]| >= 6
      ensures request.Some? ==>
        request.value == RegisterRequest(formState.values[Email], formState.values[Password],
          formState.values[FirstName], formState.values[LastName])
    {
      FormErrorsIgnoreNames(formState.values);
      var isValid := ValidateForm();
      if !isValid {
        return None;
      }
      // The names' `|| ''` fallback only replaces the empty string by itself,
      // so the mutation receives the register request of the four values.
      request := Some(RegisterPayload(formState.values));
    }
  }
}

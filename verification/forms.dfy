/**
 * What the three form hooks have in common: the field names, the
 * `{ values, errors, touched }` record, the record updates behind
 * `handleChange` and `handleBlur`, and the `validateForm` loop that gathers
 * the error of every failing field.
 */
module Forms {
  import opened Wrappers

  /** The input names the forms use. */
  datatype Field = Email | Password | ConfirmPassword | FirstName | LastName

  /**
   * A form's state record. `values` holds the text of every field of the
   * form; `errors` holds the fields that have a message (a field set to
   * `undefined` is absent); `touched` is the set of fields marked touched.
   */
  datatype FormState = FormState(values: map<Field, string>, errors: map<Field, string>, touched: set<Field>)

  /** The record a form starts with: every field empty, no errors, nothing touched. */
  function Blank(fields: seq<Field>): (fs: FormState)
    ensures fs.values.Keys == set f | f in fields
    ensures forall f :: f in fs.values ==> fs.values[f] == ""
    ensures fs.errors == map[] && fs.touched == {}
  {
    FormState(map f | f in fields :: "", map[], {})
  }

  /** `values` covers exactly the form's fields; `errors` and `touched` stay within them. */
  ghost predicate Shaped(fs: FormState, fields: seq<Field>) {
    && fs.values.Keys == (set f | f in fields)
    && fs.errors.Keys <= fs.values.Keys
    && fs.touched <= fs.values.Keys
  }

  /** `a` and `b` agree on every field other than `name`, in values, errors and touched alike. */
  ghost predicate SameExcept(a: FormState, b: FormState, name: Field) {
    && (forall f :: f != name ==> (f in a.values <==> f in b.values))
    && (forall f :: f != name && f in a.values && f in b.values ==> a.values[f] == b.values[f])
    && (forall f :: f != name ==> (f in a.errors <==> f in b.errors))
    && (forall f :: f != name && f in a.errors && f in b.errors ==> a.errors[f] == b.errors[f])
    && (forall f :: f != name ==> (f in a.touched <==> f in b.touched))
  }

  /** The record `handleChange(name, value)` installs. */
  function Changed(fs: FormState, name: Field, value: string): (r: FormState)
    ensures SameExcept(fs, r, name)
    ensures name in r.values && r.values[name] == value
    ensures name !in r.errors && name in r.touched
  {
    fs.(values := fs.values[name := value], errors := fs.errors - {name}, touched := fs.touched + {name})
  }

  /** The record `handleBlur(name)` installs, given the rule's verdict on the field. */
  function Blurred(fs: FormState, name: Field, error: Option<string>): (r: FormState)
    ensures SameExcept(fs, r, name) && r.values == fs.values
    ensures name in r.errors <==> error.Some?
    ensures error.Some? ==> r.errors[name] == error.value
    ensures name in r.touched
  {
    var errors := if error.Some? then fs.errors[name := error.value] else fs.errors - {name};
    fs.(errors := errors, touched := fs.touched + {name})
  }

  /** Both updates keep the record's shape when `name` is one of the form's fields. */
  lemma UpdatesKeepShape(fs: FormState, fields: seq<Field>, name: Field, value: string, error: Option<string>)
    requires Shaped(fs, fields) && name in fields
    ensures Shaped(Changed(fs, name, value), fields)
    ensures Shaped(Blurred(fs, name, error), fields)
  {
  }

  /** A change followed by a blur of the same field leaves the rule's verdict on the new value. */
  lemma BlurAfterChange(fs: FormState, name: Field, value: string, check: string -> Option<string>)
    ensures var r := Blurred(Changed(fs, name, value), name, check(value));
      && SameExcept(fs, r, name)
      && r.values[name] == value
      && (name in r.errors <==> check(value).Some?)
  {
  }

  /** The text of a field; a field the form does not have reads as empty. */
  function ValueOf(values: map<Field, string>, f: Field): string {
    if f in values then values[f] else ""
  }

  /** `errors` holds exactly the fields of `fields` that `check` rejects, each with its message. */
  ghost predicate ExactErrors(errors: map<Field, string>, fields: seq<Field>, check: Field -> Option<string>) {
    && (forall f :: f in errors <==> f in fields && check(f).Some?)
    && (forall f :: f in errors ==> errors[f] == check(f).value)
  }

  /** The errors record of the failing fields of `fields`: reference definition for `CollectErrors`. */
  function ErrorMap(fields: seq<Field>, check: Field -> Option<string>): map<Field, string> {
    map f | f in fields && check(f).Some? :: check(f).value
  }

  /** The reference map holds exactly the failing fields, each with its message. */
  lemma ErrorMapExact(fields: seq<Field>, check: Field -> Option<string>)
    ensures ExactErrors(ErrorMap(fields, check), fields, check)
    ensures ErrorMap(fields, check) == map[] <==> forall f :: f in fields ==> check(f).None?
  {
    if forall f :: f in fields ==> check(f).None? {
      assert ErrorMap(fields, check).Keys == {};
    } else {
      var f :| f in fields && check(f).Some?;
      assert f in ErrorMap(fields, check);
    }
  }

  /**
   * The loop of `validateForm`: every field is checked, every failing one
   * is recorded with its message, and the form is valid exactly when none
   * fails.
   */
  method CollectErrors(fields: seq<Field>, check: Field -> Option<string>) returns (errors: map<Field, string>, isValid: bool)
    ensures errors == ErrorMap(fields, check)
    ensures isValid <==> errors == map[]
  {
    errors := map[];
    isValid := true;
    for i := 0 to |fields|
      invariant ExactErrors(errors, fields[..i], check)
      invariant isValid <==> forall f :: f in fields[..i] ==> check(f).None?
    {
      assert fields[..i + 1] == fields[..i] + [fields[i]];
      var error := check(fields[i]);
      if error.Some? {
        errors := errors[fields[i] := error.value];
        isValid := false;
      }
    }
    assert fields[..|fields|] == fields;
    ErrorMapExact(fields, check);
    assert errors.Keys == ErrorMap(fields, check).Keys;
  }
}

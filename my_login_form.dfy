/** The login form (src/components/ui/my/LoginForm.tsx): the two field
    rules, the error record that `validateForm` fills, the submit gate and
    `clearError`. A form is the map from field name to submitted value;
    `formData.get` of an absent field is `None`. */
module MyLoginForm {
  import opened Wrappers
  import opened Text

  type Form = map<string, string>
  type Errors = map<string, string>

  const LOGIN: string := "login"
  const PASSWORD: string := "password"

  const LOGIN_EMPTY: string := "Логин не может быть пустым"
  const LOGIN_SPACES: string := "Логин не должен содержать пробелы"
  const LOGIN_SHORT: string := "Логин должен содержать не менее 4 символов"
  const PASSWORD_EMPTY: string := "Пароль не может быть пустым"
  const PASSWORD_SPACES: string := "Пароль не должен содержать пробелы"
  const PASSWORD_SHORT: string := "Пароль должен содержать не менее 8 символов"

  const MIN_LOGIN: nat := 4
  const MIN_PASSWORD: nat := 8

  function Get(form: Form, field: string): Option<string>
  {
    if field in form then Some(form[field]) else None
  }

  /** The login chain: blank, then a space, then shorter than four UTF-16
      code units (JavaScript's `length`); only the first failing rule
      speaks. */
  function LoginError(v: Option<string>): (r: Option<string>)
    ensures r == Some(LOGIN_EMPTY) <==> BlankValue(v)
    ensures r == Some(LOGIN_SPACES) <==> !BlankValue(v) && ' ' in v.value
    ensures r == Some(LOGIN_SHORT) <==> !BlankValue(v) && ' ' !in v.value && Utf16Length(v.value) < MIN_LOGIN
    ensures r.None? <==> !BlankValue(v) && ' ' !in v.value && Utf16Length(v.value) >= MIN_LOGIN
  {
    if BlankValue(v) then Some(LOGIN_EMPTY)
    else if ' ' in v.value then Some(LOGIN_SPACES)
    else if Utf16Length(v.value) < MIN_LOGIN then Some(LOGIN_SHORT)
    else None
  }

  /** The password chain, the same rules with a minimum of eight code
      units. */
  function PasswordError(v: Option<string>): (r: Option<string>)
    ensures r == Some(PASSWORD_EMPTY) <==> BlankValue(v)
    ensures r == Some(PASSWORD_SPACES) <==> !BlankValue(v) && ' ' in v.value
    ensures r == Some(PASSWORD_SHORT) <==> !BlankValue(v) && ' ' !in v.value && Utf16Length(v.value) < MIN_PASSWORD
    ensures r.None? <==> !BlankValue(v) && ' ' !in v.value && Utf16Length(v.value) >= MIN_PASSWORD
  {
    if BlankValue(v) then Some(PASSWORD_EMPTY)
    else if ' ' in v.value then Some(PASSWORD_SPACES)
    else if Utf16Length(v.value) < MIN_PASSWORD then Some(PASSWORD_SHORT)
    else None
  }

  /** An input of spaces only is reported as empty, not as containing
      spaces: the blank rule comes first. */
  lemma SpacesOnlyIsEmpty(v: string)
    requires |v| > 0 && forall i :: 0 <= i < |v| ==> v[i] == ' '
    ensures LoginError(Some(v)) == Some(LOGIN_EMPTY)
    ensures PasswordError(Some(v)) == Some(PASSWORD_EMPTY)
  {
    TrimEmptyIffBlank(v);
  }

  /** The minimum counts code units: two characters from outside the Basic
      Multilingual Plane already make a login long enough. */
  lemma AstralLoginLongEnough()
    ensures |"\U{1F600}\U{1F600}"| < MIN_LOGIN
    ensures LoginError(Some("\U{1F600}\U{1F600}")) == None
  {
    var v := "\U{1F600}\U{1F600}";
    assert !IsJsWhitespace(v[0]);
    TrimEmptyIffBlank(v);
    assert Utf16Length(v) == 4 by {
      assert v[1..][1..] == [];
    }
  }

  /** What `validateForm` returns: at most one message per field, only
      for the two fields, each the first failing rule of its chain. */
  predicate ErrorsOf(form: Form, errors: Errors)
  {
    && errors.Keys <= {LOGIN, PASSWORD}
    && (LOGIN in errors <==> LoginError(Get(form, LOGIN)).Some?)
    && (LOGIN in errors ==> errors[LOGIN] == LoginError(Get(form, LOGIN)).value)
    && (PASSWORD in errors <==> PasswordError(Get(form, PASSWORD)).Some?)
    && (PASSWORD in errors ==> errors[PASSWORD] == PasswordError(Get(form, PASSWORD)).value)
  }

  /** `validateForm`: the record filled field by field. */
  method ValidateForm(form: Form) returns (newErrors: Errors)
    ensures ErrorsOf(form, newErrors)
  {
    newErrors := map[];
    var login := Get(form, LOGIN);
    var password := Get(form, PASSWORD);
    if BlankValue(login) {
      newErrors := newErrors[LOGIN := LOGIN_EMPTY];
    } else if ' ' in login.value {
      newErrors := newErrors[LOGIN := LOGIN_SPACES];
    } else if Utf16Length(login.value) < MIN_LOGIN {
      newErrors := newErrors[LOGIN := LOGIN_SHORT];
    }
    if BlankValue(password) {
      newErrors := newErrors[PASSWORD := PASSWORD_EMPTY];
    } else if ' ' in password.value {
      newErrors := newErrors[PASSWORD := PASSWORD_SPACES];
    } else if Utf16Length(password.value) < MIN_PASSWORD {
      newErrors := newErrors[PASSWORD := PASSWORD_SHORT];
    }
  }

  /** The error record is determined by the form. */
  lemma ErrorsUnique(form: Form, a: Errors, b: Errors)
    requires ErrorsOf(form, a) && ErrorsOf(form, b)
    ensures a == b
  {
    assert a.Keys == b.Keys;
  }

  /** `clearError`: a truthy message for the field is removed, an empty
      one stays, and no other key changes. */
  function Cleared(errors: Errors, field: string): (r: Errors)
    ensures field in r <==> field in errors && errors[field] == ""
    ensures field in r ==> r[field] == errors[field]
    ensures forall k :: k != field ==> (k in r <==> k in errors) && (k in r ==> r[k] == errors[k])
  {
    if field in errors && errors[field] != "" then errors - {field} else errors
  }

  class LoginFormState {
    var errors: Errors

    constructor ()
      ensures errors == map[]
    {
      errors := map[];
    }

    /** `onSubmit`: with errors the record is shown and nothing is sent;
        otherwise the record is cleared and the submitted fields are
        returned (the source shows them in an alert). */
    method OnSubmit(form: Form) returns (data: Option<Form>)
      modifies this
      ensures data.Some? <==> LoginError(Get(form, LOGIN)).None? && PasswordError(Get(form, PASSWORD)).None?
      ensures data.Some? ==> data.value == form && errors == map[]
      ensures data.None? ==> ErrorsOf(form, errors) && errors != map[]
    {
      var validationErrors := ValidateForm(form);
      if |validationErrors.Keys| > 0 {
        errors := validationErrors;
        return None;
      }
      assert LOGIN !in validationErrors && PASSWORD !in validationErrors;
      errors := map[];
      data := Some(form);
    }

    method ClearError(field: string)
      modifies this
      ensures errors == Cleared(old(errors), field)
    {
      if field in errors && errors[field] != "" {
        errors := errors - {field};
      }
    }
  }
}

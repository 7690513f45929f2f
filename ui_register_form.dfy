/** The field validators of the HeroUI registration form
    (src/components/ui/RegisterForm.tsx): early-return chains that give
    one message or `null`. */
module UiRegisterForm {
  import opened Wrappers
  import opened Text

  const NAME_EMPTY: string := "Имя не может быть пустым"
  const NAME_SPACES: string := "Имя не должно содержать пробелы"
  const LOGIN_EMPTY: string := "Логин не может быть пустым"
  const LOGIN_SPACES: string := "Логин не должен содержать пробелы"
  const LOGIN_SHORT: string := "Логин должен содержать не менее 4 символов"
  const PASSWORD_EMPTY: string := "Пароль не может быть пустым"
  const PASSWORD_SPACES: string := "Пароль не должен содержать пробелы"
  const PASSWORD_SHORT: string := "Пароль должен содержать не менее 8 символов"

  function ValidateName(value: string): (r: Option<string>)
    ensures r == Some(NAME_EMPTY) <==> IsBlank(value)
    ensures r == Some(NAME_SPACES) <==> !IsBlank(value) && ' ' in value
    ensures r.None? <==> !IsBlank(value) && ' ' !in value
    ensures r.Some? ==> r.value in {NAME_EMPTY, NAME_SPACES}
  {
    TrimEmptyIffBlank(value);
    if value == "" || Trim(value) == "" then Some(NAME_EMPTY)
    else if ' ' in value then Some(NAME_SPACES)
    else None
  }

  /** Blank, then a space, then fewer than four UTF-16 code units. */
  function ValidateLogin(value: string): (r: Option<string>)
    ensures r == Some(LOGIN_EMPTY) <==> IsBlank(value)
    ensures r == Some(LOGIN_SPACES) <==> !IsBlank(value) && ' ' in value
    ensures r == Some(LOGIN_SHORT) <==> !IsBlank(value) && ' ' !in value && Utf16Length(value) < 4
    ensures r.None? <==> !IsBlank(value) && ' ' !in value && Utf16Length(value) >= 4
    ensures r.Some? ==> r.value in {LOGIN_EMPTY, LOGIN_SPACES, LOGIN_SHORT}
  {
    TrimEmptyIffBlank(value);
    if value == "" || Trim(value) == "" then Some(LOGIN_EMPTY)
    else if ' ' in value then Some(LOGIN_SPACES)
    else if Utf16Length(value) < 4 then Some(LOGIN_SHORT)
    else None
  }

  /** The same with a minimum of eight code units. */
  function ValidatePassword(value: string): (r: Option<string>)
    ensures r == Some(PASSWORD_EMPTY) <==> IsBlank(value)
    ensures r == Some(PASSWORD_SPACES) <==> !IsBlank(value) && ' ' in value
    ensures r == Some(PASSWORD_SHORT) <==> !IsBlank(value) && ' ' !in value && Utf16Length(value) < 8
    ensures r.None? <==> !IsBlank(value) && ' ' !in value && Utf16Length(value) >= 8
    ensures r.Some? ==> r.value in {PASSWORD_EMPTY, PASSWORD_SPACES, PASSWORD_SHORT}
  {
    TrimEmptyIffBlank(value);
    if value == "" || Trim(value) == "" then Some(PASSWORD_EMPTY)
    else if ' ' in value then Some(PASSWORD_SPACES)
    else if Utf16Length(value) < 8 then Some(PASSWORD_SHORT)
    else None
  }

  /** An input of whitespace only (spaces included) gets the "empty"
      message of each validator, never the "spaces" one. */
  lemma WhitespaceOnlyIsEmpty(value: string)
    requires IsBlank(value)
    ensures ValidateName(value) == Some(NAME_EMPTY)
    ensures ValidateLogin(value) == Some(LOGIN_EMPTY)
    ensures ValidatePassword(value) == Some(PASSWORD_EMPTY)
  {
    TrimEmptyIffBlank(value);
  }

  /** A value with a space that is not blank gets the "spaces" message,
      whatever its length. */
  lemma SpacedValueReportsSpaces(value: string)
    requires !IsBlank(value) && ' ' in value
    ensures ValidateName(value) == Some(NAME_SPACES)
    ensures ValidateLogin(value) == Some(LOGIN_SPACES)
    ensures ValidatePassword(value) == Some(PASSWORD_SPACES)
  {
    TrimEmptyIffBlank(value);
  }
}

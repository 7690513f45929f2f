/** The field validators of the HeroUI login form
    (src/components/ui/LoginForm.tsx). */
module UiLoginForm {
  import opened Wrappers
  import opened Text
  import MyLoginForm

  const LOGIN_EMPTY: string := "Логин не может быть пустым"
  const LOGIN_SPACES: string := "Логин не должен содержать пробелы"
  const LOGIN_SHORT: string := "Логин должен содержать не менее 4 символов"
  const PASSWORD_EMPTY: string := "Пароль не может быть пустым"
  const PASSWORD_SPACES: string := "Пароль не должен содержать пробелы"
  const PASSWORD_SHORT: string := "Пароль должен содержать не менее 8 символов"

  /** The first failing rule among blank, space and length below four UTF-16 code units. */
  function ValidateLogin(value: string): (r: Option<string>)
    ensures r == Some(LOGIN_EMPTY) <==> IsBlank(value)
    ensures r == Some(LOGIN_SPACES) <==> !IsBlank(value) && ' ' in value
    ensures r == Some(LOGIN_SHORT) <==> !IsBlank(value) && ' ' !in value && Utf16Length(value) < 4
    ensures r.None? <==> !IsBlank(value) && ' ' !in value && Utf16Length(value) >= 4
  {
    TrimEmptyIffBlank(value);
    if value == "" || Trim(value) == "" then Some(LOGIN_EMPTY)
    else if ' ' in value then Some(LOGIN_SPACES)
    else if Utf16Length(value) < 4 then Some(LOGIN_SHORT)
    else None
  }

  /** The first failing rule among blank, space and length below eight code units. */
  function ValidatePassword(value: string): (r: Option<string>)
    ensures r == Some(PASSWORD_EMPTY) <==> IsBlank(value)
    ensures r == Some(PASSWORD_SPACES) <==> !IsBlank(value) && ' ' in value
    ensures r == Some(PASSWORD_SHORT) <==> !IsBlank(value) && ' ' !in value && Utf16Length(value) < 8
    ensures r.None? <==> !IsBlank(value) && ' ' !in value && Utf16Length(value) >= 8
  {
    TrimEmptyIffBlank(value);
    if value == "" || Trim(value) == "" then Some(PASSWORD_EMPTY)
    else if ' ' in value then Some(PASSWORD_SPACES)
    else if Utf16Length(value) < 8 then Some(PASSWORD_SHORT)
    else None
  }

  /** For every input these validators give the message the other login
      form records for the same field. */
  lemma SameRulesAsFormRecord(value: string)
    ensures ValidateLogin(value) == MyLoginForm.LoginError(Some(value))
    ensures ValidatePassword(value) == MyLoginForm.PasswordError(Some(value))
  {
  }
}

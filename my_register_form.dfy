/** The registration form (src/components/ui/my/RegisterForm.tsx): the
    offered join years, the four field rules that `validateForm` records,
    the submit gate in front of `userApi.create_user` and `clearError`.
    The current year and the outcome of the request are parameters. */
module MyRegisterForm {
  import opened Wrappers
  import opened Text
  import MyLoginForm

  type Form = map<string, string>
  type Errors = map<string, string>

  const NAME: string := "name"
  const LOGIN: string := "login"
  const PASSWORD: string := "password"
  const YEAR: string := "year"
  const RONIN: string := "ronin"
  const FORM: string := "form"

  const NAME_EMPTY: string := "Имя не может быть пустым"
  const NAME_SPACES: string := "Имя не должно содержать пробелы"
  const YEAR_MISSING: string := "Выберите год вступления"
  const DEFAULT_FAILURE: string := "Ошибка при регистрации"
  const LOGIN_PAGE: string := "/login"

  /** The earliest join year offered. */
  const FIRST_YEAR: int := 2011

  function Get(form: Form, field: string): Option<string>
  {
    if field in form then Some(form[field]) else None
  }

  // ---------------------------------------------------------------------------
  // The year options

  /** `Array.from({ length: currentYear - 2011 + 1 }, (_, i) => currentYear - i)`;
      a negative length gives no options. */
  function Years(currentYear: int): (r: seq<int>)
    ensures currentYear < FIRST_YEAR ==> r == []
    ensures currentYear >= FIRST_YEAR ==> |r| == currentYear - FIRST_YEAR + 1
  {
    if currentYear < FIRST_YEAR then []
    else seq(currentYear - FIRST_YEAR + 1, i requires 0 <= i <= currentYear - FIRST_YEAR => currentYear - i)
  }

  /** The options run from the current year down to 2011, strictly
      decreasing, and are exactly the years in between. */
  lemma YearsDescend(currentYear: int)
    requires currentYear >= FIRST_YEAR
    ensures Years(currentYear)[0] == currentYear
    ensures Years(currentYear)[|Years(currentYear)| - 1] == FIRST_YEAR
    ensures forall i, j :: 0 <= i < j < |Years(currentYear)| ==> Years(currentYear)[i] > Years(currentYear)[j]
    ensures forall y :: y in Years(currentYear) <==> FIRST_YEAR <= y <= currentYear
  {
    var r := Years(currentYear);
    forall y | FIRST_YEAR <= y <= currentYear
      ensures y in r
    {
      assert r[currentYear - y] == y;
    }
  }

  // ---------------------------------------------------------------------------
  // validateForm

  /** The name chain: blank, then a space. */
  function NameError(v: Option<string>): (r: Option<string>)
    ensures r == Some(NAME_EMPTY) <==> BlankValue(v)
    ensures r == Some(NAME_SPACES) <==> !BlankValue(v) && ' ' in v.value
    ensures r.None? <==> !BlankValue(v) && ' ' !in v.value
  {
    if BlankValue(v) then Some(NAME_EMPTY)
    else if ' ' in v.value then Some(NAME_SPACES)
    else None
  }

  /** `!year`: an absent or empty selection. */
  function YearError(v: Option<string>): (r: Option<string>)
    ensures r.Some? <==> v.None? || v.value == ""
    ensures r.Some? ==> r.value == YEAR_MISSING
  {
    if v.None? || v.value == "" then Some(YEAR_MISSING) else None
  }

  /** The four messages `validateForm` records, one for each failing field. */
  predicate ErrorsOf(form: Form, errors: Errors)
  {
    && errors.Keys <= {NAME, LOGIN, PASSWORD, YEAR}
    && (NAME in errors <==> NameError(Get(form, NAME)).Some?)
    && (NAME in errors ==> errors[NAME] == NameError(Get(form, NAME)).value)
    && (LOGIN in errors <==> MyLoginForm.LoginError(Get(form, LOGIN)).Some?)
    && (LOGIN in errors ==> errors[LOGIN] == MyLoginForm.LoginError(Get(form, LOGIN)).value)
    && (PASSWORD in errors <==> MyLoginForm.PasswordError(Get(form, PASSWORD)).Some?)
    && (PASSWORD in errors ==> errors[PASSWORD] == MyLoginForm.PasswordError(Get(form, PASSWORD)).value)
    && (YEAR in errors <==> YearError(Get(form, YEAR)).Some?)
    && (YEAR in errors ==> errors[YEAR] == YEAR_MISSING)
  }

  predicate Acceptable(form: Form)
  {
    && NameError(Get(form, NAME)).None?
    && MyLoginForm.LoginError(Get(form, LOGIN)).None?
    && MyLoginForm.PasswordError(Get(form, PASSWORD)).None?
    && YearError(Get(form, YEAR)).None?
  }

  /** `validateForm`: the record filled field by field, each field by its
      chain above. The login and password chains are word for word those of
      the login form. */
  method ValidateForm(form: Form) returns (newErrors: Errors)
    ensures ErrorsOf(form, newErrors)
    ensures newErrors == map[] <==> Acceptable(form)
  {
    assert NAME != LOGIN && NAME != PASSWORD && NAME != YEAR && LOGIN != PASSWORD && LOGIN != YEAR && PASSWORD != YEAR;
    newErrors := map[];
    var nameError := NameError(Get(form, NAME));
    if nameError.Some? {
      newErrors := newErrors[NAME := nameError.value];
    }
    var loginError := MyLoginForm.LoginError(Get(form, LOGIN));
    if loginError.Some? {
      newErrors := newErrors[LOGIN := loginError.value];
    }
    var passwordError := MyLoginForm.PasswordError(Get(form, PASSWORD));
    if passwordError.Some? {
      newErrors := newErrors[PASSWORD := passwordError.value];
    }
    var yearError := YearError(Get(form, YEAR));
    if yearError.Some? {
      newErrors := newErrors[YEAR := yearError.value];
    }
    if newErrors == map[] {
      assert NAME !in newErrors && LOGIN !in newErrors && PASSWORD !in newErrors && YEAR !in newErrors;
    }
  }

  /** Choosing any offered year satisfies the year rule, and the request
      then carries that year. */
  lemma OfferedYearParses(currentYear: int, y: int)
    requires y in Years(currentYear)
    ensures YearError(Some(IntToString(y))).None?
    ensures ParseIntAuto(IntToString(y)) == Some(y)
  {
    ParseIntAutoToString(y);
    assert currentYear >= FIRST_YEAR;
    assert y >= 0;
  }

  // ---------------------------------------------------------------------------
  // Submission

  /** The body of `userApi.create_user`. */
  datatype CreateUserCall = CreateUserCall(login: string, password: string, name: string, joinYear: Option<int>, ronin: bool)

  /** The request's outcome: success, or the thrown value's message when
      it is an `Error`. */
  datatype ApiOutcome = Created | Failed(message: Option<string>)

  function CallOf(form: Form): CreateUserCall
    requires Acceptable(form)
  {
    CreateUserCall(form[LOGIN], form[PASSWORD], form[NAME], ParseIntAuto(form[YEAR]), Get(form, RONIN) == Some("on"))
  }

  class RegisterFormState {
    var errors: Errors
    var isLoading: bool
    var location: Option<string>

    constructor ()
      ensures errors == map[] && !isLoading && location.None?
    {
      errors := map[];
      isLoading := false;
      location := None;
    }

    /** `onSubmit`: the request is sent only for an acceptable form; a
        success goes to the login page, a failure shows its message. */
    method OnSubmit(form: Form, outcome: ApiOutcome) returns (call: Option<CreateUserCall>)
      modifies this
      ensures call.Some? <==> Acceptable(form)
      ensures call.None? ==> ErrorsOf(form, errors) && errors != map[] && location == old(location)
      ensures call.Some? ==> call.value == CallOf(form)
      ensures call.Some? && outcome.Created? ==> errors == map[] && location == Some(LOGIN_PAGE)
      ensures call.Some? && outcome.Failed? ==>
        errors == map[FORM := outcome.message.GetOr(DEFAULT_FAILURE)] && location == old(location)
      ensures isLoading == (old(isLoading) && call.None?)
    {
      var validationErrors := ValidateForm(form);
      if |validationErrors.Keys| > 0 {
        errors := validationErrors;
        return None;
      }
      errors := map[];
      isLoading := true;
      var joinYear := ParseIntAuto(form[YEAR]);
      call := Some(CreateUserCall(form[LOGIN], form[PASSWORD], form[NAME], joinYear, Get(form, RONIN) == Some("on")));
      match outcome {
        case Created =>
          location := Some(LOGIN_PAGE);
        case Failed(message) =>
          errors := map[FORM := message.GetOr(DEFAULT_FAILURE)];
      }
      isLoading := false;
    }

    method ClearError(field: string)
      modifies this
      ensures errors == MyLoginForm.Cleared(old(errors), field)
      ensures isLoading == old(isLoading) && location == old(location)
    {
      if field in errors && errors[field] != "" {
        errors := errors - {field};
      }
    }
  }
}

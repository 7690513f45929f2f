/** `POST /api/users/create` (src/app/api/users/create/route.ts): the field
    guard in front of `createUser`, and the mapping of its failures to 400
    responses. A body that is not JSON arrives as the parser's error
    message. */
module CreateUserRoute {
  import opened Wrappers
  import opened Text
  import opened Records
  import opened Store
  import UserService
  import MyLoginForm
  import MyRegisterForm

  /** The request body; `login`, `password` and `name` may be missing. */
  datatype CreateBody = CreateBody(login: Option<string>, password: Option<string>, name: Option<string>, joinYear: int, ronin: bool)

  datatype CreateResponse =
    | Created(user: UserService.UserResponseDto)
    | BadRequest(error: string)

  const FIELDS_REQUIRED: string := "Логин и имя обязательны. Пароль обязателен и минимум 8 символов."
  const MIN_PASSWORD: nat := 8

  /** The guard: login, password and name present and non-empty, and a
      password of at least eight UTF-16 code units (`length`). */
  predicate Admissible(body: CreateBody)
  {
    Truthy(body.login) && Truthy(body.password) && Truthy(body.name) && Utf16Length(body.password.value) >= MIN_PASSWORD
  }

  function RequestOf(body: CreateBody): UserService.CreateUserRequest
    requires Admissible(body)
  {
    UserService.CreateUserRequest(body.login.value, body.password.value, body.name.value, body.joinYear, body.ronin)
  }

  /** The response for a parsed body: the guard's 400, or the outcome of
      `createUser` with its error as a 400. */
  function Response(users: seq<User>, nextId: int, parsed: Result<CreateBody>, salt: string, hash: string -> string): (r: CreateResponse)
    ensures parsed.Err? ==> r == BadRequest(parsed.error)
    ensures parsed.Ok? && !Admissible(parsed.value) ==> r == BadRequest(FIELDS_REQUIRED)
    ensures r.Created? ==> (parsed.Ok? && Admissible(parsed.value)
      && UserService.LoginIndex(users, parsed.value.login.value).None?
      && r.user.login == parsed.value.login.value && r.user.id == nextId)
  {
    match parsed
    case Err(e) => BadRequest(e)
    case Ok(body) =>
      if !Admissible(body) then BadRequest(FIELDS_REQUIRED)
      else
        match UserService.CreateUserOutcome(users, nextId, RequestOf(body), salt, hash)
        case Err(e) => BadRequest(e)
        case Ok(u) => Created(UserService.UserToResponseDto(u))
  }

  /** A taken login ignoring case is answered 400 with the service's
      message. */
  lemma TakenLoginIsBadRequest(users: seq<User>, nextId: int, body: CreateBody, salt: string, hash: string -> string)
    requires Admissible(body)
    requires UserService.LoginIndex(users, body.login.value).Some?
    ensures Response(users, nextId, Ok(body), salt, hash) == BadRequest(UserService.LOGIN_TAKEN)
  {
  }

  /** Whatever the registration form lets through also passes the route's
      guard: the form's rules are stricter. */
  lemma FormSubmissionPassesGuard(form: MyRegisterForm.Form, joinYear: int)
    requires MyRegisterForm.Acceptable(form)
    ensures var call := MyRegisterForm.CallOf(form);
      Admissible(CreateBody(Some(call.login), Some(call.password), Some(call.name), joinYear, call.ronin))
  {
    var call := MyRegisterForm.CallOf(form);
    assert MyLoginForm.Get(form, MyLoginForm.LOGIN) == Some(call.login);
    assert !BlankValue(Some(call.login)) && !BlankValue(Some(call.name)) && !BlankValue(Some(call.password));
    TrimEmptyIffBlank(call.login);
    TrimEmptyIffBlank(call.name);
    TrimEmptyIffBlank(call.password);
  }

  /** The converse fails: the route accepts a login of spaces that the form
      reports as empty. */
  lemma GuardAdmitsBlankLogin()
    ensures Admissible(CreateBody(Some("    "), Some("password"), Some("name"), 2024, false))
    ensures MyLoginForm.LoginError(Some("    ")) == Some(MyLoginForm.LOGIN_EMPTY)
  {
    MyLoginForm.SpacesOnlyIsEmpty("    ");
  }

  method Post(db: Database, parsed: Result<CreateBody>, salt: string, hash: string -> string)
    returns (response: CreateResponse)
    requires db.Valid()
    modifies db
    ensures db.Valid()
    ensures response == Response(old(db.users), old(db.nextUserId), parsed, salt, hash)
    ensures response.Created? ==> db.users == old(db.users) + [UserService.CreateUserOutcome(old(db.users), old(db.nextUserId), RequestOf(parsed.value), salt, hash).value]
    ensures !response.Created? ==> db.users == old(db.users) && db.nextUserId == old(db.nextUserId)
    ensures db.models == old(db.models) && db.items == old(db.items) && db.bookings == old(db.bookings)
    ensures db.nextModelId == old(db.nextModelId) && db.nextItemId == old(db.nextItemId)
    ensures db.nextBookingId == old(db.nextBookingId) && db.nextBookingItemId == old(db.nextBookingItemId)
  {
    if parsed.Err? {
      return BadRequest(parsed.error);
    }
    var body := parsed.value;
    if !Truthy(body.login) || !Truthy(body.password) || !Truthy(body.name) || Utf16Length(body.password.value) < MIN_PASSWORD {
      return BadRequest(FIELDS_REQUIRED);
    }
    var user := UserService.CreateUser(db, RequestOf(body), salt, hash);
    match user {
      case Ok(dto) => response := Created(dto);
      case Err(message) => response := BadRequest(message);
    }
  }
}

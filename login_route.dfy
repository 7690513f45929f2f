/** `POST /api/auth/login` (src/app/api/auth/login/route.ts): the checks
    in order (known login, matching password, not banned), the promotion
    of a member whose first year is over from User to Osnova, and the
    tokens. The SHA-256/base64 digest, the access-token signer, the random
    refresh token and the current year are parameters. */
module LoginRoute {
  import opened Wrappers
  import opened Enums
  import opened Records
  import opened Store
  import UserService

  datatype LoginRequest = LoginRequest(login: string, password: string)

  /** The response: 200 with both tokens, or 401 with a message. */
  datatype LoginResponse =
    | Tokens(accessToken: string, refreshToken: string)
    | Unauthorized(error: string)

  const BAD_CREDENTIALS: string := "Неверный логин или пароль"
  const BANNED: string := "Пользователь заблокирован"

  /** The promotion rule: a User whose join year plus one has been reached
      becomes Osnova; every other account is left as it is. */
  function Promoted(u: User, currentYear: int): (r: User)
    ensures u.role == ROLE_USER && u.joinYear + 1 <= currentYear ==> r == u.(role := ROLE_OSNOVA)
    ensures !(u.role == ROLE_USER && u.joinYear + 1 <= currentYear) ==> r == u
  {
    if u.role == ROLE_USER && u.joinYear + 1 <= currentYear then u.(role := ROLE_OSNOVA) else u
  }

  /** Applying the rule twice is applying it once, and it never lowers a
      role or touches anything but the role. */
  lemma PromotionIdempotent(u: User, currentYear: int)
    ensures Promoted(Promoted(u, currentYear), currentYear) == Promoted(u, currentYear)
    ensures Promoted(u, currentYear).role >= u.role
    ensures Promoted(u, currentYear).(role := u.role) == u
  {
  }

  /** The account found for the login has this password and is not banned. */
  predicate MayLogIn(users: seq<User>, body: LoginRequest, digest: string -> string)
  {
    match UserService.LoginIndex(users, body.login)
    case None => false
    case Some(k) => digest(body.password + users[k].salt) == users[k].passwordHash && !users[k].banned
  }

  /** The decision before any write: the index of the account that may log
      in, or the 401 message. */
  function Decide(users: seq<User>, body: LoginRequest, digest: string -> string): (r: Result<nat>)
    ensures r.Ok? ==> r.value < |users|
    ensures UserService.LoginIndex(users, body.login).None? ==> r == Err(BAD_CREDENTIALS)
    ensures r.Ok? <==> MayLogIn(users, body, digest)
    ensures r.Ok? ==> r == Ok(UserService.LoginIndex(users, body.login).value)
  {
    match UserService.LoginIndex(users, body.login)
    case None => Err(BAD_CREDENTIALS)
    case Some(k) =>
      var user := users[k];
      if digest(body.password + user.salt) != user.passwordHash then Err(BAD_CREDENTIALS)
      else if user.banned then Err(BANNED)
      else Ok(k)
  }

  /** An unknown login and a wrong password give the same answer, and a
      banned account is only revealed to someone who knows its password. */
  lemma NoAccountDisclosure(users: seq<User>, body: LoginRequest, digest: string -> string)
    requires UserService.LoginIndex(users, body.login).Some?
    ensures var u := users[UserService.LoginIndex(users, body.login).value];
      Decide(users, body, digest) == Err(BANNED) <==> digest(body.password + u.salt) == u.passwordHash && u.banned
    ensures var u := users[UserService.LoginIndex(users, body.login).value];
      digest(body.password + u.salt) != u.passwordHash ==> Decide(users, body, digest) == Err(BAD_CREDENTIALS)
  {
  }

  method Post(db: Database, body: LoginRequest, digest: string -> string, sign: User -> string,
              newRefreshToken: string, currentYear: int, now: int)
    returns (response: LoginResponse)
    requires db.Valid()
    modifies db
    ensures db.Valid()
    ensures Decide(old(db.users), body, digest).Err? ==>
      response == Unauthorized(Decide(old(db.users), body, digest).error) && db.users == old(db.users)
    ensures Decide(old(db.users), body, digest).Ok? ==>
      var k := Decide(old(db.users), body, digest).value;
      var u := Promoted(old(db.users)[k], currentYear);
      && response == Tokens(sign(u), newRefreshToken)
      && db.users == old(db.users)[k := u.(refreshToken := Some(newRefreshToken),
                                           refreshTokenExpiryTime := Some(now + UserService.REFRESH_TTL_MS))]
    ensures db.nextUserId == old(db.nextUserId) && db.models == old(db.models) && db.items == old(db.items) && db.bookings == old(db.bookings)
    ensures db.nextModelId == old(db.nextModelId) && db.nextItemId == old(db.nextItemId)
    ensures db.nextBookingId == old(db.nextBookingId) && db.nextBookingItemId == old(db.nextBookingItemId)
  {
    var found := UserService.LoginIndex(db.users, body.login);
    if found.None? {
      return Unauthorized(BAD_CREDENTIALS);
    }
    var k := found.value;
    var user := db.users[k];
    if digest(body.password + user.salt) != user.passwordHash {
      return Unauthorized(BAD_CREDENTIALS);
    }
    if user.banned {
      return Unauthorized(BANNED);
    }
    if user.role == ROLE_USER && user.joinYear + 1 <= currentYear {
      user := user.(role := ROLE_OSNOVA);
      db.ReplaceUser(k, user);
    }
    var accessToken := sign(user);
    UserIndexUnique(db.users, db.nextUserId, user.id, k);
    var saved := UserService.SaveRefreshToken(db, user.id, newRefreshToken, now);
    response := Tokens(accessToken, newRefreshToken);
  }
}

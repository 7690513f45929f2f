/** `UserService` (src/services/userService.ts): accounts, the refresh
    token, the Telegram link code and the chat binding, and the role and ban
    setters. Salt generation and SHA-256 hashing are parameters; `now` is
    milliseconds since the epoch. */
module UserService {
  import opened Wrappers
  import opened Text
  import opened Enums
  import opened Records
  import opened Seqs
  import opened Store
  import BookingService

  /** `CreateUserRequestDto`. */
  datatype CreateUserRequest = CreateUserRequest(
    login: string,
    password: string,
    name: string,
    joinYear: int,
    ronin: bool)

  /** `UserResponseDto`; `role` is `UserRole[user.role]`, absent outside 0..3. */
  datatype UserResponseDto = UserResponseDto(
    id: int,
    name: string,
    login: string,
    telegramChatId: Option<int>,
    telegramUsername: Option<string>,
    isTelegramLinked: bool,
    role: Option<string>,
    banned: bool)

  const LOGIN_TAKEN: string := "Пользователь с таким логином уже существует"
  const ALREADY_LINKED: string := "Telegram уже привязан к вашему аккаунту"
  const INVALID_CODE: string := "Неверный код привязки"
  /** The word "истек" that the /start command looks for in an error. */
  const EXPIRED_WORD: string := "истек"
  const CODE_EXPIRED: string := "Срок действия кода " + EXPIRED_WORD + ". Сгенерируйте новый код в личном кабинете"
  const CHAT_LINKED_HERE: string := "Этот Telegram уже привязан к вашему аккаунту"
  const CHAT_LINKED_ELSEWHERE: string := "Этот Telegram уже привязан к другому аккаунту. Обратитесь к администратору"
  /** The error `user.update` raises when no row has the identifier. */
  const RECORD_NOT_FOUND: string := "Record to update not found."

  const REFRESH_TTL_MS: int := 7 * 24 * 60 * 60 * 1000
  const LINK_CODE_TTL_MS: int := 10 * 60 * 1000

  // ---------------------------------------------------------------------------
  // Accounts

  /** `createDtoToUser` with the random salt `salt` and the hash `hash`
      (SHA-256 of password and salt, base64) given. */
  function CreateDtoToUser(id: int, req: CreateUserRequest, salt: string, hash: string -> string): (u: User)
    ensures u.id == id && u.login == req.login && u.name == req.name && u.joinYear == req.joinYear
    ensures u.salt == salt && u.passwordHash == hash(req.password + salt)
    ensures u.role == (if req.ronin then ROLE_RONIN else ROLE_USER)
    ensures u.telegramChatId.None? && u.telegramUsername.None? && !u.banned
    ensures u.telegramLinkCode.None? && u.telegramLinkCodeExpiry.None?
    ensures u.refreshToken.None? && u.refreshTokenExpiryTime.None?
  {
    User(id, req.login, hash(req.password + salt), salt, req.name,
         if req.ronin then ROLE_RONIN else ROLE_USER, req.joinYear,
         None, None, None, None, false, None, None)
  }

  function UserToResponseDto(u: User): (d: UserResponseDto)
    ensures d.isTelegramLinked <==> u.telegramChatId.Some?
    ensures d.role == RoleName(u.role)
    ensures d.id == u.id && d.login == u.login && d.banned == u.banned
    ensures d.name == u.name && d.telegramChatId == u.telegramChatId && d.telegramUsername == u.telegramUsername
  {
    UserResponseDto(u.id, u.name, u.login, u.telegramChatId, u.telegramUsername,
                    u.telegramChatId.Some?, RoleName(u.role), u.banned)
  }

  /** `getByLogin`: the first user whose login equals `login` ignoring case. */
  function LoginIndex(users: seq<User>, login: string): (r: Option<nat>)
    ensures r.Some? ==> r.value < |users| && EqualsIgnoreCase(users[r.value].login, login)
    ensures r.None? <==> forall k :: 0 <= k < |users| ==> !EqualsIgnoreCase(users[k].login, login)
  {
    FirstIndex(users, (u: User) => EqualsIgnoreCase(u.login, login))
  }

  /** No two accounts have logins equal ignoring case. */
  predicate LoginsUnique(users: seq<User>)
  {
    forall k, l :: 0 <= k < l < |users| ==> !EqualsIgnoreCase(users[k].login, users[l].login)
  }

  /** `createUser`: the login check, then the row, with the Admin role for the
      very first account. */
  function CreateUserOutcome(users: seq<User>, nextId: int, req: CreateUserRequest,
                             salt: string, hash: string -> string): (r: Result<User>)
    ensures LoginIndex(users, req.login).Some? <==> r == Err(LOGIN_TAKEN)
    ensures r.Ok? ==> r.value.id == nextId && r.value.login == req.login
  {
    if LoginIndex(users, req.login).Some? then Err(LOGIN_TAKEN)
    else
      var row := CreateDtoToUser(nextId, req, salt, hash);
      Ok(if |users| == 0 then row.(role := ROLE_ADMIN) else row)
  }

  /** The role of a new account: Admin for the first, otherwise Ronin or User
      by the request's flag. The account starts unbanned and unlinked. */
  lemma NewUserRole(users: seq<User>, nextId: int, req: CreateUserRequest, salt: string, hash: string -> string)
    requires CreateUserOutcome(users, nextId, req, salt, hash).Ok?
    ensures var u := CreateUserOutcome(users, nextId, req, salt, hash).value;
      && u.role == (if |users| == 0 then ROLE_ADMIN else if req.ronin then ROLE_RONIN else ROLE_USER)
      && !u.banned && u.telegramChatId.None? && u.telegramUsername.None?
  {
  }

  /** Creating an account keeps logins unique ignoring case. */
  lemma CreateKeepsLoginsUnique(users: seq<User>, nextId: int, req: CreateUserRequest, salt: string, hash: string -> string)
    requires LoginsUnique(users)
    requires CreateUserOutcome(users, nextId, req, salt, hash).Ok?
    ensures LoginsUnique(users + [CreateUserOutcome(users, nextId, req, salt, hash).value])
  {
    var u := CreateUserOutcome(users, nextId, req, salt, hash).value;
    var t := users + [u];
    forall k, l | 0 <= k < l < |t|
      ensures !EqualsIgnoreCase(t[k].login, t[l].login)
    {
      assert t[k] == users[k];
      if l < |users| {
        assert t[l] == users[l];
      }
    }
  }

  method CreateUser(db: Database, req: CreateUserRequest, salt: string, hash: string -> string)
    returns (r: Result<UserResponseDto>)
    requires db.Valid()
    modifies db
    ensures db.Valid()
    ensures var o := CreateUserOutcome(old(db.users), old(db.nextUserId), req, salt, hash);
      && (o.Err? ==> r == Err(o.error) && db.users == old(db.users) && db.nextUserId == old(db.nextUserId))
      && (o.Ok? ==> r == Ok(UserToResponseDto(o.value)) && db.users == old(db.users) + [o.value]
                    && db.nextUserId == old(db.nextUserId) + 1)
    ensures db.models == old(db.models) && db.items == old(db.items) && db.bookings == old(db.bookings)
    ensures db.nextModelId == old(db.nextModelId) && db.nextItemId == old(db.nextItemId)
    ensures db.nextBookingId == old(db.nextBookingId) && db.nextBookingItemId == old(db.nextBookingItemId)
  {
    var existing := LoginIndex(db.users, req.login);
    if existing.Some? {
      return Err(LOGIN_TAKEN);
    }
    var userData := CreateDtoToUser(db.nextUserId, req, salt, hash);
    var userCount := |db.users|;
    if userCount == 0 {
      userData := userData.(role := ROLE_ADMIN);
    }
    db.InsertUser(userData);
    r := Ok(UserToResponseDto(userData));
  }

  // ---------------------------------------------------------------------------
  // Refresh tokens

  /** `saveRefreshToken`: the token and an expiry seven days on. */
  method SaveRefreshToken(db: Database, userId: int, token: string, now: int) returns (r: Result<()>)
    requires db.Valid()
    modifies db
    ensures db.Valid()
    ensures UserIndex(old(db.users), userId).None? ==> r == Err(RECORD_NOT_FOUND) && db.users == old(db.users)
    ensures UserIndex(old(db.users), userId).Some? ==>
      var k := UserIndex(old(db.users), userId).value;
      && r == Ok(())
      && db.users == old(db.users)[k := old(db.users)[k].(refreshToken := Some(token), refreshTokenExpiryTime := Some(now + REFRESH_TTL_MS))]
    ensures db.nextUserId == old(db.nextUserId) && db.models == old(db.models) && db.items == old(db.items) && db.bookings == old(db.bookings)
    ensures db.nextModelId == old(db.nextModelId) && db.nextItemId == old(db.nextItemId)
    ensures db.nextBookingId == old(db.nextBookingId) && db.nextBookingItemId == old(db.nextBookingItemId)
  {
    var k := UserIndex(db.users, userId);
    if k.None? {
      return Err(RECORD_NOT_FOUND);
    }
    var u := db.users[k.value];
    db.ReplaceUser(k.value, u.(refreshToken := Some(token), refreshTokenExpiryTime := Some(now + REFRESH_TTL_MS)));
    r := Ok(());
  }

  /** The `where` clause of `getByRefreshToken`. */
  predicate RefreshTokenValid(u: User, token: string, now: int)
  {
    u.refreshToken == Some(token) && u.refreshTokenExpiryTime.Some? && u.refreshTokenExpiryTime.value > now
  }

  /** `getByRefreshToken`: the first user holding the token with an expiry
      strictly after `now`. */
  function GetByRefreshToken(users: seq<User>, token: string, now: int): (r: Option<User>)
    ensures r.Some? ==> r.value in users && RefreshTokenValid(r.value, token, now)
    ensures r.None? <==> forall k :: 0 <= k < |users| ==> !RefreshTokenValid(users[k], token, now)
  {
    match FirstIndex(users, (u: User) => RefreshTokenValid(u, token, now))
    case None => None
    case Some(k) => Some(users[k])
  }

  /** A saved token is accepted for seven days and refused from the instant
      its expiry is reached. */
  lemma SavedTokenLifetime(u: User, token: string, saved: int, now: int)
    ensures var v := u.(refreshToken := Some(token), refreshTokenExpiryTime := Some(saved + REFRESH_TTL_MS));
      RefreshTokenValid(v, token, now) <==> now < saved + REFRESH_TTL_MS
  {
  }

  // ---------------------------------------------------------------------------
  // Telegram link codes

  /** `if (user.telegramChatId)`: a bigint chat id is truthy unless 0. */
  predicate ChatIdTruthy(chatId: Option<int>)
  {
    chatId.Some? && chatId.value != 0
  }

  /** `generateTelegramLinkCode`; `choice` is the value of
      `Math.floor(100000 + Math.random() * 900000)`. */
  method GenerateTelegramLinkCode(db: Database, userId: int, choice: int, now: int) returns (r: Result<string>)
    requires db.Valid()
    requires 100000 <= choice <= 999999
    modifies db
    ensures db.Valid()
    ensures UserIndex(old(db.users), userId).None? ==> r == Err(BookingService.USER_NOT_FOUND) && db.users == old(db.users)
    ensures UserIndex(old(db.users), userId).Some? ==>
      var k := UserIndex(old(db.users), userId).value;
      var u := old(db.users)[k];
      && (ChatIdTruthy(u.telegramChatId) ==> r == Err(ALREADY_LINKED) && db.users == old(db.users))
      && (!ChatIdTruthy(u.telegramChatId) ==>
            && r == Ok(NatToString(choice))
            && db.users == old(db.users)[k := u.(telegramLinkCode := Some(NatToString(choice)),
                                                 telegramLinkCodeExpiry := Some(now + LINK_CODE_TTL_MS))])
    ensures r.Ok? ==> |r.value| == 6 && AllDigits(r.value) && DigitsValue(r.value) == choice
    ensures db.nextUserId == old(db.nextUserId) && db.models == old(db.models) && db.items == old(db.items) && db.bookings == old(db.bookings)
    ensures db.nextModelId == old(db.nextModelId) && db.nextItemId == old(db.nextItemId)
    ensures db.nextBookingId == old(db.nextBookingId) && db.nextBookingItemId == old(db.nextBookingItemId)
  {
    var k := UserIndex(db.users, userId);
    if k.None? {
      return Err(BookingService.USER_NOT_FOUND);
    }
    var u := db.users[k.value];
    if ChatIdTruthy(u.telegramChatId) {
      return Err(ALREADY_LINKED);
    }
    var code := NatToString(choice);
    SixDigitLength(choice);
    NatToStringValue(choice);
    db.ReplaceUser(k.value, u.(telegramLinkCode := Some(code), telegramLinkCodeExpiry := Some(now + LINK_CODE_TTL_MS)));
    r := Ok(code);
  }

  /** `findFirst` by link code. */
  function CodeIndex(users: seq<User>, code: string): (r: Option<nat>)
    ensures r.Some? ==> r.value < |users| && users[r.value].telegramLinkCode == Some(code)
    ensures r.None? <==> forall k :: 0 <= k < |users| ==> users[k].telegramLinkCode != Some(code)
  {
    FirstIndex(users, (u: User) => u.telegramLinkCode == Some(code))
  }

  /** `getUserByTelegramChatId` and the other `findFirst` by chat id. */
  function ChatIndex(users: seq<User>, chatId: int): (r: Option<nat>)
    ensures r.Some? ==> r.value < |users| && users[r.value].telegramChatId == Some(chatId)
    ensures r.None? <==> forall k :: 0 <= k < |users| ==> users[k].telegramChatId != Some(chatId)
  {
    FirstIndex(users, (u: User) => u.telegramChatId == Some(chatId))
  }

  /** No chat is bound to two accounts. */
  predicate ChatIdsUnique(users: seq<User>)
  {
    forall k, l :: 0 <= k < l < |users| && users[k].telegramChatId.Some? ==> users[k].telegramChatId != users[l].telegramChatId
  }

  /** The user row after a successful link. */
  function Linked(u: User, chatId: int, username: Option<string>): (r: User)
    ensures r.telegramChatId == Some(chatId) && r.telegramUsername == username
    ensures r.telegramLinkCode.None? && r.telegramLinkCodeExpiry.None?
    ensures r.(telegramChatId := u.telegramChatId, telegramUsername := u.telegramUsername,
               telegramLinkCode := u.telegramLinkCode, telegramLinkCodeExpiry := u.telegramLinkCodeExpiry) == u
  {
    u.(telegramChatId := Some(chatId), telegramUsername := username, telegramLinkCode := None, telegramLinkCodeExpiry := None)
  }

  /** `linkTelegramByCode` over the user table: the index of the account to
      update, or the error. */
  function LinkOutcome(users: seq<User>, code: string, chatId: int, now: int): (r: Result<nat>)
    ensures CodeIndex(users, code).None? ==> r == Err(INVALID_CODE)
    ensures r.Ok? ==> r.value < |users| && CodeIndex(users, code) == Some(r.value)
    ensures r.Ok? ==> (users[r.value].telegramLinkCodeExpiry.Some? && users[r.value].telegramLinkCodeExpiry.value >= now)
    ensures r.Ok? <==> (CodeIndex(users, code).Some?
                        && users[CodeIndex(users, code).value].telegramLinkCodeExpiry.Some?
                        && users[CodeIndex(users, code).value].telegramLinkCodeExpiry.value >= now
                        && ChatIndex(users, chatId).None?)
  {
    match CodeIndex(users, code)
    case None => Err(INVALID_CODE)
    case Some(k) =>
      var u := users[k];
      if u.telegramLinkCodeExpiry.None? || u.telegramLinkCodeExpiry.value < now then Err(CODE_EXPIRED)
      else match ChatIndex(users, chatId)
        case Some(j) => if users[j].id == u.id then Err(CHAT_LINKED_HERE) else Err(CHAT_LINKED_ELSEWHERE)
        case None => Ok(k)
  }

  /** The chat check tells the two refusals apart by whose account holds the
      chat. */
  lemma LinkRefusalNamesTheHolder(users: seq<User>, code: string, chatId: int, now: int)
    requires CodeIndex(users, code).Some?
    requires var u := users[CodeIndex(users, code).value];
      u.telegramLinkCodeExpiry.Some? && u.telegramLinkCodeExpiry.value >= now
    requires ChatIndex(users, chatId).Some?
    ensures var holder := users[ChatIndex(users, chatId).value];
      var u := users[CodeIndex(users, code).value];
      LinkOutcome(users, code, chatId, now) == Err(if holder.id == u.id then CHAT_LINKED_HERE else CHAT_LINKED_ELSEWHERE)
  {
  }

  /** Binding a chat that no account holds keeps every chat bound to at most
      one account. */
  lemma BindFreeChatKeepsChatIdsUnique(users: seq<User>, k: nat, chatId: int, username: Option<string>)
    requires ChatIdsUnique(users) && k < |users| && ChatIndex(users, chatId).None?
    ensures ChatIdsUnique(users[k := Linked(users[k], chatId, username)])
  {
    var t := users[k := Linked(users[k], chatId, username)];
    forall a, b | 0 <= a < b < |t| && t[a].telegramChatId.Some?
      ensures t[a].telegramChatId != t[b].telegramChatId
    {
      if a == k {
        assert t[b] == users[b];
      } else if b == k {
        assert t[a] == users[a];
      } else {
        assert t[a] == users[a] && t[b] == users[b];
      }
    }
  }

  /** Linking keeps every chat bound to at most one account. */
  lemma LinkKeepsChatIdsUnique(users: seq<User>, code: string, chatId: int, username: Option<string>, now: int)
    requires ChatIdsUnique(users)
    requires LinkOutcome(users, code, chatId, now).Ok?
    ensures var k := LinkOutcome(users, code, chatId, now).value;
      ChatIdsUnique(users[k := Linked(users[k], chatId, username)])
  {
    BindFreeChatKeepsChatIdsUnique(users, LinkOutcome(users, code, chatId, now).value, chatId, username);
  }

  method LinkTelegramByCode(db: Database, code: string, chatId: int, username: Option<string>, now: int)
    returns (r: Result<User>)
    requires db.Valid()
    modifies db
    ensures db.Valid()
    ensures var o := LinkOutcome(old(db.users), code, chatId, now);
      && (o.Err? ==> r == Err(o.error) && db.users == old(db.users))
      && (o.Ok? ==> r == Ok(Linked(old(db.users)[o.value], chatId, username))
                    && db.users == old(db.users)[o.value := r.value])
    ensures db.nextUserId == old(db.nextUserId) && db.models == old(db.models) && db.items == old(db.items) && db.bookings == old(db.bookings)
    ensures db.nextModelId == old(db.nextModelId) && db.nextItemId == old(db.nextItemId)
    ensures db.nextBookingId == old(db.nextBookingId) && db.nextBookingItemId == old(db.nextBookingItemId)
  {
    var found := CodeIndex(db.users, code);
    if found.None? {
      return Err(INVALID_CODE);
    }
    var k := found.value;
    var u := db.users[k];
    if u.telegramLinkCodeExpiry.None? || u.telegramLinkCodeExpiry.value < now {
      return Err(CODE_EXPIRED);
    }
    var existingLink := ChatIndex(db.users, chatId);
    if existingLink.Some? {
      if db.users[existingLink.value].id == u.id {
        return Err(CHAT_LINKED_HERE);
      } else {
        return Err(CHAT_LINKED_ELSEWHERE);
      }
    }
    var updated := Linked(u, chatId, username);
    db.ReplaceUser(k, updated);
    r := Ok(updated);
  }

  /** The user row after `unlinkTelegram`. */
  function Unlinked(u: User): (v: User)
    ensures v.telegramChatId.None? && v.telegramUsername.None?
    ensures v.telegramLinkCode.None? && v.telegramLinkCodeExpiry.None?
    ensures v.(telegramChatId := u.telegramChatId, telegramUsername := u.telegramUsername,
               telegramLinkCode := u.telegramLinkCode, telegramLinkCodeExpiry := u.telegramLinkCodeExpiry) == u
  {
    u.(telegramChatId := None, telegramUsername := None, telegramLinkCode := None, telegramLinkCodeExpiry := None)
  }

  /** Unlinking after linking leaves the account with no chat, no code and
      every other field as before the link. */
  lemma UnlinkUndoesLink(u: User, chatId: int, username: Option<string>)
    ensures Unlinked(Linked(u, chatId, username)) == Unlinked(u)
  {
  }

  method UnlinkTelegram(db: Database, userId: int) returns (r: Result<bool>)
    requires db.Valid()
    modifies db
    ensures db.Valid()
    ensures UserIndex(old(db.users), userId).None? ==> r == Err(BookingService.USER_NOT_FOUND) && db.users == old(db.users)
    ensures UserIndex(old(db.users), userId).Some? ==>
      var k := UserIndex(old(db.users), userId).value;
      r == Ok(true) && db.users == old(db.users)[k := Unlinked(old(db.users)[k])]
    ensures db.nextUserId == old(db.nextUserId) && db.models == old(db.models) && db.items == old(db.items) && db.bookings == old(db.bookings)
    ensures db.nextModelId == old(db.nextModelId) && db.nextItemId == old(db.nextItemId)
    ensures db.nextBookingId == old(db.nextBookingId) && db.nextBookingItemId == old(db.nextBookingItemId)
  {
    var k := UserIndex(db.users, userId);
    if k.None? {
      return Err(BookingService.USER_NOT_FOUND);
    }
    db.ReplaceUser(k.value, Unlinked(db.users[k.value]));
    r := Ok(true);
  }

  /** Unlinking keeps every chat bound to at most one account. */
  lemma UnlinkKeepsChatIdsUnique(users: seq<User>, k: nat)
    requires ChatIdsUnique(users) && k < |users|
    ensures ChatIdsUnique(users[k := Unlinked(users[k])])
  {
    var t := users[k := Unlinked(users[k])];
    forall a, b | 0 <= a < b < |t| && t[a].telegramChatId.Some?
      ensures t[a].telegramChatId != t[b].telegramChatId
    {
      assert t[a] == users[a];
      if b != k {
        assert t[b] == users[b];
      }
    }
  }

  /** `updateTelegramUsername`: a write only when the name differs. */
  method UpdateTelegramUsername(db: Database, chatId: int, newUsername: Option<string>)
    requires db.Valid()
    modifies db
    ensures db.Valid()
    ensures var k := ChatIndex(old(db.users), chatId);
      if k.Some? && old(db.users)[k.value].telegramUsername != newUsername
      then db.users == old(db.users)[k.value := old(db.users)[k.value].(telegramUsername := newUsername)]
      else db.users == old(db.users)
    ensures db.nextUserId == old(db.nextUserId) && db.models == old(db.models) && db.items == old(db.items) && db.bookings == old(db.bookings)
    ensures db.nextModelId == old(db.nextModelId) && db.nextItemId == old(db.nextItemId)
    ensures db.nextBookingId == old(db.nextBookingId) && db.nextBookingItemId == old(db.nextBookingItemId)
  {
    var k := ChatIndex(db.users, chatId);
    if k.Some? && db.users[k.value].telegramUsername != newUsername {
      db.ReplaceUser(k.value, db.users[k.value].(telegramUsername := newUsername));
    }
  }

  /** `generateTelegramDeepLink`: one leading '@' of the bot name is dropped. */
  function StripAt(bot: string): (r: string)
    ensures |bot| > 0 && bot[0] == '@' ==> r == bot[1..]
    ensures (|bot| == 0 || bot[0] != '@') ==> r == bot
  {
    if |bot| > 0 && bot[0] == '@' then bot[1..] else bot
  }

  const DEEP_LINK_HOST: string := "https://t.me/"
  const START_PREFIX: string := "LINK_"

  /** The `start` parameter of the deep link, which Telegram hands back to
      the bot as the argument of `/start`. */
  function DeepLinkParameter(code: string): string
  {
    START_PREFIX + code
  }

  function GenerateTelegramDeepLink(code: string, bot: string): (r: string)
    ensures StartsWith(r, DEEP_LINK_HOST)
    ensures r == DEEP_LINK_HOST + StripAt(bot) + "?start=" + DeepLinkParameter(code)
  {
    DEEP_LINK_HOST + StripAt(bot) + "?start=" + DeepLinkParameter(code)
  }

  /** A bot name given with or without its '@' yields the same link. */
  lemma DeepLinkIgnoresAt(code: string, bot: string)
    requires |bot| == 0 || bot[0] != '@'
    ensures GenerateTelegramDeepLink(code, ['@'] + bot) == GenerateTelegramDeepLink(code, bot)
  {
    assert (['@'] + bot)[1..] == bot;
  }

  // ---------------------------------------------------------------------------
  // Ban and role setters, deletion

  /** The shared shape of banUser, unbanUser, makeAdmin, grantRonin and
      makeUser: false and no change for a missing user, otherwise row `k`
      replaced by `f(row)` and true. */
  method UpdateUserField(db: Database, userId: int, f: User -> User) returns (found: bool)
    requires db.Valid()
    requires forall u :: f(u).id == u.id
    modifies db
    ensures db.Valid()
    ensures found <==> UserIndex(old(db.users), userId).Some?
    ensures !found ==> db.users == old(db.users)
    ensures found ==> var k := UserIndex(old(db.users), userId).value;
      db.users == old(db.users)[k := f(old(db.users)[k])]
    ensures db.nextUserId == old(db.nextUserId) && db.models == old(db.models) && db.items == old(db.items) && db.bookings == old(db.bookings)
    ensures db.nextModelId == old(db.nextModelId) && db.nextItemId == old(db.nextItemId)
    ensures db.nextBookingId == old(db.nextBookingId) && db.nextBookingItemId == old(db.nextBookingItemId)
  {
    var k := UserIndex(db.users, userId);
    if k.None? {
      return false;
    }
    db.ReplaceUser(k.value, f(db.users[k.value]));
    found := true;
  }

  function WithBanned(b: bool): User -> User
  {
    (u: User) => u.(banned := b)
  }

  function WithRole(role: int): User -> User
  {
    (u: User) => u.(role := role)
  }

  method BanUser(db: Database, userId: int) returns (found: bool)
    requires db.Valid()
    modifies db
    ensures db.Valid()
    ensures found <==> UserIndex(old(db.users), userId).Some?
    ensures !found ==> db.users == old(db.users)
    ensures found ==> var k := UserIndex(old(db.users), userId).value;
      db.users == old(db.users)[k := old(db.users)[k].(banned := true)]
    ensures db.nextUserId == old(db.nextUserId) && db.models == old(db.models) && db.items == old(db.items) && db.bookings == old(db.bookings)
    ensures db.nextModelId == old(db.nextModelId) && db.nextItemId == old(db.nextItemId)
    ensures db.nextBookingId == old(db.nextBookingId) && db.nextBookingItemId == old(db.nextBookingItemId)
  {
    found := UpdateUserField(db, userId, WithBanned(true));
  }

  method UnbanUser(db: Database, userId: int) returns (found: bool)
    requires db.Valid()
    modifies db
    ensures db.Valid()
    ensures found <==> UserIndex(old(db.users), userId).Some?
    ensures !found ==> db.users == old(db.users)
    ensures found ==> var k := UserIndex(old(db.users), userId).value;
      db.users == old(db.users)[k := old(db.users)[k].(banned := false)]
    ensures db.nextUserId == old(db.nextUserId) && db.models == old(db.models) && db.items == old(db.items) && db.bookings == old(db.bookings)
    ensures db.nextModelId == old(db.nextModelId) && db.nextItemId == old(db.nextItemId)
    ensures db.nextBookingId == old(db.nextBookingId) && db.nextBookingItemId == old(db.nextBookingItemId)
  {
    found := UpdateUserField(db, userId, WithBanned(false));
  }

  /** makeAdmin, grantRonin and makeUser with their role constant. */
  method SetRole(db: Database, userId: int, role: int) returns (found: bool)
    requires db.Valid()
    modifies db
    ensures db.Valid()
    ensures found <==> UserIndex(old(db.users), userId).Some?
    ensures !found ==> db.users == old(db.users)
    ensures found ==> var k := UserIndex(old(db.users), userId).value;
      db.users == old(db.users)[k := old(db.users)[k].(role := role)]
    ensures db.nextUserId == old(db.nextUserId) && db.models == old(db.models) && db.items == old(db.items) && db.bookings == old(db.bookings)
    ensures db.nextModelId == old(db.nextModelId) && db.nextItemId == old(db.nextItemId)
    ensures db.nextBookingId == old(db.nextBookingId) && db.nextBookingItemId == old(db.nextBookingItemId)
  {
    found := UpdateUserField(db, userId, WithRole(role));
  }

  method MakeAdmin(db: Database, userId: int) returns (found: bool)
    requires db.Valid()
    modifies db
    ensures db.Valid()
    ensures found <==> UserIndex(old(db.users), userId).Some?
    ensures !found ==> db.users == old(db.users)
    ensures found ==> var k := UserIndex(old(db.users), userId).value;
      db.users == old(db.users)[k := old(db.users)[k].(role := ROLE_ADMIN)]
    ensures db.nextUserId == old(db.nextUserId) && db.models == old(db.models) && db.items == old(db.items) && db.bookings == old(db.bookings)
    ensures db.nextModelId == old(db.nextModelId) && db.nextItemId == old(db.nextItemId)
    ensures db.nextBookingId == old(db.nextBookingId) && db.nextBookingItemId == old(db.nextBookingItemId)
  {
    found := SetRole(db, userId, ROLE_ADMIN);
  }

  method GrantRonin(db: Database, userId: int) returns (found: bool)
    requires db.Valid()
    modifies db
    ensures db.Valid()
    ensures found <==> UserIndex(old(db.users), userId).Some?
    ensures !found ==> db.users == old(db.users)
    ensures found ==> var k := UserIndex(old(db.users), userId).value;
      db.users == old(db.users)[k := old(db.users)[k].(role := ROLE_RONIN)]
    ensures db.nextUserId == old(db.nextUserId) && db.models == old(db.models) && db.items == old(db.items) && db.bookings == old(db.bookings)
    ensures db.nextModelId == old(db.nextModelId) && db.nextItemId == old(db.nextItemId)
    ensures db.nextBookingId == old(db.nextBookingId) && db.nextBookingItemId == old(db.nextBookingItemId)
  {
    found := SetRole(db, userId, ROLE_RONIN);
  }

  method MakeUser(db: Database, userId: int) returns (found: bool)
    requires db.Valid()
    modifies db
    ensures db.Valid()
    ensures found <==> UserIndex(old(db.users), userId).Some?
    ensures !found ==> db.users == old(db.users)
    ensures found ==> var k := UserIndex(old(db.users), userId).value;
      db.users == old(db.users)[k := old(db.users)[k].(role := ROLE_USER)]
    ensures db.nextUserId == old(db.nextUserId) && db.models == old(db.models) && db.items == old(db.items) && db.bookings == old(db.bookings)
    ensures db.nextModelId == old(db.nextModelId) && db.nextItemId == old(db.nextItemId)
    ensures db.nextBookingId == old(db.nextBookingId) && db.nextBookingItemId == old(db.nextBookingItemId)
  {
    found := SetRole(db, userId, ROLE_USER);
  }

  method DeleteUser(db: Database, userId: int) returns (found: bool)
    requires db.Valid()
    modifies db
    ensures db.Valid()
    ensures found <==> UserIndex(old(db.users), userId).Some?
    ensures !found ==> db.users == old(db.users)
    ensures found ==> var k := UserIndex(old(db.users), userId).value;
      db.users == old(db.users)[..k] + old(db.users)[k + 1..]
    ensures db.nextUserId == old(db.nextUserId) && db.models == old(db.models) && db.items == old(db.items) && db.bookings == old(db.bookings)
    ensures db.nextModelId == old(db.nextModelId) && db.nextItemId == old(db.nextItemId)
    ensures db.nextBookingId == old(db.nextBookingId) && db.nextBookingItemId == old(db.nextBookingItemId)
  {
    var k := UserIndex(db.users, userId);
    if k.None? {
      return false;
    }
    db.RemoveUser(k.value);
    found := true;
  }

  /** With unique identifiers, deleting a user leaves no row with its id and
      every other row in place. */
  lemma DeleteRemovesOnlyThatUser(users: seq<User>, next: int, userId: int)
    requires UserIdsOk(users, next) && UserIndex(users, userId).Some?
    ensures var k := UserIndex(users, userId).value;
      var after := users[..k] + users[k + 1..];
      && UserIndex(after, userId).None?
      && (forall u :: u in after <==> u in users && u.id != userId)
  {
    var k := UserIndex(users, userId).value;
    var after := users[..k] + users[k + 1..];
    assert forall i :: 0 <= i < |after| ==> after[i] == if i < k then users[i] else users[i + 1];
    forall u | u in users && u.id != userId
      ensures u in after
    {
      var i :| 0 <= i < |users| && users[i] == u;
      if i < k {
        assert after[i] == u;
      } else {
        assert i != k;
        assert after[i - 1] == u;
      }
    }
  }
}

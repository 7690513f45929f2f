/** The bot's `/link КОД` command (src/lib/telegram/commands/link.ts): the
    argument and code checks, its own copy of the code-to-chat binding, and
    the reply chosen for each outcome. Sending the reply is left to the
    caller; the command returns which reply it sends. */
module LinkCommand {
  import opened Wrappers
  import opened Text
  import opened Enums
  import opened Records
  import opened Seqs
  import opened Store
  import UserService

  /** The replies of `executeAsync`, one per branch. */
  datatype LinkReply =
    | FormatHelp                   // "Неверный формат команды" with the usage line
    | CodeFormatHelp               // "Код должен состоять из 6 цифр"
    | LinkedReply(name: string, login: string, telegram: string, roleName: string)
    | InvalidCodeReply             // "Неверный код привязки"
    | ErrorReply(text: string)     // the error message without its tag
    | FailureReply                 // the generic "Произошла ошибка" text

  /** The outcome of the two argument checks. */
  datatype Parsed = BadFormat | BadCode | Code(code: string)

  /** What the private `linkTelegramByCode` returns. */
  datatype LinkedSummary = LinkedSummary(name: string, login: string, role: int)

  const CODE_NOT_FOUND: string := "CODE_NOT_FOUND"
  const ALREADY_LINKED_TAG: string := "ALREADY_LINKED"
  const ALREADY_LINKED_PREFIX: string := ALREADY_LINKED_TAG + ": "
  const ACCOUNT_LINKED: string := ALREADY_LINKED_PREFIX + "Этот аккаунт уже привязан к Telegram"
  const CHAT_LINKED: string := ALREADY_LINKED_PREFIX + "Этот Telegram уже привязан к другому аккаунту"
  const ADMIN_LABEL: string := "Администратор"
  const USER_LABEL: string := "Пользователь"
  const NO_USERNAME: string := "не установлен"

  // ---------------------------------------------------------------------------
  // Argument checks

  /** `text?.split(' ').filter(p => p.length > 0)`; absent without a text. */
  function Arguments(text: Option<string>): (r: Option<seq<string>>)
    ensures r.Some? <==> text.Some?
    ensures r.Some? ==> forall k :: 0 <= k < |r.value| ==> r.value[k] != [] && ' ' !in r.value[k]
  {
    match text
    case None => None
    case Some(t) =>
      var parts := Filter(Split(t, ' '), (p: string) => |p| > 0);
      assert forall k :: 0 <= k < |parts| ==> parts[k] in Split(t, ' ');
      Some(parts)
  }

  /** The two checks before any lookup: exactly two words, and a second
      word of exactly six ASCII digits. */
  function ParseCode(text: Option<string>): (r: Parsed)
    ensures r.Code? ==> |r.code| == 6 && AllDigits(r.code)
    ensures r.Code? ==> Arguments(text).Some? && |Arguments(text).value| == 2 && Arguments(text).value[1] == r.code
    ensures r.BadFormat? <==> Arguments(text).None? || |Arguments(text).value| != 2
  {
    match Arguments(text)
    case None => BadFormat
    case Some(parts) =>
      if |parts| != 2 then BadFormat
      else if |parts[1]| != 6 || !AllDigits(parts[1]) then BadCode
      else Code(parts[1])
  }

  /** `/link <code>` with a six-digit code passes both checks with that code. */
  lemma CommandWithSixDigitsParses(code: string)
    requires |code| == 6 && AllDigits(code)
    ensures ParseCode(Some("/link " + code)) == Code(code)
  {
    var parts := ["/link", code];
    assert ' ' !in code by {
      forall i | 0 <= i < |code| ensures code[i] != ' ' {
        assert IsDigit(code[i]);
      }
    }
    assert ' ' !in "/link";
    Text.SplitJoin(parts, ' ');
    assert Join(parts, [' ']) == "/link" + [' '] + Join([code], [' ']);
    assert Join(parts, [' ']) == "/link " + code;
    assert Split("/link " + code, ' ') == parts;
    FilterAll(parts, (p: string) => |p| > 0);
  }

  // ---------------------------------------------------------------------------
  // The binding

  /** The `findFirst` on code and `telegramLinkCodeExpiry >= now`: a null
      expiry never matches. */
  predicate LiveCode(u: User, code: string, now: int)
  {
    u.telegramLinkCode == Some(code) && u.telegramLinkCodeExpiry.Some? && u.telegramLinkCodeExpiry.value >= now
  }

  function LiveCodeIndex(users: seq<User>, code: string, now: int): (r: Option<nat>)
    ensures r.Some? ==> r.value < |users| && LiveCode(users[r.value], code, now)
    ensures r.Some? ==> forall k :: 0 <= k < r.value ==> !LiveCode(users[k], code, now)
    ensures r.None? <==> forall k :: 0 <= k < |users| ==> !LiveCode(users[k], code, now)
  {
    FirstIndex(users, (u: User) => LiveCode(u, code, now))
  }

  /** `username || null`: an empty name is stored as null. */
  function StoredUsername(username: Option<string>): (r: Option<string>)
    ensures r.Some? ==> r.value != []
    ensures username.Some? && username.value != [] ==> r == username
  {
    if username.Some? && username.value != [] then username else None
  }

  /** The private `linkTelegramByCode`: the index of the account to bind, or
      the error it throws, in its order of checks. */
  function CommandLinkOutcome(users: seq<User>, code: string, chatId: int, now: int): (r: Result<nat>)
    ensures r.Ok? ==> r.value < |users| && LiveCodeIndex(users, code, now) == Some(r.value)
    ensures r.Ok? <==> (LiveCodeIndex(users, code, now).Some?
                        && users[LiveCodeIndex(users, code, now).value].telegramChatId.None?
                        && UserService.ChatIndex(users, chatId).None?)
    ensures LiveCodeIndex(users, code, now).None? ==> r == Err(CODE_NOT_FOUND)
    ensures (LiveCodeIndex(users, code, now).Some?
             && users[LiveCodeIndex(users, code, now).value].telegramChatId.Some?) ==> r == Err(ACCOUNT_LINKED)
  {
    match LiveCodeIndex(users, code, now)
    case None => Err(CODE_NOT_FOUND)
    case Some(k) =>
      if users[k].telegramChatId.Some? then Err(ACCOUNT_LINKED)
      else if UserService.ChatIndex(users, chatId).Some? then Err(CHAT_LINKED)
      else Ok(k)
  }

  /** The command's binding keeps every chat bound to at most one account. */
  lemma CommandLinkKeepsChatIdsUnique(users: seq<User>, code: string, chatId: int, username: Option<string>, now: int)
    requires UserService.ChatIdsUnique(users)
    requires CommandLinkOutcome(users, code, chatId, now).Ok?
    ensures var k := CommandLinkOutcome(users, code, chatId, now).value;
      UserService.ChatIdsUnique(users[k := UserService.Linked(users[k], chatId, StoredUsername(username))])
  {
    UserService.BindFreeChatKeepsChatIdsUnique(users, CommandLinkOutcome(users, code, chatId, now).value, chatId, StoredUsername(username));
  }

  /** The command refuses to rebind an account that already has a chat,
      while the service's `linkTelegramByCode` (used by `/start`) binds it
      to the new chat. */
  lemma CommandAndServiceDisagreeOnRelink(users: seq<User>, code: string, chatId: int, now: int, k: nat)
    requires k < |users| && UserService.CodeIndex(users, code) == Some(k)
    requires LiveCode(users[k], code, now) && users[k].telegramChatId.Some?
    requires UserService.ChatIndex(users, chatId).None?
    ensures UserService.LinkOutcome(users, code, chatId, now) == Ok(k)
    ensures CommandLinkOutcome(users, code, chatId, now) == Err(ACCOUNT_LINKED)
  {
    assert LiveCodeIndex(users, code, now) == Some(k);
  }

  method LinkTelegramByCode(db: Database, code: string, chatId: int, username: Option<string>, now: int)
    returns (r: Result<LinkedSummary>)
    requires db.Valid()
    modifies db
    ensures db.Valid()
    ensures var o := CommandLinkOutcome(old(db.users), code, chatId, now);
      && (o.Err? ==> r == Err(o.error) && db.users == old(db.users))
      && (o.Ok? ==>
            var u := UserService.Linked(old(db.users)[o.value], chatId, StoredUsername(username));
            r == Ok(LinkedSummary(u.name, u.login, u.role)) && db.users == old(db.users)[o.value := u])
    ensures db.nextUserId == old(db.nextUserId) && db.models == old(db.models) && db.items == old(db.items) && db.bookings == old(db.bookings)
    ensures db.nextModelId == old(db.nextModelId) && db.nextItemId == old(db.nextItemId)
    ensures db.nextBookingId == old(db.nextBookingId) && db.nextBookingItemId == old(db.nextBookingItemId)
  {
    var found := LiveCodeIndex(db.users, code, now);
    if found.None? {
      return Err(CODE_NOT_FOUND);
    }
    var k := found.value;
    var user := db.users[k];
    if user.telegramChatId.Some? {
      return Err(ACCOUNT_LINKED);
    }
    var existingUser := UserService.ChatIndex(db.users, chatId);
    if existingUser.Some? {
      return Err(CHAT_LINKED);
    }
    var updatedUser := UserService.Linked(user, chatId, StoredUsername(username));
    db.ReplaceUser(k, updatedUser);
    r := Ok(LinkedSummary(updatedUser.name, updatedUser.login, updatedUser.role));
  }

  // ---------------------------------------------------------------------------
  // Replies

  /** `getRoleName`. */
  function RoleLabel(role: int): (r: string)
    ensures r == ADMIN_LABEL <==> role == ROLE_ADMIN
    ensures r != ADMIN_LABEL ==> r == USER_LABEL
  {
    if role == 3 then ADMIN_LABEL else USER_LABEL
  }

  /** The reply for an error thrown by the binding. */
  function ErrorToReply(message: string): (r: LinkReply)
    ensures message == CODE_NOT_FOUND ==> r == InvalidCodeReply
    ensures r.ErrorReply? <==> message != CODE_NOT_FOUND && StartsWith(message, ALREADY_LINKED_TAG)
    ensures r.ErrorReply? ==> r.text == "❌ " + ReplaceFirst(message, ALREADY_LINKED_PREFIX, "")
  {
    if message == CODE_NOT_FOUND then InvalidCodeReply
    else if StartsWith(message, ALREADY_LINKED_TAG) then ErrorReply("❌ " + ReplaceFirst(message, ALREADY_LINKED_PREFIX, ""))
    else FailureReply
  }

  /** A tagged error is shown with its tag dropped. */
  lemma TaggedErrorShownWithoutTag(m: string)
    ensures ErrorToReply(ALREADY_LINKED_PREFIX + m) == ErrorReply("❌ " + m)
  {
    var message := ALREADY_LINKED_PREFIX + m;
    assert |message| != |CODE_NOT_FOUND|;
    assert message[..|ALREADY_LINKED_TAG|] == ALREADY_LINKED_TAG;
    assert message[..|ALREADY_LINKED_PREFIX|] == ALREADY_LINKED_PREFIX;
    ReplaceFirstPrefix(message, ALREADY_LINKED_PREFIX, "");
    assert message[|ALREADY_LINKED_PREFIX|..] == m;
  }

  /** `@${username || 'не установлен'}`. */
  function TelegramLine(username: Option<string>): (r: string)
    ensures StoredUsername(username).Some? ==> r == "@" + StoredUsername(username).value
    ensures StoredUsername(username).None? ==> r == "@" + NO_USERNAME
  {
    "@" + (if username.Some? && username.value != [] then username.value else NO_USERNAME)
  }

  /** `executeAsync` on the store: the reply it sends and the binding it
      makes. */
  function Reply(users: seq<User>, text: Option<string>, chatId: int, username: Option<string>, now: int): (r: LinkReply)
    ensures ParseCode(text) == BadFormat ==> r == FormatHelp
    ensures ParseCode(text) == BadCode ==> r == CodeFormatHelp
    ensures r.LinkedReply? <==> ParseCode(text).Code? && CommandLinkOutcome(users, ParseCode(text).code, chatId, now).Ok?
  {
    match ParseCode(text)
    case BadFormat => FormatHelp
    case BadCode => CodeFormatHelp
    case Code(code) =>
      match CommandLinkOutcome(users, code, chatId, now)
      case Err(message) => ErrorToReply(message)
      case Ok(k) =>
        LinkedReply(users[k].name, users[k].login, TelegramLine(username), RoleLabel(users[k].role))
  }

  /** Every error the binding throws gets its dedicated reply: a missing or
      expired code the invalid-code reply, a chat conflict its own text. */
  lemma BindingErrorsHaveReplies(users: seq<User>, code: string, chatId: int, now: int)
    requires CommandLinkOutcome(users, code, chatId, now).Err?
    ensures var m := CommandLinkOutcome(users, code, chatId, now).error;
      ErrorToReply(m) != FailureReply
  {
    var m := CommandLinkOutcome(users, code, chatId, now).error;
    if m == ACCOUNT_LINKED {
      TaggedErrorShownWithoutTag("Этот аккаунт уже привязан к Telegram");
    } else if m == CHAT_LINKED {
      TaggedErrorShownWithoutTag("Этот Telegram уже привязан к другому аккаунту");
    }
  }

  method ExecuteAsync(db: Database, text: Option<string>, chatId: int, username: Option<string>, now: int)
    returns (reply: LinkReply)
    requires db.Valid()
    modifies db
    ensures db.Valid()
    ensures reply == Reply(old(db.users), text, chatId, username, now)
    ensures reply.LinkedReply? ==>
      var k := CommandLinkOutcome(old(db.users), ParseCode(text).code, chatId, now).value;
      db.users == old(db.users)[k := UserService.Linked(old(db.users)[k], chatId, StoredUsername(username))]
    ensures !reply.LinkedReply? ==> db.users == old(db.users)
    ensures db.nextUserId == old(db.nextUserId) && db.models == old(db.models) && db.items == old(db.items) && db.bookings == old(db.bookings)
    ensures db.nextModelId == old(db.nextModelId) && db.nextItemId == old(db.nextItemId)
    ensures db.nextBookingId == old(db.nextBookingId) && db.nextBookingItemId == old(db.nextBookingItemId)
  {
    var parsed := ParseCode(text);
    if parsed.BadFormat? {
      return FormatHelp;
    }
    if parsed.BadCode? {
      return CodeFormatHelp;
    }
    var code := parsed.code;
    var linked := LinkTelegramByCode(db, code, chatId, username, now);
    match linked {
      case Err(message) =>
        reply := ErrorToReply(message);
      case Ok(user) =>
        reply := LinkedReply(user.name, user.login, TelegramLine(username), RoleLabel(user.role));
    }
  }
}

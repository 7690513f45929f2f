/** The bot's `/start` command (src/lib/telegram/commands/start.ts): the
    `LINK_<code>` start parameter from a deep link binds the chat through
    the user service; otherwise the chat gets the instructions or the
    greeting. The command returns which reply it sends. */
module StartCommand {
  import opened Wrappers
  import opened Text
  import opened Records
  import opened Store
  import UserService
  import LinkCommand

  datatype StartReply =
    | LinkedReply(name: string, login: string, telegram: string)
    | InvalidCodeReply            // "Неверный код привязки", code invalid or expired
    | EchoReply(text: string)     // the error message itself
    | Instructions(telegram: string)
    | Greeting(name: string)

  const DEFAULT_FAILURE: string := "Произошла ошибка при привязке аккаунта.\nПопробуйте вручную: /link КОД"
  const NO_USERNAME: string := "не установлен"

  /** `text.split(/\s+/)[1]` when there is a second piece. */
  function StartParameter(text: string): (r: Option<string>)
    ensures r.Some? <==> |SplitWhitespace(text)| > 1
  {
    var parts := SplitWhitespace(text);
    if |parts| > 1 then Some(parts[1]) else None
  }

  /** The code auto-linking is attempted with: a non-empty parameter that
      starts with `LINK_` and whose remainder is six digits. */
  function AutoLinkCode(text: string): (r: Option<string>)
    ensures r.Some? ==> |r.value| == 6 && AllDigits(r.value)
    ensures r.Some? ==> StartParameter(text) == Some(UserService.DeepLinkParameter(r.value))
  {
    match StartParameter(text)
    case None => None
    case Some(p) =>
      if p != [] && StartsWith(p, UserService.START_PREFIX) then
        var code := ReplaceFirst(p, UserService.START_PREFIX, "");
        ReplaceFirstPrefix(p, UserService.START_PREFIX, "");
        assert p == UserService.START_PREFIX + code;
        if |code| == 6 && AllDigits(code) then Some(code) else None
      else None
  }

  /** The round trip with the deep link: for every six-digit code, the
      `/start` message that the link produces hands the same code back. */
  lemma DeepLinkRoundTrip(code: string)
    requires |code| == 6 && AllDigits(code)
    ensures AutoLinkCode("/start " + UserService.DeepLinkParameter(code)) == Some(code)
  {
    var p := UserService.DeepLinkParameter(code);
    assert NoWhitespace("/start");
    assert NoWhitespace(p) by {
      forall k | 0 <= k < |p| ensures !IsJsWhitespace(p[k]) {
        if k >= 5 {
          assert p[k] == code[k - 5];
          assert IsDigit(code[k - 5]);
        }
      }
    }
    SplitWhitespaceTwoWords("/start", p);
    assert "/start " + p == "/start" + " " + p;
    assert StartParameter("/start " + p) == Some(p);
    assert p[..5] == UserService.START_PREFIX;
    ReplaceFirstPrefix(p, UserService.START_PREFIX, "");
    assert p[5..] == code;
  }

  /** The `start` value of a `t.me` link, which Telegram hands to the bot:
      the query after the first '?', when it is `start=<value>`. */
  function StartValueOf(url: string): (r: Option<string>)
    ensures r.Some? ==> '?' in url && url[IndexOfChar(url, '?') + 1..] == "start=" + r.value
  {
    if '?' !in url then None
    else
      var q := url[IndexOfChar(url, '?') + 1..];
      if StartsWith(q, "start=") then
        assert q == q[..6] + q[6..];
        Some(q[6..])
      else None
  }

  /** The first '?' of `head + "?" + rest` is the one after `head` when
      `head` has none. */
  lemma StartValueAfter(head: string, value: string)
    requires '?' !in head
    ensures StartValueOf(head + "?" + ("start=" + value)) == Some(value)
  {
    var url := head + "?" + ("start=" + value);
    assert url[|head|] == '?';
    var i := IndexOfChar(url, '?');
    assert url[..|head|] == head;
    assert i == |head|;
    assert url[i + 1..] == "start=" + value;
  }

  /** The deep link the user service generates carries its parameter as
      the `start` value, so opening it sends `/start` with the very code it
      was made from (for a bot name without '?', as Telegram's are). */
  lemma GeneratedLinkStartsLinking(code: string, bot: string)
    requires |code| == 6 && AllDigits(code)
    requires '?' !in bot
    ensures StartValueOf(UserService.GenerateTelegramDeepLink(code, bot)) == Some(UserService.DeepLinkParameter(code))
    ensures AutoLinkCode("/start " + StartValueOf(UserService.GenerateTelegramDeepLink(code, bot)).value) == Some(code)
  {
    var head := UserService.DEEP_LINK_HOST + UserService.StripAt(bot);
    assert '?' !in UserService.DEEP_LINK_HOST;
    assert '?' !in head;
    assert UserService.GenerateTelegramDeepLink(code, bot) == head + "?" + ("start=" + UserService.DeepLinkParameter(code));
    StartValueAfter(head, UserService.DeepLinkParameter(code));
    DeepLinkRoundTrip(code);
  }

  /** The catch branch: the invalid-code reply for the unknown-code message
      and for any message containing "истек", otherwise the message echoed
      (or a default text when it is empty). */
  function ClassifyLinkError(message: string): (r: StartReply)
    ensures r == InvalidCodeReply <==> message == UserService.INVALID_CODE || HasSubstring(message, UserService.EXPIRED_WORD)
    ensures r != InvalidCodeReply ==> r == EchoReply("❌ " + (if message == [] then DEFAULT_FAILURE else message))
  {
    if message == UserService.INVALID_CODE || HasSubstring(message, UserService.EXPIRED_WORD) then InvalidCodeReply
    else EchoReply("❌ " + (if message == [] then DEFAULT_FAILURE else message))
  }

  /** Both code errors of the service, unknown and expired, reach the user
      as the invalid-code reply. */
  lemma CodeErrorsGiveInvalidCodeReply(users: seq<User>, code: string, chatId: int, now: int)
    requires UserService.LinkOutcome(users, code, chatId, now) in {Err(UserService.INVALID_CODE), Err(UserService.CODE_EXPIRED)}
    ensures ClassifyLinkError(UserService.LinkOutcome(users, code, chatId, now).error) == InvalidCodeReply
  {
    var w := UserService.EXPIRED_WORD;
    OccursItself(w);
    OccursInSuffix("Срок действия кода ", w, w);
    OccursInPrefix("Срок действия кода " + w, ". Сгенерируйте новый код в личном кабинете", w);
  }

  /** `@${username ?? 'не установлен'}`: an empty name shows as a bare '@'. */
  function TelegramLine(username: Option<string>): (r: string)
    ensures username.Some? ==> r == "@" + username.value
    ensures username.None? ==> r == "@" + NO_USERNAME
  {
    "@" + username.GetOr(NO_USERNAME)
  }

  /** `executeAsync` on the store: the reply it sends. */
  function Reply(users: seq<User>, text: Option<string>, chatId: int, username: Option<string>, now: int): (r: StartReply)
    ensures AutoLinkCode(text.GetOr("")).None? ==>
      (if UserService.ChatIndex(users, chatId).None? then r == Instructions(TelegramLine(username))
       else r == Greeting(users[UserService.ChatIndex(users, chatId).value].name))
    ensures r.LinkedReply? <==> (AutoLinkCode(text.GetOr("")).Some?
                                 && UserService.LinkOutcome(users, AutoLinkCode(text.GetOr("")).value, chatId, now).Ok?)
  {
    match AutoLinkCode(text.GetOr(""))
    case Some(code) =>
      (match UserService.LinkOutcome(users, code, chatId, now)
       case Ok(k) => LinkedReply(users[k].name, users[k].login, TelegramLine(username))
       case Err(message) => ClassifyLinkError(message))
    case None =>
      match UserService.ChatIndex(users, chatId)
      case None => Instructions(TelegramLine(username))
      case Some(k) => Greeting(users[k].name)
  }

  method ExecuteAsync(db: Database, text: Option<string>, chatId: int, username: Option<string>, now: int)
    returns (reply: StartReply)
    requires db.Valid()
    modifies db
    ensures db.Valid()
    ensures reply == Reply(old(db.users), text, chatId, username, now)
    ensures reply.LinkedReply? ==>
      var k := UserService.LinkOutcome(old(db.users), AutoLinkCode(text.GetOr("")).value, chatId, now).value;
      db.users == old(db.users)[k := UserService.Linked(old(db.users)[k], chatId, LinkCommand.StoredUsername(username))]
    ensures !reply.LinkedReply? ==> db.users == old(db.users)
    ensures db.nextUserId == old(db.nextUserId) && db.models == old(db.models) && db.items == old(db.items) && db.bookings == old(db.bookings)
    ensures db.nextModelId == old(db.nextModelId) && db.nextItemId == old(db.nextItemId)
    ensures db.nextBookingId == old(db.nextBookingId) && db.nextBookingItemId == old(db.nextBookingItemId)
  {
    var code := AutoLinkCode(text.GetOr(""));
    if code.Some? {
      var linked := UserService.LinkTelegramByCode(db, code.value, chatId, LinkCommand.StoredUsername(username), now);
      match linked {
        case Ok(user) =>
          return LinkedReply(user.name, user.login, TelegramLine(username));
        case Err(message) =>
          return ClassifyLinkError(message);
      }
    }
    var user := UserService.ChatIndex(db.users, chatId);
    if user.None? {
      return Instructions(TelegramLine(username));
    }
    reply := Greeting(db.users[user.value].name);
  }
}

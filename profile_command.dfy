/** The bot's profile command (src/lib/telegram/commands/profile.ts): the
    account bound to the chat, shown as five lines (a sixth for a banned
    account) joined by line breaks, or the "not found" reply. Sending is
    left to the caller; the command returns the reply. */
module ProfileCommand {
  import opened Wrappers
  import opened Text
  import opened Enums
  import opened Records
  import opened Seqs
  import UserService

  const NOT_FOUND: string := "❌ Пользователь не найден.\nИспользуйте /link для привязки аккаунта."
  const TITLE: string := "👤 <b>Ваш профиль:</b>\n"
  const ADMIN_LABEL: string := "Администратор"
  const USER_LABEL: string := "Пользователь"
  const YES: string := "Да"
  const NO: string := "Нет"
  const BANNED_LINE: string := "\n🚫 <b>Аккаунт заблокирован</b>"

  /** The replies: the "not found" text, or the profile sent as HTML. */
  datatype ProfileReply = NotFound | Profile(text: string)

  /** `getRole`: Admin has its own label, every other value the user one. */
  function RoleLabel(role: int): (r: string)
    ensures r == ADMIN_LABEL <==> role == ROLE_ADMIN
    ensures r != ADMIN_LABEL ==> r == USER_LABEL
  {
    if role == ROLE_ADMIN then ADMIN_LABEL else USER_LABEL
  }

  /** The Ronin permission: yes for Admin and Ronin, no otherwise. */
  function RoninPermission(role: int): (r: string)
    ensures r == YES <==> role == ROLE_ADMIN || role == ROLE_RONIN
    ensures r != YES ==> r == NO
  {
    if role == ROLE_ADMIN || role == ROLE_RONIN then YES else NO
  }

  function NameLine(u: User): string
  {
    "<b>Имя:</b> <code>" + u.name + "</code>"
  }

  function LoginLine(u: User): string
  {
    "<b>Логин:</b> <code>" + u.login + "</code>"
  }

  function RoleLine(u: User): string
  {
    "<b>Роль:</b> <code>" + RoleLabel(u.role) + "</code>"
  }

  function RoninLine(u: User): string
  {
    "<b>Разрешение на Ronin:</b> <code>" + RoninPermission(u.role) + "</code>"
  }

  function BannedPart(u: User): string
  {
    if u.banned then BANNED_LINE else ""
  }

  /** The array before `filter(Boolean)`. */
  function Lines(u: User): seq<string>
  {
    [TITLE, NameLine(u), LoginLine(u), RoleLine(u), RoninLine(u), BannedPart(u)]
  }

  function NonEmpty(s: string): bool
  {
    s != ""
  }

  function ProfileText(u: User): string
  {
    Join(Filter(Lines(u), NonEmpty), "\n")
  }

  /** A six-element `filter(Boolean)` whose first five are non-empty. */
  lemma FilterSix(a: string, b: string, c: string, d: string, e: string, f: string)
    requires a != "" && b != "" && c != "" && d != "" && e != ""
    ensures Filter([a, b, c, d, e, f], NonEmpty) == [a, b, c, d, e] + (if f != "" then [f] else [])
  {
    var first := [a, b, c, d, e];
    assert [a, b, c, d, e, f] == first + [f];
    assert forall x :: x in first ==> NonEmpty(x);
    FilterSingle(f, NonEmpty);
    FilterKeepsPrefix(first, [f], NonEmpty);
  }

  /** The banned line differs from each of the five fixed lines. */
  lemma BannedLineDistinct(u: User)
    ensures BANNED_LINE !in Lines(u)[..5]
  {
    assert BANNED_LINE[0] == '\n';
    assert TITLE[0] != '\n';
    assert NameLine(u)[0] == '<' && LoginLine(u)[0] == '<' && RoleLine(u)[0] == '<' && RoninLine(u)[0] == '<';
    var l := Lines(u);
    assert l[..5] == [TITLE, NameLine(u), LoginLine(u), RoleLine(u), RoninLine(u)];
  }

  /** Only the banned line can be empty: the filter keeps the five fixed
      lines, and the banned line exactly for a banned account. */
  lemma FilteredLines(u: User)
    ensures Filter(Lines(u), NonEmpty) == Lines(u)[..5] + (if u.banned then [BANNED_LINE] else [])
    ensures BANNED_LINE in Filter(Lines(u), NonEmpty) <==> u.banned
  {
    var l := Lines(u);
    assert |NameLine(u)| > 0 && |LoginLine(u)| > 0 && |RoleLine(u)| > 0 && |RoninLine(u)| > 0 && |TITLE| > 0;
    FilterSix(TITLE, NameLine(u), LoginLine(u), RoleLine(u), RoninLine(u), BannedPart(u));
    assert l[..5] == [TITLE, NameLine(u), LoginLine(u), RoleLine(u), RoninLine(u)];
    BannedLineDistinct(u);
  }

  /** The text is the five lines joined by line breaks, then the banned
      line after one more break for a banned account. */
  lemma ProfileTextShape(u: User)
    ensures ProfileText(u) == Join(Lines(u)[..5], "\n") + (if u.banned then "\n" + BANNED_LINE else "")
  {
    FilteredLines(u);
    var first := Lines(u)[..5];
    if u.banned {
      JoinSnoc(first, BANNED_LINE, "\n");
    } else {
      assert first + [] == first;
    }
  }

  /** Joining a longer list adds the separator and the last element. */
  lemma {:induction false} JoinSnoc(parts: seq<string>, last: string, sep: string)
    requires |parts| >= 1
    ensures Join(parts + [last], sep) == Join(parts, sep) + sep + last
    decreases |parts|
  {
    if |parts| == 1 {
      assert (parts + [last])[1..] == [last];
    } else {
      assert (parts + [last])[1..] == parts[1..] + [last];
      JoinSnoc(parts[1..], last, sep);
    }
  }

  /** `executeAsync`: the "not found" text for a chat bound to no account,
      otherwise that account's profile. */
  function ExecuteAsync(users: seq<User>, chatId: int): (r: ProfileReply)
    ensures r.NotFound? <==> UserService.ChatIndex(users, chatId).None?
    ensures r.Profile? ==> r.text == ProfileText(users[UserService.ChatIndex(users, chatId).value])
  {
    match UserService.ChatIndex(users, chatId)
    case None => NotFound
    case Some(k) => Profile(ProfileText(users[k]))
  }

  /** The profile of the bound account names its labels: the role label
      is the admin one only for an Admin, and the permission is yes only
      for Admin and Ronin. */
  lemma ProfileNamesRole(users: seq<User>, chatId: int)
    requires UserService.ChatIndex(users, chatId).Some?
    ensures var u := users[UserService.ChatIndex(users, chatId).value];
      && ExecuteAsync(users, chatId) == Profile(ProfileText(u))
      && RoleLine(u) in Filter(Lines(u), NonEmpty) && RoninLine(u) in Filter(Lines(u), NonEmpty)
      && (RoleLabel(u.role) == ADMIN_LABEL <==> u.role == ROLE_ADMIN)
      && (RoninPermission(u.role) == YES <==> u.role == ROLE_ADMIN || u.role == ROLE_RONIN)
  {
    var u := users[UserService.ChatIndex(users, chatId).value];
    FilteredLines(u);
    assert Lines(u)[..5][3] == RoleLine(u) && Lines(u)[..5][4] == RoninLine(u);
  }
}

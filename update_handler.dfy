/** `TelegramUpdateHandler` (src/lib/telegram/updateHandler.ts): the command
    registry, the admin's approve/reject buttons with the pending-comment
    record kept in Redis, the comment reply that changes the booking, the
    username refresh and the command lookup. Redis is a map field of the
    handler whose entries carry their expiry time; the reply texts are
    returned as values instead of being sent. */
module UpdateHandler {
  import opened Wrappers
  import opened Text
  import opened Enums
  import opened Records
  import opened Availability
  import opened Store
  import UserService
  import BookingService

  // ---------------------------------------------------------------------------
  // The command registry

  datatype CommandKind = Start | Profile | MyBookings | Help | Back | Link | Filter(status: string, caption: string)

  datatype FilterButton = FilterButton(caption: string, status: string)

  const START_NAME: string := "/start"
  const PROFILE_NAME: string := "👤 Профиль"
  const BOOKINGS_NAME: string := "📆 Мои бронирования"
  const HELP_NAME: string := "ℹ️ Помощь"
  const BACK_NAME: string := "« Назад в меню"
  const LINK_NAME: string := "/link"

  const FILTER_BUTTONS: seq<FilterButton> := [
    FilterButton("⏳ Ожидают", "pending"),
    FilterButton("✅ Одобренные", "approved"),
    FilterButton("🏁 Завершенные", "completed"),
    FilterButton("❌ Отмененные", "cancelled"),
    FilterButton("📋 Все бронирования", "all")
  ]

  /** The fixed commands, registered under their `name`. */
  function BaseCommands(): map<string, CommandKind>
  {
    map[START_NAME := Start, PROFILE_NAME := Profile, BOOKINGS_NAME := MyBookings,
        HELP_NAME := Help, BACK_NAME := Back, LINK_NAME := Link]
  }

  /** `commands.set(label, ...)` for each button in order. */
  function AddButtons(m: map<string, CommandKind>, buttons: seq<FilterButton>): map<string, CommandKind>
    decreases |buttons|
  {
    if buttons == [] then m
    else AddButtons(m[buttons[0].caption := Filter(buttons[0].status, buttons[0].caption)], buttons[1..])
  }

  function Registered(): map<string, CommandKind>
  {
    AddButtons(BaseCommands(), FILTER_BUTTONS)
  }

  predicate LabelsDistinct(buttons: seq<FilterButton>)
  {
    forall a, b :: 0 <= a < b < |buttons| ==> buttons[a].caption != buttons[b].caption
  }

  predicate IsLabel(buttons: seq<FilterButton>, key: string)
  {
    exists j :: 0 <= j < |buttons| && buttons[j].caption == key
  }

  /** Adding the buttons registers each under its label and leaves every
      other key as it was. */
  lemma {:induction false} AddButtonsLookup(m: map<string, CommandKind>, buttons: seq<FilterButton>, key: string)
    requires LabelsDistinct(buttons)
    ensures key in AddButtons(m, buttons) <==> key in m || IsLabel(buttons, key)
    ensures !IsLabel(buttons, key) && key in m ==> AddButtons(m, buttons)[key] == m[key]
    ensures forall j :: 0 <= j < |buttons| && buttons[j].caption == key ==>
      AddButtons(m, buttons)[key] == Filter(buttons[j].status, buttons[j].caption)
    decreases |buttons|
  {
    if buttons != [] {
      var m' := m[buttons[0].caption := Filter(buttons[0].status, buttons[0].caption)];
      var rest := buttons[1..];
      assert LabelsDistinct(rest) by {
        forall a, b | 0 <= a < b < |rest| ensures rest[a].caption != rest[b].caption {
          assert rest[a] == buttons[a + 1] && rest[b] == buttons[b + 1];
        }
      }
      AddButtonsLookup(m', rest, key);
      assert IsLabel(buttons, key) <==> buttons[0].caption == key || IsLabel(rest, key) by {
        if IsLabel(buttons, key) && buttons[0].caption != key {
          var j :| 0 <= j < |buttons| && buttons[j].caption == key;
          assert rest[j - 1] == buttons[j];
        }
        if IsLabel(rest, key) {
          var j :| 0 <= j < |rest| && rest[j].caption == key;
          assert buttons[j + 1] == rest[j];
        }
      }
      forall j | 0 <= j < |buttons| && buttons[j].caption == key
        ensures AddButtons(m, buttons)[key] == Filter(buttons[j].status, buttons[j].caption)
      {
        if j != 0 {
          assert rest[j - 1] == buttons[j];
        }
      }
    }
  }

  /** `registerCommands`: the fixed commands, then the loop over the filter
      buttons. */
  method RegisterCommands() returns (commands: map<string, CommandKind>)
    ensures commands == Registered()
  {
    commands := map[];
    commands := commands[START_NAME := Start];
    commands := commands[PROFILE_NAME := Profile];
    commands := commands[BOOKINGS_NAME := MyBookings];
    commands := commands[HELP_NAME := Help];
    commands := commands[BACK_NAME := Back];
    commands := commands[LINK_NAME := Link];
    var i := 0;
    while i < |FILTER_BUTTONS|
      invariant 0 <= i <= |FILTER_BUTTONS|
      invariant AddButtons(commands, FILTER_BUTTONS[i..]) == Registered()
    {
      var button := FILTER_BUTTONS[i];
      assert FILTER_BUTTONS[i..][1..] == FILTER_BUTTONS[i + 1..];
      commands := commands[button.caption := Filter(button.status, button.caption)];
      i := i + 1;
    }
  }

  /** The labels have different lengths, except the Approved and Cancelled
      ones, which differ in their first character. */
  lemma FilterLabelsDistinct()
    ensures LabelsDistinct(FILTER_BUTTONS)
  {
    assert FILTER_BUTTONS[1].caption[0] != FILTER_BUTTONS[3].caption[0];
  }

  /** Each filter button's label selects that button's filter; the fixed
      commands keep their names. */
  lemma RegisteredCommands()
    ensures forall j :: 0 <= j < |FILTER_BUTTONS| ==>
      FILTER_BUTTONS[j].caption in Registered() && Registered()[FILTER_BUTTONS[j].caption] == Filter(FILTER_BUTTONS[j].status, FILTER_BUTTONS[j].caption)
    ensures LINK_NAME in Registered() && Registered()[LINK_NAME] == Link
    ensures START_NAME in Registered() && Registered()[START_NAME] == Start
  {
    FilterLabelsDistinct();
    forall j | 0 <= j < |FILTER_BUTTONS|
      ensures FILTER_BUTTONS[j].caption in Registered() && Registered()[FILTER_BUTTONS[j].caption] == Filter(FILTER_BUTTONS[j].status, FILTER_BUTTONS[j].caption)
    {
      AddButtonsLookup(BaseCommands(), FILTER_BUTTONS, FILTER_BUTTONS[j].caption);
    }
    SlashCommandKept(LINK_NAME);
    SlashCommandKept(START_NAME);
  }

  /** No button label starts with '/'. */
  lemma NoSlashLabel(key: string)
    requires |key| > 0 && key[0] == '/'
    ensures !IsLabel(FILTER_BUTTONS, key)
  {
    forall j | 0 <= j < |FILTER_BUTTONS| ensures FILTER_BUTTONS[j].caption != key {
      assert FILTER_BUTTONS[j].caption[0] != '/';
    }
  }

  /** A key starting with '/' is registered exactly as the fixed commands
      have it: the buttons neither add nor replace it. */
  lemma SlashCommandKept(key: string)
    requires |key| > 0 && key[0] == '/'
    ensures key in Registered() <==> key in BaseCommands()
    ensures key in BaseCommands() ==> Registered()[key] == BaseCommands()[key]
  {
    FilterLabelsDistinct();
    NoSlashLabel(key);
    AddButtonsLookup(BaseCommands(), FILTER_BUTTONS, key);
  }

  /** `this.commands.get(text) || this.commands.get(text.split(" ")[0])`. */
  function Lookup(commands: map<string, CommandKind>, text: string): (r: Option<CommandKind>)
    ensures text in commands ==> r == Some(commands[text])
    ensures text !in commands ==> (r.Some? <==> Split(text, ' ')[0] in commands)
    ensures r.Some? ==> r.value in commands.Values
  {
    if text in commands then Some(commands[text])
    else
      var key := Split(text, ' ')[0];
      if key in commands then Some(commands[key]) else None
  }

  /** `/link` followed by anything reaches the link command: the full text
      is no registered name, so the first word decides. */
  lemma LinkWithArgumentResolves(arg: string)
    ensures Lookup(Registered(), LINK_NAME + " " + arg) == Some(Link)
  {
    var text := LINK_NAME + " " + arg;
    RegisteredCommands();
    LinkTextUnregistered(arg);
    assert ' ' !in LINK_NAME;
    SplitFirstPiece(LINK_NAME, arg, ' ');
  }

  /** The fixed commands hold no "/link " followed by more. */
  lemma LinkTextUnregistered(arg: string)
    ensures LINK_NAME + " " + arg !in Registered()
  {
    var text := LINK_NAME + " " + arg;
    assert text[0] == '/' && text[1] == 'l';
    SlashCommandKept(text);
    assert text != START_NAME by { assert START_NAME[1] == 's'; }
    assert |text| > |LINK_NAME|;
    assert PROFILE_NAME[0] != '/' && BOOKINGS_NAME[0] != '/' && HELP_NAME[0] != '/' && BACK_NAME[0] != '/';
  }

  // ---------------------------------------------------------------------------
  // Callback buttons

  const CALLBACK_PREFIX: string := "booking:"
  const PENDING_KEY_PREFIX: string := "pending_comment:"
  const PENDING_TTL_MS: int := 600 * 1000

  /** The `{action, bookingId}` record stored under `pending_comment:<chat>`,
      with the instant its 600-second lifetime ends. */
  datatype PendingEntry = PendingEntry(action: string, bookingId: int, expiresAt: int)

  function PendingKey(chatId: int): string
  {
    PENDING_KEY_PREFIX + IntToString(chatId)
  }

  /** The callback data accepted: it starts with `booking:` and splits on
      ':' into exactly three parts; the id is the radix-less `parseInt` of
      the third (absent for NaN). */
  function ParseCallbackData(data: Option<string>): (r: Option<(string, Option<int>)>)
    ensures r.Some? <==> data.Some? && StartsWith(data.value, CALLBACK_PREFIX) && |Split(data.value, ':')| == 3
    ensures r.Some? ==> r.value.0 == Split(data.value, ':')[1] && r.value.1 == ParseIntAuto(Split(data.value, ':')[2])
  {
    if data.Some? && StartsWith(data.value, CALLBACK_PREFIX) then
      var parts := Split(data.value, ':');
      if |parts| != 3 then None else Some((parts[1], ParseIntAuto(parts[2])))
    else None
  }

  /** Data built as `booking:<action>:<id>` from colon-free pieces parses
      back into the action and the radix-less reading of the id. */
  lemma CallbackDataParses(action: string, id: string)
    requires ':' !in action && ':' !in id
    ensures ParseCallbackData(Some(CALLBACK_PREFIX + action + ":" + id)) == Some((action, ParseIntAuto(id)))
  {
    var data := CALLBACK_PREFIX + action + ":" + id;
    assert data == "booking" + [':'] + action + [':'] + id;
    assert ':' !in "booking";
    SplitThree("booking", action, id, ':');
    assert data[..|CALLBACK_PREFIX|] == CALLBACK_PREFIX;
  }

  /** Without a radix a `0x` id is read as hexadecimal: forged data naming
      `0x10` reaches booking 16. */
  lemma HexCallbackId()
    ensures ParseCallbackData(Some(CALLBACK_PREFIX + "approve:0x10")) == Some(("approve", Some(16)))
  {
    assert CALLBACK_PREFIX + "approve:0x10" == CALLBACK_PREFIX + "approve" + ":" + "0x10";
    CallbackDataParses("approve", "0x10");
    HexPrefixRead();
  }

  datatype CallbackResult =
    | Ignored                          // not a booking button: no answer
    | NotAllowed                       // "У вас нет прав для этого действия"
    | Unavailable                      // "Бронирование недоступно для обработки"
    | Failed                           // the lookup with a NaN id throws; only logged
    | Prompted(action: string, bookingId: int)

  /** `handleCallbackQuery`: the outcome for a press by `chatId`. */
  function CallbackOutcome(users: seq<User>, bookings: seq<Booking>, chatId: int, data: Option<string>): (r: CallbackResult)
    ensures ParseCallbackData(data).None? <==> r == Ignored
    ensures r.Prompted? <==>
      && ParseCallbackData(data).Some?
      && UserService.ChatIndex(users, chatId).Some?
      && users[UserService.ChatIndex(users, chatId).value].role == ROLE_ADMIN
      && ParseCallbackData(data).value.1.Some?
      && BookingIndex(bookings, ParseCallbackData(data).value.1.value).Some?
      && bookings[BookingIndex(bookings, ParseCallbackData(data).value.1.value).value].status == Pending
    ensures r.Prompted? ==> r.action == ParseCallbackData(data).value.0 && Some(r.bookingId) == ParseCallbackData(data).value.1
    ensures ParseCallbackData(data).Some? && (UserService.ChatIndex(users, chatId).None? || users[UserService.ChatIndex(users, chatId).value].role != ROLE_ADMIN) ==> r == NotAllowed
  {
    match ParseCallbackData(data)
    case None => Ignored
    case Some((action, id)) =>
      var admin := UserService.ChatIndex(users, chatId);
      if admin.None? || users[admin.value].role != 3 then NotAllowed
      else if id.None? then Failed
      else match BookingIndex(bookings, id.value)
        case None => Unavailable
        case Some(k) => if bookings[k].status != Pending then Unavailable else Prompted(action, id.value)
  }

  // ---------------------------------------------------------------------------
  // The comment reply

  datatype CommentReply =
    | AlreadyProcessed        // "Это бронирование уже обработано"
    | ApprovedReply(id: int)  // "Бронирование #<id> одобрено"
    | RejectedReply(id: int)  // "Бронирование #<id> отклонено"
    | NoReply                 // an action other than approve or reject

  /** `text === "-" ? null : text`. */
  function CommentOf(text: string): (r: Option<string>)
    ensures r.None? <==> text == "-"
    ensures r.Some? ==> r.value == text
  {
    if text == "-" then None else Some(text)
  }

  /** The update `handleCommentReply` makes to a Pending booking: approve and
      reject overwrite the admin comment; any other action changes nothing. */
  function CommentedBooking(b: Booking, action: string, text: string): (r: Option<Booking>)
    ensures r.Some? <==> action == "approve" || action == "reject"
    ensures r.Some? ==> r.value.status == (if action == "approve" then Approved else Cancelled)
    ensures r.Some? ==> r.value.adminComment == CommentOf(text)
    ensures r.Some? ==> r.value.(status := b.status, adminComment := b.adminComment) == b
  {
    if action == "approve" then Some(b.(status := Approved, adminComment := CommentOf(text)))
    else if action == "reject" then Some(b.(status := Cancelled, adminComment := CommentOf(text)))
    else None
  }

  function CommentReplyOf(bookings: seq<Booking>, text: string, entry: PendingEntry): (r: CommentReply)
    ensures BookingIndex(bookings, entry.bookingId).None? ==> r == AlreadyProcessed
    ensures BookingIndex(bookings, entry.bookingId).Some? && bookings[BookingIndex(bookings, entry.bookingId).value].status != Pending ==> r == AlreadyProcessed
  {
    match BookingIndex(bookings, entry.bookingId)
    case None => AlreadyProcessed
    case Some(k) =>
      if bookings[k].status != Pending then AlreadyProcessed
      else if entry.action == "approve" then ApprovedReply(entry.bookingId)
      else if entry.action == "reject" then RejectedReply(entry.bookingId)
      else NoReply
  }

  /** The bookings after `handleCommentReply`. */
  function CommentedBookings(bookings: seq<Booking>, text: string, entry: PendingEntry): seq<Booking>
  {
    match BookingIndex(bookings, entry.bookingId)
    case None => bookings
    case Some(k) =>
      if bookings[k].status != Pending then bookings
      else match CommentedBooking(bookings[k], entry.action, text)
        case None => bookings
        case Some(b) => bookings[k := b]
  }

  /** The Telegram path only ever moves a Pending booking, so it never
      re-approves a Cancelled one and keeps the store free of double
      bookings. */
  lemma CommentReplyKeepsNoDoubleBooking(bookings: seq<Booking>, text: string, entry: PendingEntry)
    requires BookingService.NoDoubleBooking(bookings)
    ensures BookingService.NoDoubleBooking(CommentedBookings(bookings, text, entry))
  {
    var k := BookingIndex(bookings, entry.bookingId);
    if k.Some? && bookings[k.value].status == Pending {
      var c := CommentedBooking(bookings[k.value], entry.action, text);
      if c.Some? {
        BookingService.UpdateKeepsNoDoubleBooking(bookings, k.value, c.value);
      }
    }
  }

  /** A second comment for the same booking is refused: after an approve or
      reject the booking is no longer Pending. */
  lemma CommentAppliesOnce(bookings: seq<Booking>, next: int, text: string, entry: PendingEntry, text': string)
    requires BookingIdsOk(bookings, next)
    requires CommentReplyOf(bookings, text, entry) in {ApprovedReply(entry.bookingId), RejectedReply(entry.bookingId)}
    ensures CommentReplyOf(CommentedBookings(bookings, text, entry), text', entry) == AlreadyProcessed
  {
    var k := BookingIndex(bookings, entry.bookingId).value;
    var after := CommentedBookings(bookings, text, entry);
    assert after == bookings[k := CommentedBooking(bookings[k], entry.action, text).value];
    assert after[k].id == entry.bookingId;
    assert BookingIdsOk(after, next) by {
      assert forall i :: 0 <= i < |after| ==> after[i].id == bookings[i].id;
    }
    BookingIndexUnique(after, next, entry.bookingId, k);
  }

  // ---------------------------------------------------------------------------
  // Username refresh

  const UNKNOWN_USERNAME: string := "Unknown"

  /** `message.from?.username || "Unknown"`. */
  function SenderName(username: Option<string>): (r: string)
    ensures r != []
    ensures username.Some? && username.value != [] ==> r == username.value
    ensures username.None? || username.value == [] ==> r == UNKNOWN_USERNAME
  {
    if username.Some? && username.value != [] then username.value else UNKNOWN_USERNAME
  }

  /** `updateUsername`: a write when the stored name differs from `name`,
      storing "Unknown" as null. */
  function RefreshedUsers(users: seq<User>, chatId: int, name: string): (r: seq<User>)
    ensures |r| == |users|
    ensures forall i :: 0 <= i < |users| ==> r[i] == users[i] || r[i] == users[i].(telegramUsername := r[i].telegramUsername)
    ensures forall i :: 0 <= i < |users| && UserService.ChatIndex(users, chatId) != Some(i) ==> r[i] == users[i]
    ensures UserService.ChatIndex(users, chatId).Some? && name != UNKNOWN_USERNAME ==>
      r[UserService.ChatIndex(users, chatId).value].telegramUsername == Some(name)
    ensures UserService.ChatIndex(users, chatId).Some? && name == UNKNOWN_USERNAME ==>
      r[UserService.ChatIndex(users, chatId).value].telegramUsername in {None, Some(name)}
  {
    match UserService.ChatIndex(users, chatId)
    case None => users
    case Some(k) =>
      if users[k].telegramUsername != Some(name) then
        users[k := users[k].(telegramUsername := if name == UNKNOWN_USERNAME then None else Some(name))]
      else users
  }

  /** Refreshing twice stores the same as refreshing once; when the sender
      has no username, the null already stored is written again. */
  lemma RefreshIdempotent(users: seq<User>, chatId: int, name: string)
    ensures RefreshedUsers(RefreshedUsers(users, chatId, name), chatId, name) == RefreshedUsers(users, chatId, name)
  {
    var once := RefreshedUsers(users, chatId, name);
    match UserService.ChatIndex(users, chatId)
    case None =>
    case Some(k) =>
      assert forall i :: 0 <= i < |once| ==> once[i].telegramChatId == users[i].telegramChatId;
      assert UserService.ChatIndex(once, chatId) == Some(k);
  }

  // ---------------------------------------------------------------------------
  // The handler

  datatype MessageOutcome =
    | NoText                            // no text (or an empty one): ignored
    | CommentHandled(reply: CommentReply)
    | Dispatched(command: CommandKind)  // handed to that command's executeAsync
    | UnknownCommand                    // "Неизвестная команда"

  class Handler {
    const commands: map<string, CommandKind>
    /** The Redis keys this handler reads and writes. */
    var pending: map<string, PendingEntry>

    constructor ()
      ensures commands == Registered() && pending == map[]
    {
      var registered := RegisterCommands();
      commands := registered;
      pending := map[];
    }

    /** `redis.get`: the entry while its lifetime lasts. */
    function LivePending(chatId: int, now: int): (r: Option<PendingEntry>)
      reads this
      ensures r.Some? <==> PendingKey(chatId) in pending && now < pending[PendingKey(chatId)].expiresAt
      ensures r.Some? ==> r.value == pending[PendingKey(chatId)]
    {
      var key := PendingKey(chatId);
      if key in pending && now < pending[key].expiresAt then Some(pending[key]) else None
    }

    method HandleCallbackQuery(db: Database, chatId: int, data: Option<string>, now: int) returns (r: CallbackResult)
      modifies this
      ensures r == CallbackOutcome(db.users, db.bookings, chatId, data)
      ensures r.Prompted? ==> pending == old(pending)[PendingKey(chatId) := PendingEntry(r.action, r.bookingId, now + PENDING_TTL_MS)]
      ensures !r.Prompted? ==> pending == old(pending)
    {
      var parsed := ParseCallbackData(data);
      if parsed.None? {
        return Ignored;
      }
      var (action, bookingId) := parsed.value;
      var admin := UserService.ChatIndex(db.users, chatId);
      if admin.None? || db.users[admin.value].role != 3 {
        return NotAllowed;
      }
      if bookingId.None? {
        return Failed;
      }
      var booking := BookingIndex(db.bookings, bookingId.value);
      if booking.None? || db.bookings[booking.value].status != Pending {
        return Unavailable;
      }
      pending := pending[PendingKey(chatId) := PendingEntry(action, bookingId.value, now + PENDING_TTL_MS)];
      r := Prompted(action, bookingId.value);
    }

    method HandleCommentReply(db: Database, text: string, entry: PendingEntry) returns (reply: CommentReply)
      requires db.Valid()
      modifies db
      ensures db.Valid()
      ensures reply == CommentReplyOf(old(db.bookings), text, entry)
      ensures db.bookings == CommentedBookings(old(db.bookings), text, entry)
      ensures db.users == old(db.users) && db.models == old(db.models) && db.items == old(db.items)
      ensures db.nextBookingId == old(db.nextBookingId) && db.nextBookingItemId == old(db.nextBookingItemId)
      ensures db.nextUserId == old(db.nextUserId) && db.nextModelId == old(db.nextModelId) && db.nextItemId == old(db.nextItemId)
    {
      var k := BookingIndex(db.bookings, entry.bookingId);
      if k.None? || db.bookings[k.value].status != Pending {
        return AlreadyProcessed;
      }
      var b := db.bookings[k.value];
      var comment := CommentOf(text);
      if entry.action == "approve" {
        db.ReplaceBooking(k.value, b.(status := Approved, adminComment := comment));
        reply := ApprovedReply(entry.bookingId);
      } else if entry.action == "reject" {
        db.ReplaceBooking(k.value, b.(status := Cancelled, adminComment := comment));
        reply := RejectedReply(entry.bookingId);
      } else {
        reply := NoReply;
      }
    }

    method UpdateUsername(db: Database, chatId: int, name: string)
      requires db.Valid()
      modifies db
      ensures db.Valid()
      ensures db.users == RefreshedUsers(old(db.users), chatId, name)
      ensures db.nextUserId == old(db.nextUserId) && db.models == old(db.models) && db.items == old(db.items) && db.bookings == old(db.bookings)
      ensures db.nextModelId == old(db.nextModelId) && db.nextItemId == old(db.nextItemId)
      ensures db.nextBookingId == old(db.nextBookingId) && db.nextBookingItemId == old(db.nextBookingItemId)
    {
      var user := UserService.ChatIndex(db.users, chatId);
      if user.Some? && db.users[user.value].telegramUsername != Some(name) {
        var k := user.value;
        db.ReplaceUser(k, db.users[k].(telegramUsername := if name == UNKNOWN_USERNAME then None else Some(name)));
      }
    }

    /** `handleUpdateAsync` for a message: the username refresh, then either
        the pending comment (only for a reply while a record lives, which is
        then deleted) or the command lookup. */
    method HandleMessage(db: Database, chatId: int, text: Option<string>, username: Option<string>,
                         isReply: bool, now: int) returns (outcome: MessageOutcome)
      requires db.Valid()
      modifies this, db
      ensures db.Valid()
      ensures text.None? || text.value == [] ==>
        outcome == NoText && db.users == old(db.users) && db.bookings == old(db.bookings) && pending == old(pending)
      ensures text.Some? && text.value != [] ==>
        && db.users == RefreshedUsers(old(db.users), chatId, SenderName(username))
        && var entry := old(LivePending(chatId, now));
        if entry.Some? && isReply then
          && outcome == CommentHandled(CommentReplyOf(old(db.bookings), text.value, entry.value))
          && db.bookings == CommentedBookings(old(db.bookings), text.value, entry.value)
          && pending == old(pending) - {PendingKey(chatId)}
        else
          && outcome == (match Lookup(commands, text.value)
                         case Some(c) => Dispatched(c)
                         case None => UnknownCommand)
          && db.bookings == old(db.bookings) && pending == old(pending)
      ensures db.models == old(db.models) && db.items == old(db.items)
      ensures db.nextBookingId == old(db.nextBookingId) && db.nextBookingItemId == old(db.nextBookingItemId)
      ensures db.nextUserId == old(db.nextUserId) && db.nextModelId == old(db.nextModelId) && db.nextItemId == old(db.nextItemId)
    {
      if text.None? || text.value == [] {
        return NoText;
      }
      var message := text.value;
      UpdateUsername(db, chatId, SenderName(username));
      var entry := LivePending(chatId, now);
      if entry.Some? && isReply {
        var reply := HandleCommentReply(db, message, entry.value);
        pending := pending - {PendingKey(chatId)};
        return CommentHandled(reply);
      }
      var command := Lookup(commands, message);
      if command.Some? {
        outcome := Dispatched(command.value);
      } else {
        outcome := UnknownCommand;
      }
    }
  }
}

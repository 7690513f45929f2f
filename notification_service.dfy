/** `TelegramNotificationService` (src/lib/telegram/notificationService.ts):
    the new-booking message sent to every administrator with a chat, with
    its approve/reject buttons, and the status-change message sent to a
    booking's owner. Sending is modelled by returning the messages; date
    formatting and `JSON.stringify` are parameters. */
module NotificationService {
  import opened Wrappers
  import opened Text
  import opened Enums
  import opened Records
  import opened Seqs
  import opened Store
  import BookingService
  import UserService
  import UpdateHandler

  type ItemDto = BookingService.BookingItemDto

  datatype Button = Button(text: string, callbackData: string)

  /** One `sendMessage` call: the chat, the HTML text and the inline buttons. */
  datatype Outgoing = Outgoing(chatId: int, text: string, buttons: seq<Button>)

  // ---------------------------------------------------------------------------
  // Status labels, on the numeric status the methods receive

  /** `getStatusEmoji`: every value that is not Approved, Completed or
      Cancelled (Pending included) gets the hourglass. */
  function StatusEmoji(status: int): (r: string)
    ensures status !in {StatusCode(Approved), StatusCode(Completed), StatusCode(Cancelled)} ==> r == "⏳"
    ensures status in {StatusCode(Approved), StatusCode(Completed), StatusCode(Cancelled)} ==> r != "⏳"
  {
    if status == StatusCode(Approved) then "✅"
    else if status == StatusCode(Completed) then "🏁"
    else if status == StatusCode(Cancelled) then "❌"
    else "⏳"
  }

  /** `getStatusText`: the four statuses have their own words, anything
      else is "Неизвестно". */
  function StatusText(status: int): (r: string)
    ensures r == "Неизвестно" <==> StatusOfCode(status).None?
  {
    if status == StatusCode(Pending) then "Ожидает"
    else if status == StatusCode(Approved) then "Одобрено"
    else if status == StatusCode(Completed) then "Завершено"
    else if status == StatusCode(Cancelled) then "Отменено"
    else "Неизвестно"
  }

  // ---------------------------------------------------------------------------
  // formatWarnings

  /** `String(v)` for an element of an array joined by `join`: `null`
      becomes the empty string, nested arrays are joined with ',' and
      objects print as `[object Object]`. */
  function ElementText(v: Json): string
    decreases v, 1
  {
    match v
    case JNull => ""
    case JBool(b) => if b then "true" else "false"
    case JNum(n) => IntToString(n)
    case JStr(s) => s
    case JArr(es) => JoinElements(v, es, ",")
    case JObj(_) => "[object Object]"
  }

  /** `es.join(sep)`. */
  function JoinElements(parent: Json, es: seq<Json>, sep: string): string
    requires parent.JArr? && es <= parent.elems
    decreases parent, 0, |es|
  {
    if es == [] then ""
    else if |es| == 1 then ElementText(es[0])
    else
      assert es[..|es| - 1] <= parent.elems;
      JoinElements(parent, es[..|es| - 1], sep) + sep + ElementText(es[|es| - 1])
  }

  function WarningPrefix(key: string): string
  {
    "   • <b>" + key + ":</b> "
  }

  /** The line one entry contributes: non-empty arrays joined with ", ",
      strings as they are, and everything else that is a truthy object
      (an empty array included) as its JSON text. Null, numbers and
      booleans contribute nothing. */
  function WarningLine(key: string, value: Json, stringify: Json -> string): (r: Option<string>)
    ensures r.Some? <==> value.JArr? || value.JStr? || value.JObj?
    ensures r.Some? ==> StartsWith(r.value, WarningPrefix(key))
  {
    var line :=
      if value.JArr? && |value.elems| > 0 then Some(WarningPrefix(key) + JoinElements(value, value.elems, ", "))
      else if value.JStr? then Some(WarningPrefix(key) + value.s)
      else if value.JArr? || value.JObj? then Some(WarningPrefix(key) + stringify(value))
      else None;
    if line.Some? then
      assert line.value[..|WarningPrefix(key)|] == WarningPrefix(key);
      line
    else line
  }

  /** The lines of all entries, in entry order. */
  function WarningLines(entries: seq<(string, Json)>, stringify: Json -> string): seq<string>
    decreases |entries|
  {
    if entries == [] then []
    else
      var last := entries[|entries| - 1];
      var init := WarningLines(entries[..|entries| - 1], stringify);
      match WarningLine(last.0, last.1, stringify)
      case None => init
      case Some(line) => init + [line]
  }

  /** One line per shown entry, and the lines of a concatenation are the
      lines of its halves in order. */
  lemma {:induction false} WarningLinesAppend(a: seq<(string, Json)>, b: seq<(string, Json)>, stringify: Json -> string)
    ensures WarningLines(a + b, stringify) == WarningLines(a, stringify) + WarningLines(b, stringify)
    decreases |b|
  {
    if b != [] {
      var b' := b[..|b| - 1];
      assert (a + b)[..|a + b| - 1] == a + b';
      assert (a + b)[|a + b| - 1] == b[|b| - 1];
      WarningLinesAppend(a, b', stringify);
    } else {
      assert a + b == a;
    }
  }

  /** Every entry with a line contributes it, and the others contribute
      nothing: the list is empty exactly when no entry is shown. */
  lemma {:induction false} WarningLinesEmpty(entries: seq<(string, Json)>, stringify: Json -> string)
    ensures WarningLines(entries, stringify) == [] <==>
      forall k :: 0 <= k < |entries| ==> WarningLine(entries[k].0, entries[k].1, stringify).None?
    decreases |entries|
  {
    if entries != [] {
      var init := entries[..|entries| - 1];
      WarningLinesEmpty(init, stringify);
      forall k | 0 <= k < |init| ensures init[k] == entries[k] { }
    }
  }

  /** Every line is prefixed by the key of an entry. */
  lemma {:induction false} WarningLinesHaveKeys(entries: seq<(string, Json)>, stringify: Json -> string, j: nat)
    requires j < |WarningLines(entries, stringify)|
    ensures exists k :: 0 <= k < |entries| && StartsWith(WarningLines(entries, stringify)[j], WarningPrefix(entries[k].0))
    decreases |entries|
  {
    var init := entries[..|entries| - 1];
    var last := entries[|entries| - 1];
    if j < |WarningLines(init, stringify)| {
      WarningLinesHaveKeys(init, stringify, j);
      var k :| 0 <= k < |init| && StartsWith(WarningLines(init, stringify)[j], WarningPrefix(init[k].0));
      assert init[k] == entries[k];
    } else {
      assert StartsWith(WarningLines(entries, stringify)[j], WarningPrefix(entries[|entries| - 1].0));
    }
  }

  /** The `Object.entries` loop. */
  method FormatWarnings(entries: seq<(string, Json)>, stringify: Json -> string) returns (messages: seq<string>)
    ensures messages == WarningLines(entries, stringify)
  {
    messages := [];
    var i := 0;
    while i < |entries|
      invariant 0 <= i <= |entries|
      invariant messages == WarningLines(entries[..i], stringify)
    {
      assert entries[..i + 1][..i] == entries[..i];
      var (key, value) := entries[i];
      var line := WarningLine(key, value, stringify);
      if line.Some? {
        messages := messages + [line.value];
      }
      i := i + 1;
    }
    assert entries[..i] == entries;
  }

  /** What the `Array.isArray(value) && value.length > 0` guard evidently
      means: an empty array, like null, contributes no line. */
  function WarningLineFixed(key: string, value: Json, stringify: Json -> string): (r: Option<string>)
    ensures r.Some? <==> (value.JArr? && |value.elems| > 0) || value.JStr? || value.JObj?
    ensures value != JArr([]) ==> r == WarningLine(key, value, stringify)
  {
    if value == JArr([]) then None else WarningLine(key, value, stringify)
  }

  /** As written, an empty array falls through to the object branch and
      is printed as its JSON text. */
  lemma EmptyArrayWarningShown(key: string, stringify: Json -> string)
    ensures WarningLine(key, JArr([]), stringify) == Some(WarningPrefix(key) + stringify(JArr([])))
    ensures WarningLineFixed(key, JArr([]), stringify) == None
  {
  }

  // ---------------------------------------------------------------------------
  // Callback data

  const APPROVE: string := "approve"
  const REJECT: string := "reject"

  function CallbackData(action: string, bookingId: int): string
  {
    UpdateHandler.CALLBACK_PREFIX + action + ":" + IntToString(bookingId)
  }

  function Keyboard(bookingId: int): seq<Button>
  {
    [Button("✅ Подтвердить", CallbackData(APPROVE, bookingId)),
     Button("❌ Отклонить", CallbackData(REJECT, bookingId))]
  }

  lemma IntToStringNoColon(n: int)
    ensures ':' !in IntToString(n)
  {
    var d := NatToString(if n < 0 then -n else n);
    assert forall i :: 0 <= i < |d| ==> d[i] != ':';
    if n < 0 {
      assert IntToString(n) == "-" + d;
    }
  }

  /** Both buttons' data pass the handler's three-part parse and give back
      the action and the booking's id. */
  lemma CallbackDataRoundTrip(action: string, bookingId: int)
    requires action in {APPROVE, REJECT}
    ensures UpdateHandler.ParseCallbackData(Some(CallbackData(action, bookingId))) == Some((action, Some(bookingId)))
  {
    var id := IntToString(bookingId);
    IntToStringNoColon(bookingId);
    assert ':' !in action;
    var data := CallbackData(action, bookingId);
    assert data == "booking" + ":" + action + ":" + id;
    SplitThree("booking", action, id, ':');
    assert data[..|UpdateHandler.CALLBACK_PREFIX|] == UpdateHandler.CALLBACK_PREFIX;
    ParseIntAutoToString(bookingId);
  }

  // ---------------------------------------------------------------------------
  // Message bodies

  function ItemLine(item: ItemDto): string
  {
    "   • " + item.modelName + " (" + item.inventoryNumber + ")\n"
  }

  function ItemLines(items: seq<ItemDto>): string
    decreases |items|
  {
    if items == [] then "" else ItemLines(items[..|items| - 1]) + ItemLine(items[|items| - 1])
  }

  method RenderItems(items: seq<ItemDto>) returns (lines: string)
    ensures lines == ItemLines(items)
  {
    lines := "";
    var i := 0;
    while i < |items|
      invariant 0 <= i <= |items|
      invariant lines == ItemLines(items[..i])
    {
      assert items[..i + 1][..i] == items[..i];
      lines := lines + ItemLine(items[i]);
      i := i + 1;
    }
    assert items[..i] == items;
  }

  /** The joined equipment of a booking (model name and inventory number). */
  function ItemsOf(db: Database, b: Booking): seq<ItemDto>
    reads db
  {
    var items, models := db.items, db.models;
    seq(|b.items|, k requires 0 <= k < |b.items| => BookingService.BookingItemToDto(b.items[k], items, models))
  }

  function PeriodLine(b: Booking, formatDate: int -> string): string
  {
    "📅 <b>Период:</b> " + formatDate(b.startTime) + " - " + formatDate(b.endTime) + "\n\n"
  }

  function ReasonLine(b: Booking): string
  {
    "📝 <b>Причина:</b> " + b.reason + "\n"
  }

  const EQUIPMENT_TITLE: string := "📦 <b>Оборудование:</b>\n"
  const PENDING_FOOTER: string := "\n\n⏳ <b>Статус:</b> Ожидает подтверждения"
  const WARNINGS_TITLE: string := "\n\n⚠️ <b>Предупреждения:</b>\n"

  function NewBookingTitle(b: Booking): string
  {
    "🆕 <b>Новое бронирование #" + IntToString(b.id) + "</b>\n\n"
  }

  /** The user line: `telegramUsername || '-'`. */
  function UserLine(owner: User): string
  {
    "👤 <b>Пользователь:</b> " + owner.name + " (@" + (if Truthy(owner.telegramUsername) then owner.telegramUsername.value else "-") + ")\n"
  }

  /** The new-booking message up to and including the equipment list. */
  function NewBookingHead(b: Booking, owner: User, items: seq<ItemDto>, formatDate: int -> string): string
  {
    NewBookingTitle(b) + UserLine(owner) + ReasonLine(b) + PeriodLine(b, formatDate) + EQUIPMENT_TITLE + ItemLines(items)
  }

  function CommentPart(b: Booking): string
  {
    if Truthy(b.comment) then "\n💭 Комментарий: " + b.comment.value else ""
  }

  /** The warnings section, present only when some entry has a line. */
  function WarningsPart(lines: seq<string>): string
  {
    if |lines| > 0 then WARNINGS_TITLE + Join(lines, "\n") else ""
  }

  function NewBookingText(b: Booking, owner: User, items: seq<ItemDto>, formatDate: int -> string, stringify: Json -> string): string
  {
    NewBookingHead(b, owner, items, formatDate) + CommentPart(b)
    + WarningsPart(WarningLines(b.warnings, stringify)) + PENDING_FOOTER
  }

  /** A booking without warnings worth a line carries no warnings section. */
  lemma NoWarningsNoSection(b: Booking, owner: User, items: seq<ItemDto>, formatDate: int -> string, stringify: Json -> string)
    requires forall k :: 0 <= k < |b.warnings| ==> b.warnings[k].1.JNull? || b.warnings[k].1.JBool? || b.warnings[k].1.JNum?
    ensures NewBookingText(b, owner, items, formatDate, stringify)
         == NewBookingHead(b, owner, items, formatDate) + CommentPart(b) + PENDING_FOOTER
  {
    WarningLinesEmpty(b.warnings, stringify);
  }

  /** The message ends with the pending footer whatever the booking. */
  lemma NewBookingEndsPending(b: Booking, owner: User, items: seq<ItemDto>, formatDate: int -> string, stringify: Json -> string)
    ensures var t := NewBookingText(b, owner, items, formatDate, stringify);
      |t| >= |PENDING_FOOTER| && t[|t| - |PENDING_FOOTER|..] == PENDING_FOOTER
  {
  }

  function StatusChangeTitle(b: Booking): string
  {
    " <b>Изменение статуса бронирования #" + IntToString(b.id) + "</b>\n\n"
  }

  function OldStatusMark(oldStatus: int): string
  {
    "<s>" + StatusText(oldStatus) + "</s>"
  }

  function NewStatusMark(newStatus: int): string
  {
    "<b>" + StatusText(newStatus) + "</b>"
  }

  const CHANGED_LABEL: string := "<b>Статус изменен:</b> "
  const ARROW: string := " → "

  function AdminCommentPart(b: Booking): string
  {
    if Truthy(b.adminComment) then "\n💬 <b>Комментарий администратора:</b> " + b.adminComment.value else ""
  }

  /** Everything after the status line. */
  function StatusChangeBody(b: Booking, items: seq<ItemDto>, formatDate: int -> string): string
  {
    "\n\n" + ReasonLine(b) + PeriodLine(b, formatDate) + EQUIPMENT_TITLE + ItemLines(items) + AdminCommentPart(b)
  }

  /** The message after the leading emoji. */
  function StatusChangeRest(b: Booking, oldStatus: int, newStatus: int, items: seq<ItemDto>, formatDate: int -> string): string
  {
    StatusChangeTitle(b) + CHANGED_LABEL + OldStatusMark(oldStatus) + ARROW + NewStatusMark(newStatus)
    + StatusChangeBody(b, items, formatDate)
  }

  function StatusChangeText(b: Booking, oldStatus: int, newStatus: int, items: seq<ItemDto>, formatDate: int -> string): string
  {
    StatusEmoji(newStatus) + StatusChangeRest(b, oldStatus, newStatus, items, formatDate)
  }

  // ---------------------------------------------------------------------------
  // Recipients

  predicate IsAdminWithChat(u: User)
  {
    u.role == ROLE_ADMIN && u.telegramChatId.Some?
  }

  /** The `findMany({ role: 3, telegramChatId: { not: null } })` rows. */
  function Admins(users: seq<User>): (r: seq<User>)
    ensures forall u :: u in r <==> u in users && IsAdminWithChat(u)
  {
    Filter(users, IsAdminWithChat)
  }

  /** One message per administrator, in the administrators' order. */
  function AdminMessages(admins: seq<User>, text: string, buttons: seq<Button>): (r: seq<Outgoing>)
    requires forall u :: u in admins ==> u.telegramChatId.Some?
    ensures |r| == |admins|
    ensures forall k :: 0 <= k < |admins| ==> r[k] == Outgoing(admins[k].telegramChatId.value, text, buttons)
  {
    seq(|admins|, k requires 0 <= k < |admins| => Outgoing(admins[k].telegramChatId.value, text, buttons))
  }

  /** Only administrators with a chat are written to, and each of them is. */
  lemma AdminMessagesReachAllAdmins(users: seq<User>, text: string, buttons: seq<Button>, chatId: int)
    ensures (exists m :: m in AdminMessages(Admins(users), text, buttons) && m.chatId == chatId)
        <==> (exists u :: u in users && IsAdminWithChat(u) && u.telegramChatId == Some(chatId))
  {
    if exists u :: u in users && IsAdminWithChat(u) && u.telegramChatId == Some(chatId) {
      var u :| u in users && IsAdminWithChat(u) && u.telegramChatId == Some(chatId);
      AdminReached(users, text, buttons, u);
    }
    if exists m :: m in AdminMessages(Admins(users), text, buttons) && m.chatId == chatId {
      var m :| m in AdminMessages(Admins(users), text, buttons) && m.chatId == chatId;
      OnlyAdminsReached(users, text, buttons, m);
    }
  }

  lemma AdminReached(users: seq<User>, text: string, buttons: seq<Button>, u: User)
    requires u in users && IsAdminWithChat(u)
    ensures Outgoing(u.telegramChatId.value, text, buttons) in AdminMessages(Admins(users), text, buttons)
  {
    var admins := Admins(users);
    var k :| 0 <= k < |admins| && admins[k] == u;
    assert AdminMessages(admins, text, buttons)[k] == Outgoing(u.telegramChatId.value, text, buttons);
  }

  lemma OnlyAdminsReached(users: seq<User>, text: string, buttons: seq<Button>, m: Outgoing)
    requires m in AdminMessages(Admins(users), text, buttons)
    ensures exists u :: u in users && IsAdminWithChat(u) && u.telegramChatId == Some(m.chatId)
  {
    var admins := Admins(users);
    var ms := AdminMessages(admins, text, buttons);
    var k :| 0 <= k < |ms| && ms[k] == m;
    assert admins[k] in admins;
  }

  // ---------------------------------------------------------------------------
  // The two notifications

  /** `notifyAdminsNewBooking`: nothing when the booking does not exist,
      otherwise the same message and buttons to each administrator. */
  function NewBookingNotifications(db: Database, bookingId: int, formatDate: int -> string, stringify: Json -> string): (r: seq<Outgoing>)
    reads db
    ensures BookingIndex(db.bookings, bookingId).None? ==> r == []
    ensures BookingIndex(db.bookings, bookingId).Some?
         && UserIndex(db.users, db.bookings[BookingIndex(db.bookings, bookingId).value].userId).Some?
         ==> |r| == |Admins(db.users)|
    ensures forall m :: m in r ==> m.buttons == Keyboard(bookingId)
  {
    match BookingIndex(db.bookings, bookingId)
    case None => []
    case Some(i) =>
      var b := db.bookings[i];
      match UserIndex(db.users, b.userId)
      case None => []
      case Some(u) =>
        assert b.id == bookingId;
        AdminMessages(Admins(db.users), NewBookingText(b, db.users[u], ItemsOf(db, b), formatDate, stringify), Keyboard(b.id))
  }

  /** The message the administrators receive, built as the source appends
      to it. */
  method BuildNewBookingText(b: Booking, owner: User, items: seq<ItemDto>, formatDate: int -> string, stringify: Json -> string)
    returns (message: string)
    ensures message == NewBookingText(b, owner, items, formatDate, stringify)
  {
    var lines := RenderItems(items);
    message := NewBookingTitle(b) + UserLine(owner) + ReasonLine(b) + PeriodLine(b, formatDate) + EQUIPMENT_TITLE + lines;
    message := message + CommentPart(b);
    var warnings := FormatWarnings(b.warnings, stringify);
    message := message + WarningsPart(warnings);
    message := message + PENDING_FOOTER;
  }

  /** The `for (const admin of admins)` loop. */
  method SendToAll(admins: seq<User>, message: string, keyboard: seq<Button>) returns (sent: seq<Outgoing>)
    requires forall u :: u in admins ==> u.telegramChatId.Some?
    ensures sent == AdminMessages(admins, message, keyboard)
  {
    sent := [];
    var k := 0;
    while k < |admins|
      invariant 0 <= k <= |admins|
      invariant |sent| == k
      invariant forall j :: 0 <= j < k ==> sent[j] == Outgoing(admins[j].telegramChatId.value, message, keyboard)
    {
      assert admins[k] in admins;
      sent := sent + [Outgoing(admins[k].telegramChatId.value, message, keyboard)];
      k := k + 1;
    }
  }

  method NotifyAdminsNewBooking(db: Database, bookingId: int, formatDate: int -> string, stringify: Json -> string)
    returns (sent: seq<Outgoing>)
    ensures sent == NewBookingNotifications(db, bookingId, formatDate, stringify)
  {
    var admins := Admins(db.users);
    var i := BookingIndex(db.bookings, bookingId);
    if i.None? {
      return [];
    }
    var b := db.bookings[i.value];
    var u := UserIndex(db.users, b.userId);
    if u.None? {
      return [];
    }
    var message := BuildNewBookingText(b, db.users[u.value], ItemsOf(db, b), formatDate, stringify);
    sent := SendToAll(admins, message, Keyboard(b.id));
  }

  /** The chat of the booking's owner, when the booking exists and the
      owner's chat id is truthy. */
  function OwnerChat(db: Database, bookingId: int): Option<int>
    reads db
  {
    match BookingIndex(db.bookings, bookingId)
    case None => None
    case Some(i) =>
      match UserIndex(db.users, db.bookings[i].userId)
      case None => None
      case Some(u) =>
        if UserService.ChatIdTruthy(db.users[u].telegramChatId) then db.users[u].telegramChatId else None
  }

  /** `notifyUserBookingStatusChanged`: one message to the owner's chat, or
      none when the booking is missing or the owner's chat id is falsy. */
  function StatusChangeNotification(db: Database, bookingId: int, oldStatus: int, newStatus: int, formatDate: int -> string): (r: Option<Outgoing>)
    reads db
    ensures r.Some? <==> OwnerChat(db, bookingId).Some?
    ensures r.Some? ==> r.value.buttons == [] && r.value.chatId == OwnerChat(db, bookingId).value
  {
    match BookingIndex(db.bookings, bookingId)
    case None => None
    case Some(i) =>
      var b := db.bookings[i];
      match UserIndex(db.users, b.userId)
      case None => None
      case Some(u) =>
        if !UserService.ChatIdTruthy(db.users[u].telegramChatId) then None
        else Some(Outgoing(db.users[u].telegramChatId.value, StatusChangeText(b, oldStatus, newStatus, ItemsOf(db, b), formatDate), []))
  }

  /** The status-change message heads with the new status's emoji. */
  lemma StatusChangeLeadsWithEmoji(b: Booking, oldStatus: int, newStatus: int, items: seq<ItemDto>, formatDate: int -> string)
    ensures StartsWith(StatusChangeText(b, oldStatus, newStatus, items, formatDate), StatusEmoji(newStatus))
  {
    var e := StatusEmoji(newStatus);
    var tail := StatusChangeRest(b, oldStatus, newStatus, items, formatDate);
    assert (e + tail)[..|e|] == e;
  }

  /** The status-change message names the old status (struck through) and
      the new one (in bold). */
  lemma StatusChangeNamesBothStatuses(b: Booking, oldStatus: int, newStatus: int, items: seq<ItemDto>, formatDate: int -> string)
    ensures HasSubstring(StatusChangeText(b, oldStatus, newStatus, items, formatDate), OldStatusMark(oldStatus))
    ensures HasSubstring(StatusChangeText(b, oldStatus, newStatus, items, formatDate), NewStatusMark(newStatus))
  {
    var e := StatusEmoji(newStatus);
    var pre := StatusChangeTitle(b) + CHANGED_LABEL;
    var o := OldStatusMark(oldStatus);
    var n := NewStatusMark(newStatus);
    var rest := StatusChangeBody(b, items, formatDate);
    Occurrences(pre, o, ARROW, n, rest);
    var r := pre + o + ARROW + n + rest;
    OccursInSuffix(e, r, o);
    OccursInSuffix(e, r, n);
  }

  /** In `pre + o + arrow + n + rest`, both `o` and `n` occur. */
  lemma Occurrences(pre: string, o: string, arrow: string, n: string, rest: string)
    ensures HasSubstring(pre + o + arrow + n + rest, o)
    ensures HasSubstring(pre + o + arrow + n + rest, n)
  {
    OccursItself(o);
    OccursInSuffix(pre, o, o);
    OccursInPrefix(pre + o, arrow + n + rest, o);
    assert pre + o + arrow + n + rest == (pre + o) + (arrow + n + rest);
    OccursItself(n);
    OccursInSuffix(pre + o + arrow, n, n);
    OccursInPrefix(pre + o + arrow + n, rest, n);
  }

  method BuildStatusChangeText(b: Booking, oldStatus: int, newStatus: int, items: seq<ItemDto>, formatDate: int -> string)
    returns (message: string)
    ensures message == StatusChangeText(b, oldStatus, newStatus, items, formatDate)
  {
    var lines := RenderItems(items);
    message := StatusEmoji(newStatus) + (StatusChangeTitle(b) + CHANGED_LABEL + OldStatusMark(oldStatus) + ARROW + NewStatusMark(newStatus));
    message := message + ("\n\n" + ReasonLine(b) + PeriodLine(b, formatDate) + EQUIPMENT_TITLE + lines + AdminCommentPart(b));
  }

  method NotifyUserBookingStatusChanged(db: Database, bookingId: int, oldStatus: int, newStatus: int, formatDate: int -> string)
    returns (sent: Option<Outgoing>)
    ensures sent == StatusChangeNotification(db, bookingId, oldStatus, newStatus, formatDate)
  {
    var i := BookingIndex(db.bookings, bookingId);
    if i.None? {
      return None;
    }
    var b := db.bookings[i.value];
    var u := UserIndex(db.users, b.userId);
    if u.None? || !UserService.ChatIdTruthy(db.users[u.value].telegramChatId) {
      return None;
    }
    var message := BuildStatusChangeText(b, oldStatus, newStatus, ItemsOf(db, b), formatDate);
    sent := Some(Outgoing(db.users[u.value].telegramChatId.value, message, []));
  }
}

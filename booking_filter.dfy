/** `BookingFilterCommand` (src/lib/telegram/commands/bookingFilter.ts): the
    user's bookings with one status (or all of them), rendered one part per
    booking and cut at 4000 UTF-16 code units. Date formatting is a parameter. */
module BookingFilter {
  import opened Wrappers
  import opened Text
  import opened Enums
  import opened Records
  import opened Seqs
  import opened Store
  import UserService
  import BookingService

  type BookingDto = BookingService.BookingResponseDto
  type ItemDto = BookingService.BookingItemDto

  const ALL: string := "all"
  const MAX_TEXT: nat := 4000
  const TRUNCATION_SUFFIX: string := "\n\n... (показаны первые бронирования)"
  const NO_BOOKINGS_MARK: string := "нет бронирований"

  // ---------------------------------------------------------------------------
  // Status labels

  /** `getStatusEmoji`, on the status names of the response objects. */
  function StatusEmoji(status: string): (r: string)
    ensures r != "🔹" <==> status in {"Pending", "Approved", "Completed", "Cancelled"}
  {
    if status == "Pending" then "⏳"
    else if status == "Approved" then "✅"
    else if status == "Completed" then "🏁"
    else if status == "Cancelled" then "❌"
    else "🔹"
  }

  /** `getStatusNameByString`: unknown names are shown as they are. */
  function StatusLabel(status: string): (r: string)
    ensures status !in {"Pending", "Approved", "Completed", "Cancelled"} ==> r == status
  {
    if status == "Pending" then "Ожидает"
    else if status == "Approved" then "Одобрено"
    else if status == "Completed" then "Завершено"
    else if status == "Cancelled" then "Отменено"
    else status
  }

  /** `getStatusName`: the heading for a filter, compared lower-cased. */
  function GroupName(status: string): (r: string)
    ensures Lower(status) !in {"pending", "approved", "completed", "cancelled", "all"} ==> r == status
  {
    var s := Lower(status);
    if s == "pending" then "Ожидают подтверждения"
    else if s == "approved" then "Одобренные"
    else if s == "completed" then "Завершенные"
    else if s == "cancelled" then "Отмененные"
    else if s == "all" then "Все бронирования"
    else status
  }

  /** Every status a response object can carry has its own emoji and label. */
  lemma StoredStatusesHaveLabels(st: BookingStatus)
    ensures StatusEmoji(StatusName(st)) != "🔹"
    ensures StatusLabel(StatusName(st)) != StatusName(st)
  {
  }

  // ---------------------------------------------------------------------------
  // Filtering and truncation

  function StatusFilter(bookings: seq<BookingDto>, status: string): (r: seq<BookingDto>)
    ensures status == ALL ==> r == bookings
    ensures status != ALL ==> forall b :: b in r <==> b in bookings && EqualsIgnoreCase(b.status, status)
    ensures |r| <= |bookings|
  {
    if status == ALL then bookings else Filter(bookings, (b: BookingDto) => EqualsIgnoreCase(b.status, status))
  }

  /** A text longer than 4000 UTF-16 code units (JavaScript's `length`)
      becomes its first 4000 units followed by the notice; a shorter one is
      kept. The cut falls on whole characters (`Utf16Prefix`). */
  function Truncate(text: string): (r: string)
    ensures Utf16Length(text) <= MAX_TEXT ==> r == text
    ensures Utf16Length(text) > MAX_TEXT ==> r == Utf16Prefix(text, MAX_TEXT) + TRUNCATION_SUFFIX
  {
    if Utf16Length(text) > MAX_TEXT then Utf16Prefix(text, MAX_TEXT) + TRUNCATION_SUFFIX else text
  }

  /** Truncating never removes what fits: the reply starts with the longest
      part of the text that fits in 4000 code units, which falls short of
      4000 only before a two-unit character; the reply is never longer than
      4000 units and the notice. */
  lemma TruncateKeepsPrefix(text: string)
    ensures StartsWith(Truncate(text), Utf16Prefix(text, MAX_TEXT))
    ensures Utf16Length(text) > MAX_TEXT ==> CutWellPlaced(text, MAX_TEXT)
    ensures Utf16Length(Truncate(text)) <= MAX_TEXT + |TRUNCATION_SUFFIX|
  {
    var p := Utf16Prefix(text, MAX_TEXT);
    if Utf16Length(text) > MAX_TEXT {
      assert Truncate(text) == p + TRUNCATION_SUFFIX;
      CutShape(text, MAX_TEXT, TRUNCATION_SUFFIX);
      SuffixIsBmp();
    } else {
      assert Truncate(text) == p == text;
      assert text[..|text|] == text;
    }
  }

  /** The cut `Utf16Prefix(text, n)` of a text longer than `n` units
      keeps `n` units, or `n - 1` when the next character takes two. */
  predicate CutWellPlaced(text: string, n: nat)
  {
    var p := Utf16Prefix(text, n);
    && n - 1 <= Utf16Length(p) <= n
    && (Utf16Length(p) < n ==> |p| < |text| && Utf16Units(text[|p|]) == 2)
  }

  /** The same for any bound and any notice. */
  lemma CutShape(text: string, n: nat, suffix: string)
    requires Utf16Length(text) > n
    ensures var p := Utf16Prefix(text, n);
      && StartsWith(p + suffix, p)
      && CutWellPlaced(text, n)
      && Utf16Length(p + suffix) <= n + Utf16Length(suffix)
  {
    var p := Utf16Prefix(text, n);
    assert (p + suffix)[..|p|] == p;
    Utf16LengthAppend(p, suffix);
  }

  lemma SuffixIsBmp()
    ensures Utf16Length(TRUNCATION_SUFFIX) == |TRUNCATION_SUFFIX|
  {
    assert forall i :: 0 <= i < |TRUNCATION_SUFFIX| ==> TRUNCATION_SUFFIX[i] as int < 0x1_0000;
    Utf16LengthBmp(TRUNCATION_SUFFIX);
  }

  /** The limit is in code units: 2100 calendar emoji are only 2100
      characters but 4200 units, so the text is cut. */
  lemma AstralTextIsCut()
    ensures var t := seq(2100, _ => '\U{1F4C5}');
      |t| <= MAX_TEXT && Truncate(t) != t
  {
    var t := seq(2100, _ => '\U{1F4C5}');
    Utf16LengthRun(2100, '\U{1F4C5}');
    var r := Truncate(t);
    assert r[|r| - 1] == TRUNCATION_SUFFIX[|TRUNCATION_SUFFIX| - 1];
    assert t[|t| - 1] == '\U{1F4C5}';
  }

  // ---------------------------------------------------------------------------
  // Rendering

  const ITEMS_TITLE: string := "   📦 Оборудование:\n"

  function IdLine(b: BookingDto): string
  {
    "🔹 <b>ID: " + IntToString(b.id) + "</b>\n"
  }

  function StatusLine(b: BookingDto): string
  {
    "   " + StatusEmoji(b.status) + " " + StatusLabel(b.status) + "\n"
  }

  function DatesLine(b: BookingDto, formatDate: int -> string): string
  {
    "   📅 " + formatDate(b.startTime) + " - " + formatDate(b.endTime) + "\n"
  }

  function ReasonLine(b: BookingDto): string
  {
    "   📝 " + b.reason + "\n"
  }

  function ItemLine(item: ItemDto): string
  {
    "      • " + item.modelName + " (" + item.inventoryNumber + ")\n"
  }

  /** The equipment lines, in order. */
  function ItemLines(items: seq<ItemDto>): string
    decreases |items|
  {
    if items == [] then "" else ItemLines(items[..|items| - 1]) + ItemLine(items[|items| - 1])
  }

  /** The equipment block, present only when the booking has items. */
  function ItemsBlock(b: BookingDto): string
  {
    if |b.equipmentModelIds| > 0 then ITEMS_TITLE + ItemLines(b.equipmentModelIds) else ""
  }

  function CommentLine(b: BookingDto): string
  {
    if Truthy(b.comment) then "   💭 " + b.comment.value + "\n" else ""
  }

  function AdminCommentLine(b: BookingDto): string
  {
    if Truthy(b.adminComment) then "   💬 Админ: " + b.adminComment.value + "\n" else ""
  }

  /** One booking's part of the reply. */
  function PartOf(b: BookingDto, formatDate: int -> string): string
  {
    IdLine(b) + StatusLine(b) + DatesLine(b, formatDate) + ReasonLine(b)
    + ItemsBlock(b) + CommentLine(b) + AdminCommentLine(b)
  }

  /** Each equipment item of a booking is listed in its part. */
  lemma {:induction false} ItemsListed(items: seq<ItemDto>, k: nat)
    requires k < |items|
    ensures HasSubstring(ItemLines(items), ItemLine(items[k]))
    decreases |items|
  {
    var init := items[..|items| - 1];
    if k == |items| - 1 {
      OccursItself(ItemLine(items[k]));
      OccursInSuffix(ItemLines(init), ItemLine(items[k]), ItemLine(items[k]));
    } else {
      assert init[k] == items[k];
      ItemsListed(init, k);
      OccursInPrefix(ItemLines(init), ItemLine(items[|items| - 1]), ItemLine(items[k]));
    }
  }

  /** The loop over the equipment of one booking. */
  method RenderItems(items: seq<ItemDto>) returns (lines: string)
    ensures lines == ItemLines(items)
  {
    lines := "";
    var i := 0;
    while i < |items|
      invariant 0 <= i <= |items|
      invariant lines == ItemLines(items[..i])
    {
      assert items[..i + 1][..i] == items[..i];
      lines := lines + ItemLine(items[i]);
      i := i + 1;
    }
    assert items[..i] == items;
  }

  method RenderPart(b: BookingDto, formatDate: int -> string) returns (part: string)
    ensures part == PartOf(b, formatDate)
  {
    part := IdLine(b) + StatusLine(b) + DatesLine(b, formatDate) + ReasonLine(b);
    if |b.equipmentModelIds| > 0 {
      var lines := RenderItems(b.equipmentModelIds);
      part := part + (ITEMS_TITLE + lines);
    } else {
      part := part + "";
    }
    part := part + CommentLine(b) + AdminCommentLine(b);
  }

  function Heading(status: string): string
  {
    "📆 <b>" + GroupName(status) + "</b>\n"
  }

  /** `responseParts`: the heading (the status group's title), then one part
      per booking. */
  function ResponseParts(bookings: seq<BookingDto>, heading: string, formatDate: int -> string): (r: seq<string>)
    ensures |r| == |bookings| + 1 && r[0] == heading
    decreases |bookings|
  {
    if bookings == [] then [heading]
    else ResponseParts(bookings[..|bookings| - 1], heading, formatDate) + [PartOf(bookings[|bookings| - 1], formatDate)]
  }

  /** Part `k + 1` belongs to booking `k`: the parts keep the bookings' order. */
  lemma {:induction false} PartsInOrder(bookings: seq<BookingDto>, heading: string, formatDate: int -> string, k: nat)
    requires k < |bookings|
    ensures ResponseParts(bookings, heading, formatDate)[k + 1] == PartOf(bookings[k], formatDate)
    decreases |bookings|
  {
    var init := bookings[..|bookings| - 1];
    if k < |bookings| - 1 {
      assert init[k] == bookings[k];
      PartsInOrder(init, heading, formatDate, k);
    }
  }

  /** Joining keeps every part in the text. */
  lemma {:induction false} JoinContainsParts(parts: seq<string>, sep: string, k: nat)
    requires k < |parts|
    ensures HasSubstring(Join(parts, sep), parts[k])
    decreases |parts|
  {
    if |parts| == 1 {
      OccursItself(parts[0]);
    } else if k == 0 {
      OccursItself(parts[0]);
      OccursInPrefix(parts[0], sep + Join(parts[1..], sep), parts[0]);
      assert parts[0] + sep + Join(parts[1..], sep) == parts[0] + (sep + Join(parts[1..], sep));
    } else {
      assert parts[1..][k - 1] == parts[k];
      JoinContainsParts(parts[1..], sep, k - 1);
      OccursInSuffix(parts[0] + sep, Join(parts[1..], sep), parts[k]);
    }
  }

  /** Below the length limit the reply is the joined parts themselves, so
      every part is in it; by `PartsInOrder`, part `k + 1` is booking `k`'s. */
  lemma ShortListShowsEveryBooking(bookings: seq<BookingDto>, heading: string, formatDate: int -> string, k: nat)
    requires k < |bookings|
    requires Utf16Length(Join(ResponseParts(bookings, heading, formatDate), "\n")) <= MAX_TEXT
    ensures HasSubstring(Truncate(Join(ResponseParts(bookings, heading, formatDate), "\n")), ResponseParts(bookings, heading, formatDate)[k + 1])
  {
    JoinContainsParts(ResponseParts(bookings, heading, formatDate), "\n", k + 1);
  }

  /** The reply text for a non-empty filtered list. */
  method RenderList(bookings: seq<BookingDto>, status: string, formatDate: int -> string) returns (text: string)
    ensures text == Truncate(Join(ResponseParts(bookings, Heading(status), formatDate), "\n"))
  {
    var parts := [Heading(status)];
    var i := 0;
    while i < |bookings|
      invariant 0 <= i <= |bookings|
      invariant parts == ResponseParts(bookings[..i], Heading(status), formatDate)
    {
      assert bookings[..i + 1][..i] == bookings[..i];
      var part := RenderPart(bookings[i], formatDate);
      parts := parts + [part];
      i := i + 1;
    }
    assert bookings[..i] == bookings;
    text := Join(parts, "\n");
    if Utf16Length(text) > MAX_TEXT {
      text := Utf16Prefix(text, MAX_TEXT) + TRUNCATION_SUFFIX;
    }
  }

  // ---------------------------------------------------------------------------
  // The command

  datatype FilterReply =
    | Silent                          // the chat is not linked
    | NoneWithStatus(group: string)   // "Нет бронирований со статусом <group>"
    | NoBookingsYet                   // "У вас пока нет бронирований"
    | Listing(text: string)

  /** The response objects of `getBookingsByUser`. */
  function UserDtos(db: Database, userId: int): (r: Result<seq<BookingDto>>)
    reads db
    ensures r.Err? <==> BookingService.GetBookingsByUser(db.bookings, userId).Err?
    ensures r.Err? ==> r.error == BookingService.GetBookingsByUser(db.bookings, userId).error
    ensures r.Ok? ==> var rows := BookingService.GetBookingsByUser(db.bookings, userId).value;
      && |r.value| == |rows|
      && forall k :: 0 <= k < |rows| ==>
           r.value[k] == BookingService.BookingToResponseDto(rows[k], db.users, db.items, db.models)
  {
    match BookingService.GetBookingsByUser(db.bookings, userId)
    case Err(e) => Err(e)
    case Ok(rows) =>
      var users, items, models := db.users, db.items, db.models;
      Ok(seq(|rows|, k requires 0 <= k < |rows| =>
        BookingService.BookingToResponseDto(rows[k], users, items, models)))
  }

  function FilterReplyOf(db: Database, chatId: int, status: string, formatDate: int -> string): (r: FilterReply)
    reads db
  {
    match UserService.ChatIndex(db.users, chatId)
    case None => Silent
    case Some(u) =>
      match UserDtos(db, db.users[u].id)
      case Err(e) => if HasSubstring(e, NO_BOOKINGS_MARK) then NoBookingsYet else Silent
      case Ok(all) =>
        var shown := StatusFilter(all, status);
        if |shown| == 0 then NoneWithStatus(GroupName(status))
        else Listing(Truncate(Join(ResponseParts(shown, Heading(status), formatDate), "\n")))
  }

  /** A linked user without any booking gets the "no bookings yet" reply:
      the service's error carries the words the command looks for. */
  lemma NoBookingsGiveNoBookingsYet(db: Database, chatId: int, status: string, formatDate: int -> string)
    requires UserService.ChatIndex(db.users, chatId).Some?
    requires forall b :: b in db.bookings ==> b.userId != db.users[UserService.ChatIndex(db.users, chatId).value].id
    ensures FilterReplyOf(db, chatId, status, formatDate) == NoBookingsYet
  {
    var id := db.users[UserService.ChatIndex(db.users, chatId).value].id;
    var e := BookingService.GetBookingsByUser(db.bookings, id).error;
    var pre := "У пользователя с ID " + IntToString(id);
    assert " нет бронирований" == " " + NO_BOOKINGS_MARK;
    assert e == (pre + " ") + NO_BOOKINGS_MARK;
    OccursItself(NO_BOOKINGS_MARK);
    OccursInSuffix(pre + " ", NO_BOOKINGS_MARK, NO_BOOKINGS_MARK);
  }

  /** `executeAsync`: nothing for an unlinked chat; otherwise the filtered
      list, its absence, or the "no bookings yet" reply. */
  method ExecuteAsync(db: Database, chatId: int, status: string, formatDate: int -> string) returns (reply: FilterReply)
    ensures reply == FilterReplyOf(db, chatId, status, formatDate)
  {
    var user := UserService.ChatIndex(db.users, chatId);
    if user.None? {
      return Silent;
    }
    var all := UserDtos(db, db.users[user.value].id);
    if all.Err? {
      if HasSubstring(all.error, NO_BOOKINGS_MARK) {
        return NoBookingsYet;
      }
      return Silent;
    }
    var bookings := StatusFilter(all.value, status);
    if |bookings| == 0 {
      return NoneWithStatus(GroupName(status));
    }
    var text := RenderList(bookings, status, formatDate);
    reply := Listing(text);
  }
}

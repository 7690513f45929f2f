/** `BookingService` (src/services/bookingService.ts): booking creation with
    per-line validation and allocation, the status transitions, the response
    mapping and the guarded queries. */
module BookingService {
  import opened Wrappers
  import opened Text
  import opened Enums
  import opened Records
  import opened Seqs
  import opened Availability
  import opened Store

  // ---------------------------------------------------------------------------
  // Requests and messages

  datatype RequestLine = RequestLine(modelName: string, quantity: int)

  /** `CreateBookingRequestDto`; `equipment` is `None` when the field is
      missing from the request body. */
  datatype CreateBookingRequest = CreateBookingRequest(
    reason: string,
    startTime: int,
    endTime: int,
    comment: Option<string>,
    equipment: Option<seq<RequestLine>>)

  const USER_NOT_FOUND: string := "Пользователь не найден"
  const BAD_WINDOW: string := "Дата начала должна быть раньше даты окончания"
  const NO_EQUIPMENT: string := "Не выбрано оборудование для бронирования"
  const NOT_OWNER: string := "Вы не можете отменить чужое бронирование"
  const ALREADY_CANCELLED: string := "Это бронирование уже отменено"
  const NO_BOOKING_ITEMS: string := "У бронирования нет связанных элементов оборудования"
  const BLANK_INVENTORY_NUMBER: string := "Инвентарный номер не может быть пустым"
  const SHORT_NOTICE_KEY: string := "Неверная дата"
  const SHORT_NOTICE_TEXT: string := "Бронирование создается меньше чем за 3 дня"

  /** Milliseconds in a day (`1000 * 60 * 60 * 24`). */
  const DAY_MS: int := 86400000

  function QuantityError(name: string): string
  {
    "Количество для модели '" + name + "' должно быть больше 0"
  }

  function UnknownModelError(name: string): string
  {
    "Модель оборудования '" + name + "' не найдена"
  }

  function RoninError(name: string): string
  {
    "У вас нет доступа к оборудованию '" + name + "'. Требуется разрешение Ronin"
  }

  function OsnovaError(name: string): string
  {
    "У вас нет доступа к оборудованию '" + name + "'. Требуется быть в основе"
  }

  function ShortageError(name: string, available: nat, required: int): string
  {
    "Недостаточно доступного оборудования модели '" + name + "'. Доступно: "
      + NatToString(available) + ", требуется: " + IntToString(required)
  }

  function BookingNotFound(id: int): string
  {
    "Бронирование с ID " + IntToString(id) + " не найдено"
  }

  // ---------------------------------------------------------------------------
  // Validation steps of createBooking

  /** The first model whose name equals `name` exactly (`findFirst`). */
  function ModelByName(models: seq<EqModel>, name: string): (r: Option<nat>)
    ensures r.Some? ==> r.value < |models| && models[r.value].name == name
    ensures r.None? <==> forall k :: 0 <= k < |models| ==> models[k].name != name
  {
    FirstIndex(models, (m: EqModel) => m.name == name)
  }

  /** The access `switch`: the error for a role below the model's tier. */
  function AccessDenied(role: int, access: EquipmentAccess, name: string): Option<string>
  {
    match access
    case AccessRonin => if role < ROLE_RONIN then Some(RoninError(name)) else None
    case AccessOsnova => if role < ROLE_OSNOVA then Some(OsnovaError(name)) else None
    case AccessUser => None
  }

  /** A role may book a tier exactly when it is at least the tier's number:
      Ronin needs 2, Osnova needs 1, User is open to all. */
  lemma AccessRule(role: int, access: EquipmentAccess, name: string)
    ensures access == AccessUser ==> AccessDenied(role, access, name).None?
    ensures access != AccessUser ==> (AccessDenied(role, access, name).None? <==> role >= AccessCode(access))
  {
  }

  /** Admins pass every tier; passing is monotone in the role. */
  lemma AccessMonotone(role: int, role': int, access: EquipmentAccess, name: string)
    requires role <= role'
    ensures AccessDenied(role, access, name).None? ==> AccessDenied(role', access, name).None?
    ensures AccessDenied(ROLE_ADMIN, access, name).None?
  {
  }

  /** The short-notice warning, written whenever the start is less than two
      days (in milliseconds) after `now`. */
  function ShortNoticeWarnings(start: int, now: int): (w: seq<(string, Json)>)
    ensures |w| <= 1
    ensures w != [] <==> start - now < 2 * DAY_MS
    ensures forall e :: e in w ==> e.0 == SHORT_NOTICE_KEY
  {
    if start - now < 2 * DAY_MS then [(SHORT_NOTICE_KEY, JStr(SHORT_NOTICE_TEXT))] else []
  }

  /** The integer comparison agrees with the source's fractional day count
      `(start - now) / (1000 * 60 * 60 * 24) < 2`. */
  lemma DaysDiffAgrees(start: int, now: int)
    ensures ((start - now) as real / DAY_MS as real < 2.0) <==> (start - now < 2 * DAY_MS)
  {
    var d := (start - now) as real / DAY_MS as real;
    assert d * DAY_MS as real == (start - now) as real;
    if d < 2.0 {
      assert d * DAY_MS as real < 2.0 * DAY_MS as real;
    } else {
      assert d * DAY_MS as real >= 2.0 * DAY_MS as real;
    }
  }

  /** One request line: quantity, model lookup, access tier, then the first
      `quantity` free items of the model. */
  function StageLine(line: RequestLine, role: int, models: seq<EqModel>, items: seq<EqItem>,
                     bookings: seq<Booking>, start: int, end: int): (r: Result<seq<EqItem>>)
    ensures r.Ok? ==> line.quantity > 0 && |r.value| == line.quantity
    ensures r.Ok? ==> forall x :: x in r.value ==> x in items && x.available && !Claimed(bookings, x.id, start, end)
    ensures r.Ok? ==> (ModelByName(models, line.modelName).Some?
      && AccessDenied(role, models[ModelByName(models, line.modelName).value].access, line.modelName).None?
      && forall x :: x in r.value ==> x.modelId == models[ModelByName(models, line.modelName).value].id)
    ensures r.Ok? && DistinctIds(items) ==> DistinctIds(r.value)
    // the checks, in the order the loop body makes them
    ensures line.quantity <= 0 ==> r == Err(QuantityError(line.modelName))
    ensures line.quantity > 0 && ModelByName(models, line.modelName).None? ==> r == Err(UnknownModelError(line.modelName))
    ensures line.quantity > 0 && ModelByName(models, line.modelName).Some? ==>
      var m := models[ModelByName(models, line.modelName).value];
      var avail := GetAvailableItems(items, m.id, bookings, start, end, line.quantity);
      && (AccessDenied(role, m.access, line.modelName).Some? ==> r == Err(AccessDenied(role, m.access, line.modelName).value))
      && (AccessDenied(role, m.access, line.modelName).None? && |avail| < line.quantity ==>
            r == Err(ShortageError(line.modelName, |avail|, line.quantity)))
      && (AccessDenied(role, m.access, line.modelName).None? && |avail| >= line.quantity ==> r.Ok?)
  {
    if line.quantity <= 0 then Err(QuantityError(line.modelName))
    else match ModelByName(models, line.modelName)
      case None => Err(UnknownModelError(line.modelName))
      case Some(i) =>
        match AccessDenied(role, models[i].access, line.modelName)
        case Some(e) => Err(e)
        case None =>
          var avail := GetAvailableItems(items, models[i].id, bookings, start, end, line.quantity);
          if |avail| < line.quantity then Err(ShortageError(line.modelName, |avail|, line.quantity))
          else Ok(avail)
  }

  function TotalQuantity(lines: seq<RequestLine>): int
  {
    if lines == [] then 0 else lines[0].quantity + TotalQuantity(lines[1..])
  }

  /** The `for` loop over the request lines, as written: each line draws from
      the whole item table, so items staged by an earlier line are not
      excluded. Fails with the first failing line's error. */
  function StageLines(lines: seq<RequestLine>, role: int, models: seq<EqModel>, items: seq<EqItem>,
                      bookings: seq<Booking>, start: int, end: int): (r: Result<seq<EqItem>>)
    ensures r.Ok? ==> |r.value| == TotalQuantity(lines)
    ensures r.Ok? ==> forall x :: x in r.value ==> x in items && x.available && !Claimed(bookings, x.id, start, end)
  {
    if lines == [] then Ok([])
    else
      match StageLine(lines[0], role, models, items, bookings, start, end)
      case Err(e) => Err(e)
      case Ok(a) =>
        match StageLines(lines[1..], role, models, items, bookings, start, end)
        case Err(e) => Err(e)
        case Ok(b) => Ok(a + b)
  }

  /** The lines are checked in request order: the request succeeds iff every
      line does, and otherwise fails with the error of the first failing line
      (so no later line is looked at). */
  lemma {:induction false} StageLinesFirstError(lines: seq<RequestLine>, role: int, models: seq<EqModel>, items: seq<EqItem>,
                                                bookings: seq<Booking>, start: int, end: int)
    ensures var r := StageLines(lines, role, models, items, bookings, start, end);
      (r.Ok? <==> forall l :: 0 <= l < |lines| ==> StageLine(lines[l], role, models, items, bookings, start, end).Ok?)
    ensures var r := StageLines(lines, role, models, items, bookings, start, end);
      r.Err? ==> exists l :: (0 <= l < |lines|
        && StageLine(lines[l], role, models, items, bookings, start, end) == Err(r.error)
        && forall l' :: 0 <= l' < l ==> StageLine(lines[l'], role, models, items, bookings, start, end).Ok?)
  {
    if lines != [] {
      var tail := lines[1..];
      StageLinesFirstError(tail, role, models, items, bookings, start, end);
      assert forall l :: 1 <= l < |lines| ==> lines[l] == tail[l - 1];
      var first := StageLine(lines[0], role, models, items, bookings, start, end);
      var rest := StageLines(tail, role, models, items, bookings, start, end);
      if first.Ok? && rest.Err? {
        var l :| 0 <= l < |tail|
          && StageLine(tail[l], role, models, items, bookings, start, end) == Err(rest.error)
          && forall l' :: 0 <= l' < l ==> StageLine(tail[l'], role, models, items, bookings, start, end).Ok?;
        assert StageLine(lines[l + 1], role, models, items, bookings, start, end) == Err(rest.error);
        assert forall l' :: 0 < l' < l + 1 ==> StageLine(lines[l'], role, models, items, bookings, start, end).Ok? by {
          forall l' | 0 < l' < l + 1 ensures StageLine(lines[l'], role, models, items, bookings, start, end).Ok? {
            assert lines[l'] == tail[l' - 1];
          }
        }
      }
      if first.Ok? && rest.Ok? {
        forall l | 0 <= l < |lines| ensures StageLine(lines[l], role, models, items, bookings, start, end).Ok? {
          if l > 0 {
            assert lines[l] == tail[l - 1];
          }
        }
      }
    }
  }

  /** The checks before the loop: the requester exists, the window is
      non-empty and at least one line is given. */
  function Preflight(users: seq<User>, req: CreateBookingRequest, userId: int): (r: Result<(User, seq<RequestLine>)>)
    ensures r.Ok? ==> UserIndex(users, userId).Some? && r.value.0 == users[UserIndex(users, userId).value]
    ensures r.Ok? ==> req.startTime < req.endTime && req.equipment == Some(r.value.1) && |r.value.1| > 0
    // the checks, in the order the method makes them, and success when all pass
    ensures UserIndex(users, userId).None? ==> r == Err(USER_NOT_FOUND)
    ensures UserIndex(users, userId).Some? && req.startTime >= req.endTime ==> r == Err(BAD_WINDOW)
    ensures (UserIndex(users, userId).Some? && req.startTime < req.endTime
             && (req.equipment.None? || |req.equipment.value| == 0)) ==> r == Err(NO_EQUIPMENT)
    ensures (UserIndex(users, userId).Some? && req.startTime < req.endTime
             && req.equipment.Some? && |req.equipment.value| > 0) ==> r.Ok?
  {
    match UserIndex(users, userId)
    case None => Err(USER_NOT_FOUND)
    case Some(i) =>
      if req.startTime >= req.endTime then Err(BAD_WINDOW)
      else if req.equipment.None? || |req.equipment.value| == 0 then Err(NO_EQUIPMENT)
      else Ok((users[i], req.equipment.value))
  }

  /** What a successful `createBooking` writes besides the fixed fields. */
  datatype Plan = Plan(warnings: seq<(string, Json)>, chosen: seq<EqItem>)

  /** `createBooking` up to the insert, as written. */
  function PlanBooking(users: seq<User>, models: seq<EqModel>, items: seq<EqItem>, bookings: seq<Booking>,
                       req: CreateBookingRequest, userId: int, now: int): (r: Result<Plan>)
    ensures r.Ok? ==> Preflight(users, req, userId).Ok?
    ensures r.Ok? ==> var lines := Preflight(users, req, userId).value.1;
      && |r.value.chosen| == TotalQuantity(lines)
      && (forall x :: x in r.value.chosen ==> x in items && x.available && !Claimed(bookings, x.id, req.startTime, req.endTime))
      && (r.value.warnings != [] <==> req.startTime - now < 2 * DAY_MS)
  {
    match Preflight(users, req, userId)
    case Err(e) => Err(e)
    case Ok(p) =>
      match StageLines(p.1, p.0.role, models, items, bookings, req.startTime, req.endTime)
      case Err(e) => Err(e)
      case Ok(chosen) => Ok(Plan(ShortNoticeWarnings(req.startTime, now), chosen))
  }

  /** The request-level checks come before any line is looked at; past them
      the plan succeeds iff every line does, and otherwise fails with the
      error of the first failing line. */
  lemma PlanBookingOrder(users: seq<User>, models: seq<EqModel>, items: seq<EqItem>, bookings: seq<Booking>,
                         req: CreateBookingRequest, userId: int, now: int)
    ensures var pre := Preflight(users, req, userId);
      pre.Err? ==> PlanBooking(users, models, items, bookings, req, userId, now) == Err(pre.error)
    ensures var pre := Preflight(users, req, userId);
      var plan := PlanBooking(users, models, items, bookings, req, userId, now);
      pre.Ok? ==>
        var lines := pre.value.1;
        var role := pre.value.0.role;
        && (plan.Ok? <==> forall l :: 0 <= l < |lines| ==> StageLine(lines[l], role, models, items, bookings, req.startTime, req.endTime).Ok?)
        && (plan.Err? ==> exists l :: (0 <= l < |lines|
              && StageLine(lines[l], role, models, items, bookings, req.startTime, req.endTime) == Err(plan.error)
              && forall l' :: 0 <= l' < l ==> StageLine(lines[l'], role, models, items, bookings, req.startTime, req.endTime).Ok?))
  {
    var pre := Preflight(users, req, userId);
    if pre.Ok? {
      StageLinesFirstError(pre.value.1, pre.value.0.role, models, items, bookings, req.startTime, req.endTime);
    }
  }

  /** `request.comment || null`: an empty comment is stored as null. */
  function StoredComment(c: Option<string>): Option<string>
  {
    if c.Some? && c.value != "" then c else None
  }

  /** One BookingItem per staged item, with the booking's window. */
  function ClaimRows(chosen: seq<EqItem>, firstId: int, start: int, end: int): (r: seq<BookingItem>)
    ensures |r| == |chosen|
    ensures forall k :: 0 <= k < |r| ==> r[k].equipmentItemId == chosen[k].id && r[k].id == firstId + k
    ensures forall k :: 0 <= k < |r| ==> r[k].startDate == start && r[k].endDate == end && !r[k].isReturned
  {
    seq(|chosen|, k requires 0 <= k < |chosen| => BookingItem(firstId + k, chosen[k].id, start, end, false))
  }

  /** The row `booking.create` inserts. */
  function NewBooking(id: int, firstItemId: int, userId: int, req: CreateBookingRequest, plan: Plan, now: int): Booking
  {
    Booking(id, userId, req.reason, now, req.startTime, req.endTime, Pending,
            StoredComment(req.comment), None, plan.warnings,
            ClaimRows(plan.chosen, firstItemId, req.startTime, req.endTime))
  }

  /** A successful booking is Pending with no admin comment, has one
      BookingItem per requested unit, each with the booking's window and not
      returned, and carries the warning exactly on short notice. */
  lemma SuccessfulBookingShape(users: seq<User>, models: seq<EqModel>, items: seq<EqItem>, bookings: seq<Booking>,
                               req: CreateBookingRequest, userId: int, now: int, id: int, firstItemId: int)
    requires PlanBooking(users, models, items, bookings, req, userId, now).Ok?
    ensures var b := NewBooking(id, firstItemId, userId, req, PlanBooking(users, models, items, bookings, req, userId, now).value, now);
      && b.status == Pending && b.adminComment == None
      && req.equipment.Some? && |b.items| == TotalQuantity(req.equipment.value)
      && (forall k :: 0 <= k < |b.items| ==>
            b.items[k].startDate == req.startTime && b.items[k].endDate == req.endTime && !b.items[k].isReturned)
      && (b.warnings == [(SHORT_NOTICE_KEY, JStr(SHORT_NOTICE_TEXT))] <==> req.startTime - now < 2 * DAY_MS)
      && (b.warnings == [] <==> req.startTime - now >= 2 * DAY_MS)
  {
  }

  // ---------------------------------------------------------------------------
  // Response mapping

  datatype BookingItemDto = BookingItemDto(
    id: int,
    equipmentItemId: int,
    inventoryNumber: string,
    modelName: string,
    startDate: int,
    endDate: int,
    isReturned: bool)

  datatype BookingResponseDto = BookingResponseDto(
    id: int,
    userName: string,
    login: string,
    telegramUsername: string,
    reason: string,
    creationTime: int,
    startTime: int,
    endTime: int,
    status: string,
    equipmentModelIds: seq<BookingItemDto>,
    warnings: seq<(string, Json)>,
    comment: Option<string>,
    adminComment: Option<string>)

  /** One BookingItem with its joined item and model; missing joins give ''. */
  function BookingItemToDto(bi: BookingItem, items: seq<EqItem>, models: seq<EqModel>): (r: BookingItemDto)
    ensures r.id == bi.id && r.equipmentItemId == bi.equipmentItemId
    ensures r.startDate == bi.startDate && r.endDate == bi.endDate && r.isReturned == bi.isReturned
    ensures ItemIndex(items, bi.equipmentItemId).None? ==> r.inventoryNumber == "" && r.modelName == ""
    ensures ItemIndex(items, bi.equipmentItemId).Some? ==>
      var it := items[ItemIndex(items, bi.equipmentItemId).value];
      && r.inventoryNumber == it.inventoryNumber
      && (ModelIndex(models, it.modelId).Some? ==> r.modelName == models[ModelIndex(models, it.modelId).value].name)
      && (ModelIndex(models, it.modelId).None? ==> r.modelName == "")
  {
    match ItemIndex(items, bi.equipmentItemId)
    case None => BookingItemDto(bi.id, bi.equipmentItemId, "", "", bi.startDate, bi.endDate, bi.isReturned)
    case Some(i) =>
      var name := match ModelIndex(models, items[i].modelId)
        case None => ""
        case Some(m) => models[m].name;
      BookingItemDto(bi.id, bi.equipmentItemId, items[i].inventoryNumber, name, bi.startDate, bi.endDate, bi.isReturned)
  }

  /** `bookingToResponseDto` on a booking joined with its user and items. */
  function BookingToResponseDto(b: Booking, users: seq<User>, items: seq<EqItem>, models: seq<EqModel>): (r: BookingResponseDto)
    ensures r.id == b.id && r.reason == b.reason && r.creationTime == b.creationTime
    ensures r.startTime == b.startTime && r.endTime == b.endTime
    ensures r.status == StatusName(b.status)
    ensures r.comment == b.comment && r.adminComment == b.adminComment && r.warnings == b.warnings
    ensures |r.equipmentModelIds| == |b.items|
    ensures forall k :: 0 <= k < |b.items| ==> r.equipmentModelIds[k] == BookingItemToDto(b.items[k], items, models)
    ensures UserIndex(users, b.userId).None? ==> r.userName == "" && r.login == "" && r.telegramUsername == ""
    ensures UserIndex(users, b.userId).Some? ==>
      var u := users[UserIndex(users, b.userId).value];
      r.userName == u.name && r.login == u.login && r.telegramUsername == u.telegramUsername.GetOr("")
  {
    var owner := UserIndex(users, b.userId);
    BookingResponseDto(
      b.id,
      if owner.Some? then users[owner.value].name else "",
      if owner.Some? then users[owner.value].login else "",
      if owner.Some? then users[owner.value].telegramUsername.GetOr("") else "",
      b.reason, b.creationTime, b.startTime, b.endTime, StatusName(b.status),
      seq(|b.items|, k requires 0 <= k < |b.items| => BookingItemToDto(b.items[k], items, models)),
      b.warnings, b.comment, b.adminComment)
  }

  // ---------------------------------------------------------------------------
  // createBooking

  /** The loop's view of the result: the items staged so far followed by the
      rest of the lines' result. */
  function Continue(staged: seq<EqItem>, rest: Result<seq<EqItem>>): Result<seq<EqItem>>
  {
    match rest
    case Err(e) => Err(e)
    case Ok(more) => Ok(staged + more)
  }

  /** One step of the loop over the lines, stated on the specification. */
  lemma StageStep(lines: seq<RequestLine>, i: nat, staged: seq<EqItem>, role: int, models: seq<EqModel>,
                  items: seq<EqItem>, bookings: seq<Booking>, start: int, end: int)
    requires i < |lines|
    ensures var step := StageLine(lines[i], role, models, items, bookings, start, end);
      var here := Continue(staged, StageLines(lines[i..], role, models, items, bookings, start, end));
      && (step.Err? ==> here == Err(step.error))
      && (step.Ok? ==> here == Continue(staged + step.value, StageLines(lines[i + 1..], role, models, items, bookings, start, end)))
  {
    var suffix := lines[i..];
    assert suffix != [] && suffix[0] == lines[i] && suffix[1..] == lines[i + 1..];
    var step := StageLine(lines[i], role, models, items, bookings, start, end);
    var tail := StageLines(lines[i + 1..], role, models, items, bookings, start, end);
    if step.Err? {
      assert StageLines(suffix, role, models, items, bookings, start, end) == Err(step.error);
    } else if tail.Err? {
      assert StageLines(suffix, role, models, items, bookings, start, end) == Err(tail.error);
    } else {
      assert StageLines(suffix, role, models, items, bookings, start, end) == Ok(step.value + tail.value);
      assert staged + (step.value + tail.value) == (staged + step.value) + tail.value;
    }
  }

  /** The `for` loop of `createBooking` over `request.equipment`: checks each
      line in order and accumulates the staged items, reading the store. */
  method StageRequestLines(db: Database, lines: seq<RequestLine>, role: int, start: int, end: int)
    returns (r: Result<seq<EqItem>>)
    ensures r == StageLines(lines, role, db.models, db.items, db.bookings, start, end)
  {
    ghost var all := StageLines(lines, role, db.models, db.items, db.bookings, start, end);
    var staged: seq<EqItem> := [];
    var i := 0;
    assert lines[0..] == lines;
    assert all.Ok? ==> [] + all.value == all.value;
    while i < |lines|
      invariant 0 <= i <= |lines|
      invariant all == Continue(staged, StageLines(lines[i..], role, db.models, db.items, db.bookings, start, end))
    {
      StageStep(lines, i, staged, role, db.models, db.items, db.bookings, start, end);
      var step := StageOne(db, lines[i], role, start, end);
      if step.Err? {
        return Err(step.error);
      }
      staged := staged + step.value;
      i := i + 1;
    }
    assert lines[i..] == [];
    assert staged + [] == staged;
    r := Ok(staged);
  }

  /** The body of that loop for one line: the quantity, the model, the
      access level and the available units, in this order. */
  method StageOne(db: Database, line: RequestLine, role: int, start: int, end: int)
    returns (step: Result<seq<EqItem>>)
    ensures step == StageLine(line, role, db.models, db.items, db.bookings, start, end)
  {
    if line.quantity <= 0 {
      return Err(QuantityError(line.modelName));
    }
    var mi := ModelByName(db.models, line.modelName);
    if mi.None? {
      return Err(UnknownModelError(line.modelName));
    }
    var model := db.models[mi.value];
    match model.access {
      case AccessRonin =>
        if role < ROLE_RONIN {
          return Err(RoninError(line.modelName));
        }
      case AccessOsnova =>
        if role < ROLE_OSNOVA {
          return Err(OsnovaError(line.modelName));
        }
      case AccessUser =>
    }
    var available := GetAvailableItems(db.items, model.id, db.bookings, start, end, line.quantity);
    if |available| < line.quantity {
      return Err(ShortageError(line.modelName, |available|, line.quantity));
    }
    step := Ok(available);
  }

  /** `createBooking`: every check precedes the single insert, so a failed
      request leaves the store unchanged. */
  method CreateBooking(db: Database, req: CreateBookingRequest, userId: int, now: int) returns (r: Result<BookingResponseDto>)
    requires db.Valid()
    modifies db
    ensures db.Valid()
    ensures db.users == old(db.users) && db.models == old(db.models) && db.items == old(db.items)
    ensures db.nextUserId == old(db.nextUserId) && db.nextModelId == old(db.nextModelId) && db.nextItemId == old(db.nextItemId)
    ensures var plan := PlanBooking(old(db.users), old(db.models), old(db.items), old(db.bookings), req, userId, now);
      && (plan.Err? ==>
            (r == Err(plan.error) && db.bookings == old(db.bookings)
             && db.nextBookingId == old(db.nextBookingId) && db.nextBookingItemId == old(db.nextBookingItemId)))
      && (plan.Ok? ==>
            var b := NewBooking(old(db.nextBookingId), old(db.nextBookingItemId), userId, req, plan.value, now);
            && db.bookings == old(db.bookings) + [b]
            && db.nextBookingId == old(db.nextBookingId) + 1
            && db.nextBookingItemId == old(db.nextBookingItemId) + |plan.value.chosen|
            && r == Ok(BookingToResponseDto(b, db.users, db.items, db.models)))
  {
    var ui := UserIndex(db.users, userId);
    if ui.None? {
      return Err(USER_NOT_FOUND);
    }
    var user := db.users[ui.value];
    if req.startTime >= req.endTime {
      return Err(BAD_WINDOW);
    }
    if req.equipment.None? || |req.equipment.value| == 0 {
      return Err(NO_EQUIPMENT);
    }
    var warnings := ShortNoticeWarnings(req.startTime, now);
    var staged := StageRequestLines(db, req.equipment.value, user.role, req.startTime, req.endTime);
    if staged.Err? {
      assert Preflight(db.users, req, userId) == Ok((user, req.equipment.value));
      return Err(staged.error);
    }
    assert Preflight(db.users, req, userId) == Ok((user, req.equipment.value));
    assert PlanBooking(db.users, db.models, db.items, db.bookings, req, userId, now) == Ok(Plan(warnings, staged.value));
    var b := NewBooking(db.nextBookingId, db.nextBookingItemId, userId, req, Plan(warnings, staged.value), now);
    db.InsertBooking(b);
    r := Ok(BookingToResponseDto(b, db.users, db.items, db.models));
  }

  // ---------------------------------------------------------------------------
  // No double-booking, under the two conditions the code needs

  /** Two claims on the same item by bookings that both block, with
      overlapping windows. */
  predicate Clash(b1: Booking, bi1: BookingItem, b2: Booking, bi2: BookingItem)
  {
    && Blocking(b1.status) && Blocking(b2.status)
    && bi1.equipmentItemId == bi2.equipmentItemId
    && bi1.startDate < bi2.endDate && bi2.startDate < bi1.endDate
  }

  /** No two distinct BookingItem rows clash. */
  predicate NoDoubleBooking(bookings: seq<Booking>)
  {
    forall k1, j1, k2, j2 ::
      0 <= k1 < |bookings| && 0 <= j1 < |bookings[k1].items| &&
      0 <= k2 < |bookings| && 0 <= j2 < |bookings[k2].items| &&
      (k1 != k2 || j1 != j2) ==>
        !Clash(bookings[k1], bookings[k1].items[j1], bookings[k2], bookings[k2].items[j2])
  }

  predicate DistinctNames(lines: seq<RequestLine>)
  {
    forall a, b :: 0 <= a < b < |lines| ==> lines[a].modelName != lines[b].modelName
  }

  /** Item `x` belongs to the model a line names. */
  predicate Serves(x: EqItem, name: string, models: seq<EqModel>)
  {
    ModelByName(models, name).Some? && x.modelId == models[ModelByName(models, name).value].id
  }

  lemma {:induction false} DistinctConcat(a: seq<EqItem>, b: seq<EqItem>)
    requires DistinctIds(a) && DistinctIds(b)
    requires forall x, y :: x in a && y in b ==> x.id != y.id
    ensures DistinctIds(a + b)
  {
    forall p, q | 0 <= p < q < |a + b|
      ensures (a + b)[p].id != (a + b)[q].id
    {
      if q < |a| {
      } else if p >= |a| {
        assert (a + b)[p] == b[p - |a|] && (a + b)[q] == b[q - |a|];
      } else {
        assert (a + b)[p] == a[p] && (a + b)[q] == b[q - |a|];
        assert a[p] in a && b[q - |a|] in b;
      }
    }
  }

  /** In a table with unique identifiers, equal identifiers mean equal rows. */
  lemma SameIdSameItem(items: seq<EqItem>, x: EqItem, y: EqItem)
    requires DistinctIds(items) && x in items && y in items && x.id == y.id
    ensures x == y
  {
    var p :| 0 <= p < |items| && items[p] == x;
    var q :| 0 <= q < |items| && items[q] == y;
    if p < q {
    } else if q < p {
    }
  }

  /** Every staged item serves some line; with distinct model names (and
      unique model and item identifiers) no item is staged twice. */
  lemma {:induction false} StagedItemsDistinct(lines: seq<RequestLine>, role: int, models: seq<EqModel>, nextModelId: int,
                                              items: seq<EqItem>, bookings: seq<Booking>, start: int, end: int)
    requires StageLines(lines, role, models, items, bookings, start, end).Ok?
    ensures var r := StageLines(lines, role, models, items, bookings, start, end).value;
      forall x :: x in r ==> exists l :: 0 <= l < |lines| && Serves(x, lines[l].modelName, models)
    ensures DistinctNames(lines) && ModelIdsOk(models, nextModelId) && DistinctIds(items) ==>
      DistinctIds(StageLines(lines, role, models, items, bookings, start, end).value)
  {
    if lines != [] {
      var tail := lines[1..];
      StagedItemsDistinct(tail, role, models, nextModelId, items, bookings, start, end);
      var a := StageLine(lines[0], role, models, items, bookings, start, end).value;
      var b := StageLines(tail, role, models, items, bookings, start, end).value;
      var r := StageLines(lines, role, models, items, bookings, start, end).value;
      assert r == a + b;
      forall x | x in r
        ensures exists l :: 0 <= l < |lines| && Serves(x, lines[l].modelName, models)
      {
        if x in a {
          assert Serves(x, lines[0].modelName, models);
        } else {
          assert x in b;
          var l :| 0 <= l < |tail| && Serves(x, tail[l].modelName, models);
          assert tail[l] == lines[l + 1];
        }
      }
      if DistinctNames(lines) && ModelIdsOk(models, nextModelId) && DistinctIds(items) {
        assert DistinctNames(tail) by {
          forall p, q | 0 <= p < q < |tail| ensures tail[p].modelName != tail[q].modelName {
            assert tail[p] == lines[p + 1] && tail[q] == lines[q + 1];
          }
        }
        forall x, y | x in a && y in b
          ensures x.id != y.id
        {
          var l :| 0 <= l < |tail| && Serves(y, tail[l].modelName, models);
          assert tail[l] == lines[l + 1];
          var i0 := ModelByName(models, lines[0].modelName).value;
          var i1 := ModelByName(models, tail[l].modelName).value;
          assert models[i0].name != models[i1].name;
          assert i0 != i1;
          assert models[i0].id != models[i1].id by {
            if i0 < i1 {
            } else {
            }
          }
          if x.id == y.id {
            SameIdSameItem(items, x, y);
          }
        }
        DistinctConcat(a, b);
      }
    }
  }

  /** Appending a booking whose claims are pairwise distinct and each free
      keeps the store free of double bookings. */
  lemma AppendFreeBooking(bookings: seq<Booking>, id: int, firstItemId: int, userId: int,
                          req: CreateBookingRequest, plan: Plan, now: int)
    requires NoDoubleBooking(bookings)
    requires DistinctIds(plan.chosen)
    requires forall x :: x in plan.chosen ==> !Claimed(bookings, x.id, req.startTime, req.endTime)
    ensures NoDoubleBooking(bookings + [NewBooking(id, firstItemId, userId, req, plan, now)])
  {
    var b := NewBooking(id, firstItemId, userId, req, plan, now);
    var all := bookings + [b];
    var n := |bookings|;
    assert all[n] == b;
    forall k1, j1, k2, j2 |
      0 <= k1 < |all| && 0 <= j1 < |all[k1].items| &&
      0 <= k2 < |all| && 0 <= j2 < |all[k2].items| && (k1 != k2 || j1 != j2)
      ensures !Clash(all[k1], all[k1].items[j1], all[k2], all[k2].items[j2])
    {
      if k1 < n && k2 < n {
        assert all[k1] == bookings[k1] && all[k2] == bookings[k2];
      } else if k1 == n && k2 == n {
        assert b.items[j1].equipmentItemId == plan.chosen[j1].id;
        assert b.items[j2].equipmentItemId == plan.chosen[j2].id;
      } else if k1 < n {
        var x := plan.chosen[j2];
        assert x in plan.chosen;
        assert all[k1] == bookings[k1];
      } else {
        var x := plan.chosen[j1];
        assert x in plan.chosen;
        assert all[k2] == bookings[k2];
      }
    }
  }

  /** A booking made as written keeps the store free of double bookings when
      its lines name distinct models. */
  lemma CreatePreservesNoDoubleBooking(users: seq<User>, models: seq<EqModel>, nextModelId: int,
                                       items: seq<EqItem>, nextItemId: int, bookings: seq<Booking>,
                                       req: CreateBookingRequest, userId: int, now: int, id: int, firstItemId: int)
    requires NoDoubleBooking(bookings)
    requires ModelIdsOk(models, nextModelId) && ItemIdsOk(items, nextItemId)
    requires req.equipment.Some? && DistinctNames(req.equipment.value)
    requires PlanBooking(users, models, items, bookings, req, userId, now).Ok?
    ensures NoDoubleBooking(bookings + [NewBooking(id, firstItemId, userId, req,
                                          PlanBooking(users, models, items, bookings, req, userId, now).value, now)])
  {
    var p := Preflight(users, req, userId).value;
    StagedItemsDistinct(p.1, p.0.role, models, nextModelId, items, bookings, req.startTime, req.endTime);
    AppendFreeBooking(bookings, id, firstItemId, userId, req,
                      PlanBooking(users, models, items, bookings, req, userId, now).value, now);
  }

  /** As written, a request naming one model on two lines stages the same
      item twice, and the resulting booking clashes with itself. */
  lemma DuplicateLineDoubleBooks()
    ensures var users := [User(1, "anna", "", "", "Anna", ROLE_USER, 2020, None, None, None, None, false, None, None)];
      var models := [EqModel(1, "Cam", "", 0, AccessUser, [])];
      var items := [EqItem(1, 1, "0-001-01", true)];
      var req := CreateBookingRequest("shoot", 10, 20, None, Some([RequestLine("Cam", 1), RequestLine("Cam", 1)]));
      var plan := PlanBooking(users, models, items, [], req, 1, 0);
      && plan.Ok? && plan.value.chosen == [items[0], items[0]]
      && NoDoubleBooking([])
      && !NoDoubleBooking([NewBooking(1, 1, 1, req, plan.value, 0)])
  {
    var users := [User(1, "anna", "", "", "Anna", ROLE_USER, 2020, None, None, None, None, false, None, None)];
    var models := [EqModel(1, "Cam", "", 0, AccessUser, [])];
    var items := [EqItem(1, 1, "0-001-01", true)];
    var lines := [RequestLine("Cam", 1), RequestLine("Cam", 1)];
    var req := CreateBookingRequest("shoot", 10, 20, None, Some(lines));
    assert UserIndex(users, 1) == Some(0);
    assert ModelByName(models, "Cam") == Some(0);
    assert !Claimed([], 1, 10, 20);
    assert FreeItems(items, 1, [], 10, 20) == items;
    assert StageLine(lines[0], ROLE_USER, models, items, [], 10, 20) == Ok(items);
    assert lines[1..][1..] == [];
    assert StageLines(lines[1..], ROLE_USER, models, items, [], 10, 20) == Ok(items);
    assert StageLines(lines, ROLE_USER, models, items, [], 10, 20) == Ok(items + items);
    var plan := PlanBooking(users, models, items, [], req, 1, 0);
    assert Preflight(users, req, 1) == Ok((users[0], lines));
    assert plan.Ok?;
    assert plan.value.chosen == [items[0], items[0]];
    var b := NewBooking(1, 1, 1, req, plan.value, 0);
    var bs := [b];
    assert Clash(bs[0], bs[0].items[0], bs[0], bs[0].items[1]);
  }

  // ---------------------------------------------------------------------------
  // The corrected allocation: later lines draw only from items not yet staged

  /** `StageLines` with the staged items removed from the pool before each
      further line. */
  function StageLinesFresh(lines: seq<RequestLine>, role: int, models: seq<EqModel>, pool: seq<EqItem>,
                           bookings: seq<Booking>, start: int, end: int): (r: Result<seq<EqItem>>)
    ensures r.Ok? ==> |r.value| == TotalQuantity(lines)
    ensures r.Ok? ==> forall x :: x in r.value ==> x in pool && x.available && !Claimed(bookings, x.id, start, end)
    ensures r.Ok? && DistinctIds(pool) ==> DistinctIds(r.value)
    decreases lines
  {
    if lines == [] then Ok([])
    else
      match StageLine(lines[0], role, models, pool, bookings, start, end)
      case Err(e) => Err(e)
      case Ok(a) =>
        var rest := Filter(pool, (x: EqItem) => x !in a);
        FilterKeepsDistinct(pool, (x: EqItem) => x !in a);
        match StageLinesFresh(lines[1..], role, models, rest, bookings, start, end)
        case Err(e) => Err(e)
        case Ok(b) =>
          FreshConcatDistinct(pool, a, rest, b);
          Ok(a + b)
  }

  lemma {:induction false} FilterKeepsDistinct(s: seq<EqItem>, p: EqItem -> bool)
    ensures DistinctIds(s) ==> DistinctIds(Filter(s, p))
  {
    if s != [] && DistinctIds(s) {
      HeadDistinct(s);
      FilterKeepsDistinct(s[1..], p);
      if p(s[0]) {
        ConsDistinct(s[0], Filter(s[1..], p));
      }
    }
  }

  lemma HeadDistinct(s: seq<EqItem>)
    requires s != [] && DistinctIds(s)
    ensures DistinctIds(s[1..]) && forall x :: x in s[1..] ==> x.id != s[0].id
  {
    forall x | x in s[1..]
      ensures x.id != s[0].id
    {
      var j :| 0 <= j < |s[1..]| && s[1..][j] == x;
      assert s[j + 1] == x;
    }
  }

  lemma ConsDistinct(x: EqItem, r: seq<EqItem>)
    requires DistinctIds(r) && forall y :: y in r ==> y.id != x.id
    ensures DistinctIds([x] + r)
  {
    var t := [x] + r;
    forall a, b | 0 <= a < b < |t|
      ensures t[a].id != t[b].id
    {
      assert t[b] == r[b - 1];
      if a > 0 {
        assert t[a] == r[a - 1];
      }
    }
  }

  lemma FreshConcatDistinct(pool: seq<EqItem>, a: seq<EqItem>, rest: seq<EqItem>, b: seq<EqItem>)
    requires forall x :: x in a ==> x in pool
    requires forall x :: x in rest <==> x in pool && x !in a
    requires forall x :: x in b ==> x in rest
    requires DistinctIds(pool) ==> DistinctIds(a) && DistinctIds(b)
    ensures DistinctIds(pool) ==> DistinctIds(a + b)
  {
    if DistinctIds(pool) {
      forall x, y | x in a && y in b
        ensures x.id != y.id
      {
        if x.id == y.id {
          SameIdSameItem(pool, x, y);
        }
      }
      DistinctConcat(a, b);
    }
  }

  /** `createBooking` up to the insert, with the corrected allocation. */
  function PlanBookingFresh(users: seq<User>, models: seq<EqModel>, items: seq<EqItem>, bookings: seq<Booking>,
                            req: CreateBookingRequest, userId: int, now: int): Result<Plan>
  {
    match Preflight(users, req, userId)
    case Err(e) => Err(e)
    case Ok(p) =>
      match StageLinesFresh(p.1, p.0.role, models, items, bookings, req.startTime, req.endTime)
      case Err(e) => Err(e)
      case Ok(chosen) => Ok(Plan(ShortNoticeWarnings(req.startTime, now), chosen))
  }

  /** With the corrected allocation every booking keeps the store free of
      double bookings, whatever names its lines repeat. */
  lemma CreateFreshPreservesNoDoubleBooking(users: seq<User>, models: seq<EqModel>,
                                            items: seq<EqItem>, nextItemId: int, bookings: seq<Booking>,
                                            req: CreateBookingRequest, userId: int, now: int, id: int, firstItemId: int)
    requires NoDoubleBooking(bookings)
    requires ItemIdsOk(items, nextItemId)
    requires PlanBookingFresh(users, models, items, bookings, req, userId, now).Ok?
    ensures NoDoubleBooking(bookings + [NewBooking(id, firstItemId, userId, req,
                                          PlanBookingFresh(users, models, items, bookings, req, userId, now).value, now)])
  {
    AppendFreeBooking(bookings, id, firstItemId, userId, req,
                      PlanBookingFresh(users, models, items, bookings, req, userId, now).value, now);
  }

  // ---------------------------------------------------------------------------
  // Status transitions

  /** `approveBooking`'s update: Approved from any status; an empty or absent
      comment keeps the old admin comment. */
  function Approve(b: Booking, adminComment: Option<string>): (r: Booking)
    ensures r.status == Approved
    ensures adminComment.Some? && adminComment.value != "" ==> r.adminComment == adminComment
    ensures adminComment.None? || adminComment.value == "" ==> r.adminComment == b.adminComment
    ensures r.(status := b.status, adminComment := b.adminComment) == b
  {
    b.(status := Approved, adminComment := if adminComment.Some? && adminComment.value != "" then adminComment else b.adminComment)
  }

  /** `completeBooking`'s update: Completed from any status. */
  function Complete(b: Booking): (r: Booking)
    ensures r.status == Completed && r.(status := b.status) == b
  {
    b.(status := Completed)
  }

  /** `cancelBooking` after the lookup: the ownership check, then the
      already-cancelled check, then the update (Completed bookings included). */
  function Cancel(b: Booking, userId: int, isAdmin: bool, adminComment: Option<string>): (r: Result<Booking>)
    ensures r.Err? <==> (!isAdmin && b.userId != userId) || b.status == Cancelled
    ensures !isAdmin && b.userId != userId ==> r == Err(NOT_OWNER)
    ensures (isAdmin || b.userId == userId) && b.status == Cancelled ==> r == Err(ALREADY_CANCELLED)
    ensures r.Ok? ==> (r.value.status == Cancelled
      && r.value.adminComment == (if isAdmin && adminComment.Some? && adminComment.value != "" then adminComment else b.adminComment)
      && r.value.(status := b.status, adminComment := b.adminComment) == b)
  {
    if !isAdmin && b.userId != userId then Err(NOT_OWNER)
    else if b.status == Cancelled then Err(ALREADY_CANCELLED)
    else Ok(b.(status := Cancelled,
               adminComment := if isAdmin && adminComment.Some? && adminComment.value != "" then adminComment else b.adminComment))
  }

  /** A cancelled booking cannot be cancelled again, by anyone. */
  lemma CancelOnce(b: Booking, userId: int, isAdmin: bool, c: Option<string>, userId': int, isAdmin': bool, c': Option<string>)
    requires Cancel(b, userId, isAdmin, c).Ok?
    ensures Cancel(Cancel(b, userId, isAdmin, c).value, userId', isAdmin', c').Err?
  {
  }

  method ApproveBooking(db: Database, bookingId: int, adminComment: Option<string>) returns (r: Result<bool>)
    requires db.Valid()
    modifies db
    ensures db.Valid()
    ensures db.users == old(db.users) && db.models == old(db.models) && db.items == old(db.items)
    ensures db.nextBookingId == old(db.nextBookingId) && db.nextBookingItemId == old(db.nextBookingItemId)
    ensures db.nextUserId == old(db.nextUserId) && db.nextModelId == old(db.nextModelId) && db.nextItemId == old(db.nextItemId)
    ensures BookingIndex(old(db.bookings), bookingId).None? ==>
      r == Err(BookingNotFound(bookingId)) && db.bookings == old(db.bookings)
    ensures BookingIndex(old(db.bookings), bookingId).Some? ==>
      var k := BookingIndex(old(db.bookings), bookingId).value;
      r == Ok(true) && db.bookings == old(db.bookings)[k := Approve(old(db.bookings)[k], adminComment)]
  {
    var k := BookingIndex(db.bookings, bookingId);
    if k.None? {
      return Err(BookingNotFound(bookingId));
    }
    db.bookings := db.bookings[k.value := Approve(db.bookings[k.value], adminComment)];
    r := Ok(true);
  }

  method CompleteBooking(db: Database, bookingId: int) returns (r: Result<bool>)
    requires db.Valid()
    modifies db
    ensures db.Valid()
    ensures db.users == old(db.users) && db.models == old(db.models) && db.items == old(db.items)
    ensures db.nextBookingId == old(db.nextBookingId) && db.nextBookingItemId == old(db.nextBookingItemId)
    ensures db.nextUserId == old(db.nextUserId) && db.nextModelId == old(db.nextModelId) && db.nextItemId == old(db.nextItemId)
    ensures BookingIndex(old(db.bookings), bookingId).None? ==>
      r == Err(BookingNotFound(bookingId)) && db.bookings == old(db.bookings)
    ensures BookingIndex(old(db.bookings), bookingId).Some? ==>
      var k := BookingIndex(old(db.bookings), bookingId).value;
      r == Ok(true) && db.bookings == old(db.bookings)[k := Complete(old(db.bookings)[k])]
  {
    var k := BookingIndex(db.bookings, bookingId);
    if k.None? {
      return Err(BookingNotFound(bookingId));
    }
    db.bookings := db.bookings[k.value := Complete(db.bookings[k.value])];
    r := Ok(true);
  }

  method CancelBooking(db: Database, bookingId: int, userId: int, isAdmin: bool, adminComment: Option<string>)
    returns (r: Result<bool>)
    requires db.Valid()
    modifies db
    ensures db.Valid()
    ensures db.users == old(db.users) && db.models == old(db.models) && db.items == old(db.items)
    ensures db.nextBookingId == old(db.nextBookingId) && db.nextBookingItemId == old(db.nextBookingItemId)
    ensures db.nextUserId == old(db.nextUserId) && db.nextModelId == old(db.nextModelId) && db.nextItemId == old(db.nextItemId)
    ensures BookingIndex(old(db.bookings), bookingId).None? ==>
      r == Err(BookingNotFound(bookingId)) && db.bookings == old(db.bookings)
    ensures BookingIndex(old(db.bookings), bookingId).Some? ==>
      var k := BookingIndex(old(db.bookings), bookingId).value;
      var c := Cancel(old(db.bookings)[k], userId, isAdmin, adminComment);
      && (c.Err? ==> r == Err(c.error) && db.bookings == old(db.bookings))
      && (c.Ok? ==> r == Ok(true) && db.bookings == old(db.bookings)[k := c.value])
  {
    var k := BookingIndex(db.bookings, bookingId);
    if k.None? {
      return Err(BookingNotFound(bookingId));
    }
    var c := Cancel(db.bookings[k.value], userId, isAdmin, adminComment);
    if c.Err? {
      return Err(c.error);
    }
    db.bookings := db.bookings[k.value := c.value];
    r := Ok(true);
  }

  /** Replacing a booking by one with the same claims that blocks only if
      the old one did keeps the store free of double bookings. */
  lemma {:induction false} UpdateKeepsNoDoubleBooking(bookings: seq<Booking>, k: nat, b': Booking)
    requires NoDoubleBooking(bookings) && k < |bookings|
    requires b'.items == bookings[k].items
    requires Blocking(b'.status) ==> Blocking(bookings[k].status)
    ensures NoDoubleBooking(bookings[k := b'])
  {
    var after := bookings[k := b'];
    forall k1, j1, k2, j2 |
      0 <= k1 < |after| && 0 <= j1 < |after[k1].items| &&
      0 <= k2 < |after| && 0 <= j2 < |after[k2].items| && (k1 != k2 || j1 != j2)
      ensures !Clash(after[k1], after[k1].items[j1], after[k2], after[k2].items[j2])
    {
      assert !Clash(bookings[k1], bookings[k1].items[j1], bookings[k2], bookings[k2].items[j2]);
    }
  }

  /** Cancelling and completing never create a double booking; approving
      does not either, as long as the booking was Pending or Approved. */
  lemma TransitionsKeepNoDoubleBooking(bookings: seq<Booking>, k: nat, userId: int, isAdmin: bool, c: Option<string>)
    requires NoDoubleBooking(bookings) && k < |bookings|
    ensures NoDoubleBooking(bookings[k := Complete(bookings[k])])
    ensures Cancel(bookings[k], userId, isAdmin, c).Ok? ==>
      NoDoubleBooking(bookings[k := Cancel(bookings[k], userId, isAdmin, c).value])
    ensures Blocking(bookings[k].status) ==> NoDoubleBooking(bookings[k := Approve(bookings[k], c)])
  {
    UpdateKeepsNoDoubleBooking(bookings, k, Complete(bookings[k]));
    if Cancel(bookings[k], userId, isAdmin, c).Ok? {
      UpdateKeepsNoDoubleBooking(bookings, k, Cancel(bookings[k], userId, isAdmin, c).value);
    }
    if Blocking(bookings[k].status) {
      UpdateKeepsNoDoubleBooking(bookings, k, Approve(bookings[k], c));
    }
  }

  /** Approving a Cancelled booking (which the service permits) can create a
      double booking: its item was released and re-booked meanwhile. */
  lemma ReapprovingCancelledDoubleBooks()
    ensures var old1 := Booking(1, 1, "a", 0, 10, 20, Cancelled, None, None, [], [BookingItem(1, 7, 10, 20, false)]);
      var new2 := Booking(2, 2, "b", 0, 10, 20, Pending, None, None, [], [BookingItem(2, 7, 10, 20, false)]);
      && NoDoubleBooking([old1, new2])
      && !NoDoubleBooking([old1, new2][0 := Approve(old1, None)])
  {
    var old1 := Booking(1, 1, "a", 0, 10, 20, Cancelled, None, None, [], [BookingItem(1, 7, 10, 20, false)]);
    var new2 := Booking(2, 2, "b", 0, 10, 20, Pending, None, None, [], [BookingItem(2, 7, 10, 20, false)]);
    var after := [old1, new2][0 := Approve(old1, None)];
    assert Clash(after[0], after[0].items[0], after[1], after[1].items[0]);
  }

  // ---------------------------------------------------------------------------
  // Queries with empty-result guards (each returns the rows the response
  // objects are mapped from)

  function GetBookingById(bookings: seq<Booking>, id: int): (r: Result<Booking>)
    ensures BookingIndex(bookings, id).None? ==> r == Err(BookingNotFound(id))
    ensures r.Ok? ==> r.value in bookings && r.value.id == id && |r.value.items| > 0
    ensures BookingIndex(bookings, id).Some? && |bookings[BookingIndex(bookings, id).value].items| == 0 ==>
      r == Err(NO_BOOKING_ITEMS)
    ensures BookingIndex(bookings, id).Some? && |bookings[BookingIndex(bookings, id).value].items| > 0 ==>
      r == Ok(bookings[BookingIndex(bookings, id).value])
  {
    match BookingIndex(bookings, id)
    case None => Err(BookingNotFound(id))
    case Some(k) => if |bookings[k].items| == 0 then Err(NO_BOOKING_ITEMS) else Ok(bookings[k])
  }

  /** The empty-result guard shared by the list queries. */
  function NonEmpty(rows: seq<Booking>, message: string): (r: Result<seq<Booking>>)
    ensures r.Ok? <==> |rows| > 0
    ensures r.Ok? ==> r.value == rows
    ensures r.Err? ==> r.error == message
  {
    if |rows| == 0 then Err(message) else Ok(rows)
  }

  function GetBookingsByUser(bookings: seq<Booking>, userId: int): (r: Result<seq<Booking>>)
    ensures r.Err? <==> forall b :: b in bookings ==> b.userId != userId
    ensures r.Err? ==> r.error == "У пользователя с ID " + IntToString(userId) + " нет бронирований"
    ensures r.Ok? ==> forall b :: b in r.value <==> b in bookings && b.userId == userId
  {
    NonEmpty(Filter(bookings, (b: Booking) => b.userId == userId),
             "У пользователя с ID " + IntToString(userId) + " нет бронирований")
  }

  /** Some BookingItem of `b` refers to item `itemId` (`bookingItems: some`). */
  predicate HasItem(b: Booking, itemId: int)
  {
    exists j :: 0 <= j < |b.items| && b.items[j].equipmentItemId == itemId
  }

  function GetBookingsByEquipmentItem(bookings: seq<Booking>, itemId: int): (r: Result<seq<Booking>>)
    ensures r.Err? <==> forall b :: b in bookings ==> !HasItem(b, itemId)
    ensures r.Err? ==> r.error == "Не найдено бронирований для оборудования с ID " + IntToString(itemId)
    ensures r.Ok? ==> forall b :: b in r.value <==> b in bookings && HasItem(b, itemId)
  {
    NonEmpty(Filter(bookings, (b: Booking) => HasItem(b, itemId)),
             "Не найдено бронирований для оборудования с ID " + IntToString(itemId))
  }

  function GetBookingsByStatus(bookings: seq<Booking>, status: BookingStatus): (r: Result<seq<Booking>>)
    ensures r.Err? <==> forall b :: b in bookings ==> b.status != status
    ensures r.Err? ==> r.error == "Нет бронирований со статусом " + StatusName(status)
    ensures r.Ok? ==> forall b :: b in r.value <==> b in bookings && b.status == status
  {
    NonEmpty(Filter(bookings, (b: Booking) => b.status == status),
             "Нет бронирований со статусом " + StatusName(status))
  }

  /** The first item whose inventory number equals `inv` ignoring case. */
  function ItemByInventoryNumber(items: seq<EqItem>, inv: string): (r: Option<nat>)
    ensures r.Some? ==> r.value < |items| && EqualsIgnoreCase(items[r.value].inventoryNumber, inv)
    ensures r.None? <==> forall k :: 0 <= k < |items| ==> !EqualsIgnoreCase(items[k].inventoryNumber, inv)
  {
    FirstIndex(items, (x: EqItem) => EqualsIgnoreCase(x.inventoryNumber, inv))
  }

  function GetBookingsByInventoryNumber(items: seq<EqItem>, bookings: seq<Booking>, inv: string): (r: Result<seq<Booking>>)
    ensures IsBlank(inv) ==> r == Err(BLANK_INVENTORY_NUMBER)
    ensures !IsBlank(inv) && ItemByInventoryNumber(items, inv).None? ==>
      r == Err("Оборудование с инвентарным номером " + inv + " не найдено")
    ensures !IsBlank(inv) && ItemByInventoryNumber(items, inv).Some? ==>
      var id := items[ItemByInventoryNumber(items, inv).value].id;
      && ((forall b :: b in bookings ==> !HasItem(b, id)) ==>
            r == Err("Нет бронирований для оборудования с инвентарным номером " + inv))
      && ((exists b :: b in bookings && HasItem(b, id)) ==> r.Ok?)
    ensures r.Ok? ==> ItemByInventoryNumber(items, inv).Some? && forall b :: b in r.value <==>
      b in bookings && HasItem(b, items[ItemByInventoryNumber(items, inv).value].id)
  {
    if Trim(inv) == "" then
      TrimEmptyIffBlank(inv);
      Err(BLANK_INVENTORY_NUMBER)
    else
      TrimEmptyIffBlank(inv);
      match ItemByInventoryNumber(items, inv)
      case None => Err("Оборудование с инвентарным номером " + inv + " не найдено")
      case Some(i) =>
        NonEmpty(Filter(bookings, (b: Booking) => HasItem(b, items[i].id)),
                 "Нет бронирований для оборудования с инвентарным номером " + inv)
  }
}

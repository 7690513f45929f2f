/** The stored records (the rows of the User, EquipmentModel, EquipmentItem,
    Booking and BookingItem tables) and lookups by key. Times are integer
    milliseconds since the epoch. */
module Records {
  import opened Wrappers
  import opened Enums
  import opened Seqs

  /** A JSON value, for the `warningsJson` / `attributesJson` columns, which
      hold serialised `Record<string, any>` objects. */
  datatype Json =
    | JNull
    | JBool(b: bool)
    | JNum(n: int)
    | JStr(s: string)
    | JArr(elems: seq<Json>)
    | JObj(fields: seq<(string, Json)>)

  datatype User = User(
    id: int,
    login: string,
    passwordHash: string,
    salt: string,
    name: string,
    role: int,
    joinYear: int,
    telegramChatId: Option<int>,
    telegramUsername: Option<string>,
    telegramLinkCode: Option<string>,
    telegramLinkCodeExpiry: Option<int>,
    banned: bool,
    refreshToken: Option<string>,
    refreshTokenExpiryTime: Option<int>)

  datatype EqModel = EqModel(
    id: int,
    name: string,
    description: string,
    category: int,
    access: EquipmentAccess,
    attributes: seq<(string, Json)>)

  datatype EqItem = EqItem(id: int, modelId: int, inventoryNumber: string, available: bool)

  datatype BookingItem = BookingItem(
    id: int,
    equipmentItemId: int,
    startDate: int,
    endDate: int,
    isReturned: bool)

  /** A booking together with its BookingItem rows. */
  datatype Booking = Booking(
    id: int,
    userId: int,
    reason: string,
    creationTime: int,
    startTime: int,
    endTime: int,
    status: BookingStatus,
    comment: Option<string>,
    adminComment: Option<string>,
    warnings: seq<(string, Json)>,
    items: seq<BookingItem>)

  // ---------------------------------------------------------------------------
  // Table invariants: positive identifiers below the next autoincrement value,
  // no two rows with the same identifier (and the unique inventory number).

  ghost predicate UserIdsOk(s: seq<User>, next: int)
  {
    && (forall k :: 0 <= k < |s| ==> 0 < s[k].id < next)
    && (forall k, l :: 0 <= k < l < |s| ==> s[k].id != s[l].id)
  }

  ghost predicate ModelIdsOk(s: seq<EqModel>, next: int)
  {
    && (forall k :: 0 <= k < |s| ==> 0 < s[k].id < next)
    && (forall k, l :: 0 <= k < l < |s| ==> s[k].id != s[l].id)
  }

  ghost predicate ItemIdsOk(s: seq<EqItem>, next: int)
  {
    && (forall k :: 0 <= k < |s| ==> 0 < s[k].id < next)
    && (forall k, l :: 0 <= k < l < |s| ==> s[k].id != s[l].id)
    && (forall k, l :: 0 <= k < l < |s| ==> s[k].inventoryNumber != s[l].inventoryNumber)
  }

  ghost predicate BookingIdsOk(s: seq<Booking>, next: int)
  {
    && (forall k :: 0 <= k < |s| ==> 0 < s[k].id < next)
    && (forall k, l :: 0 <= k < l < |s| ==> s[k].id != s[l].id)
  }

  // ---------------------------------------------------------------------------
  // Lookups: `findUnique` by id and `findFirst` by other columns return the
  // first row in table order that matches.

  function UserIndex(users: seq<User>, id: int): (r: Option<nat>)
    ensures r.Some? ==> r.value < |users| && users[r.value].id == id
    ensures r.None? <==> forall k :: 0 <= k < |users| ==> users[k].id != id
  {
    FirstIndex(users, (u: User) => u.id == id)
  }

  function ModelIndex(models: seq<EqModel>, id: int): (r: Option<nat>)
    ensures r.Some? ==> r.value < |models| && models[r.value].id == id
    ensures r.None? <==> forall k :: 0 <= k < |models| ==> models[k].id != id
  {
    FirstIndex(models, (m: EqModel) => m.id == id)
  }

  function ItemIndex(items: seq<EqItem>, id: int): (r: Option<nat>)
    ensures r.Some? ==> r.value < |items| && items[r.value].id == id
    ensures r.None? <==> forall k :: 0 <= k < |items| ==> items[k].id != id
  {
    FirstIndex(items, (x: EqItem) => x.id == id)
  }

  function BookingIndex(bookings: seq<Booking>, id: int): (r: Option<nat>)
    ensures r.Some? ==> r.value < |bookings| && bookings[r.value].id == id
    ensures r.None? <==> forall k :: 0 <= k < |bookings| ==> bookings[k].id != id
  {
    FirstIndex(bookings, (b: Booking) => b.id == id)
  }

  /** Some item already carries this inventory number: inserting another
      would violate the unique index. */
  predicate NumberInUse(items: seq<EqItem>, inv: string)
  {
    exists k :: 0 <= k < |items| && items[k].inventoryNumber == inv
  }

  /** Inserting a row with the next identifier keeps the table invariant. */
  lemma BookingIdsAppend(s: seq<Booking>, next: int, b: Booking)
    requires BookingIdsOk(s, next) && next > 0 && b.id == next
    ensures BookingIdsOk(s + [b], next + 1)
  {
    var t := s + [b];
    assert forall k :: 0 <= k < |s| ==> t[k] == s[k];
  }

  lemma ModelIdsAppend(s: seq<EqModel>, next: int, m: EqModel)
    requires ModelIdsOk(s, next) && next > 0 && m.id == next
    ensures ModelIdsOk(s + [m], next + 1)
  {
    var t := s + [m];
    assert forall k :: 0 <= k < |s| ==> t[k] == s[k];
  }

  /** An appended item needs a fresh identifier and an unused inventory number. */
  lemma ItemIdsAppend(s: seq<EqItem>, next: int, x: EqItem)
    requires ItemIdsOk(s, next) && next > 0 && x.id == next
    requires !NumberInUse(s, x.inventoryNumber)
    ensures ItemIdsOk(s + [x], next + 1)
  {
    var t := s + [x];
    assert forall k :: 0 <= k < |s| ==> t[k] == s[k];
  }

  /** Rewriting a row in place under its own identifier keeps the table
      invariant. */
  lemma ModelIdsReplace(s: seq<EqModel>, next: int, k: nat, m: EqModel)
    requires ModelIdsOk(s, next) && k < |s| && m.id == s[k].id
    ensures ModelIdsOk(s[k := m], next)
  {
    var t := s[k := m];
    assert forall i :: 0 <= i < |t| ==> t[i].id == s[i].id;
  }

  lemma UserIdsReplace(s: seq<User>, next: int, k: nat, u: User)
    requires UserIdsOk(s, next) && k < |s| && u.id == s[k].id
    ensures UserIdsOk(s[k := u], next)
  {
    var t := s[k := u];
    assert forall i :: 0 <= i < |t| ==> t[i].id == s[i].id;
  }

  lemma BookingIdsReplace(s: seq<Booking>, next: int, k: nat, b: Booking)
    requires BookingIdsOk(s, next) && k < |s| && b.id == s[k].id
    ensures BookingIdsOk(s[k := b], next)
  {
    var t := s[k := b];
    assert forall i :: 0 <= i < |t| ==> t[i].id == s[i].id;
  }

  /** Deleting a row keeps the table invariant. */
  lemma ModelIdsRemove(s: seq<EqModel>, next: int, k: nat)
    requires ModelIdsOk(s, next) && k < |s|
    ensures ModelIdsOk(s[..k] + s[k + 1..], next)
  {
    var t := s[..k] + s[k + 1..];
    assert forall i :: 0 <= i < |t| ==> t[i] == if i < k then s[i] else s[i + 1];
  }

  lemma ItemIdsRemove(s: seq<EqItem>, next: int, k: nat)
    requires ItemIdsOk(s, next) && k < |s|
    ensures ItemIdsOk(s[..k] + s[k + 1..], next)
  {
    var t := s[..k] + s[k + 1..];
    assert forall i :: 0 <= i < |t| ==> t[i] == if i < k then s[i] else s[i + 1];
  }

  lemma UserIdsRemove(s: seq<User>, next: int, k: nat)
    requires UserIdsOk(s, next) && k < |s|
    ensures UserIdsOk(s[..k] + s[k + 1..], next)
  {
    var t := s[..k] + s[k + 1..];
    assert forall i :: 0 <= i < |t| ==> t[i] == if i < k then s[i] else s[i + 1];
  }

  lemma UserIdsAppend(s: seq<User>, next: int, u: User)
    requires UserIdsOk(s, next) && next > 0 && u.id == next
    ensures UserIdsOk(s + [u], next + 1)
  {
    var t := s + [u];
    assert forall k :: 0 <= k < |s| ==> t[k] == s[k];
  }

  /** With unique identifiers the first match is the only match. */
  lemma UserIndexUnique(users: seq<User>, next: int, id: int, k: nat)
    requires UserIdsOk(users, next)
    requires k < |users| && users[k].id == id
    ensures UserIndex(users, id) == Some(k)
  {
  }

  lemma BookingIndexUnique(bookings: seq<Booking>, next: int, id: int, k: nat)
    requires BookingIdsOk(bookings, next)
    requires k < |bookings| && bookings[k].id == id
    ensures BookingIndex(bookings, id) == Some(k)
  {
  }
}

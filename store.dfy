/** The relational store the services read and write, held in memory: one
    sequence per table in insertion order (the order `findMany` and
    `findFirst` see) and one autoincrement counter per table. */
module Store {
  import opened Records

  class Database {
    var users: seq<User>
    var models: seq<EqModel>
    var items: seq<EqItem>
    var bookings: seq<Booking>
    var nextUserId: int
    var nextModelId: int
    var nextItemId: int
    var nextBookingId: int
    var nextBookingItemId: int

    /** Identifiers are positive, unique and below their counter; inventory
        numbers are unique. */
    ghost predicate Valid()
      reads this
    {
      && UserIdsOk(users, nextUserId)
      && ModelIdsOk(models, nextModelId)
      && ItemIdsOk(items, nextItemId)
      && BookingIdsOk(bookings, nextBookingId)
      && nextUserId > 0 && nextModelId > 0 && nextItemId > 0
      && nextBookingId > 0 && nextBookingItemId > 0
    }

    /** `equipmentItem.create` under the unique index on the inventory
        number: the caller has ruled out a violation. */
    method InsertItem(x: EqItem)
      requires Valid() && x.id == nextItemId
      requires !NumberInUse(items, x.inventoryNumber)
      modifies this
      ensures Valid()
      ensures items == old(items) + [x] && nextItemId == old(nextItemId) + 1
      ensures users == old(users) && models == old(models) && bookings == old(bookings)
      ensures nextUserId == old(nextUserId) && nextModelId == old(nextModelId)
      ensures nextBookingId == old(nextBookingId) && nextBookingItemId == old(nextBookingItemId)
    {
      ItemIdsAppend(items, nextItemId, x);
      items := items + [x];
      nextItemId := nextItemId + 1;
    }

    /** `booking.create` with its nested BookingItem rows: the booking takes
        the next identifier and its rows the next ones of theirs, in order. */
    method InsertBooking(b: Booking)
      requires Valid() && b.id == nextBookingId
      requires forall j :: 0 <= j < |b.items| ==> b.items[j].id == nextBookingItemId + j
      modifies this
      ensures Valid()
      ensures bookings == old(bookings) + [b] && nextBookingId == old(nextBookingId) + 1
      ensures nextBookingItemId == old(nextBookingItemId) + |b.items|
      ensures users == old(users) && models == old(models) && items == old(items)
      ensures nextUserId == old(nextUserId) && nextModelId == old(nextModelId) && nextItemId == old(nextItemId)
    {
      BookingIdsAppend(bookings, nextBookingId, b);
      bookings := bookings + [b];
      nextBookingId := nextBookingId + 1;
      nextBookingItemId := nextBookingItemId + |b.items|;
    }

    /** `booking.update` of row `k`, which keeps its identifier. */
    method ReplaceBooking(k: nat, b: Booking)
      requires Valid() && k < |bookings| && b.id == bookings[k].id
      modifies this
      ensures Valid()
      ensures bookings == old(bookings)[k := b]
      ensures users == old(users) && models == old(models) && items == old(items)
      ensures nextUserId == old(nextUserId) && nextModelId == old(nextModelId) && nextItemId == old(nextItemId)
      ensures nextBookingId == old(nextBookingId) && nextBookingItemId == old(nextBookingItemId)
    {
      BookingIdsReplace(bookings, nextBookingId, k, b);
      bookings := bookings[k := b];
    }

    /** `user.create`: the new row takes the next identifier. */
    method InsertUser(u: User)
      requires Valid() && u.id == nextUserId
      modifies this
      ensures Valid()
      ensures users == old(users) + [u] && nextUserId == old(nextUserId) + 1
      ensures models == old(models) && items == old(items) && bookings == old(bookings)
      ensures nextModelId == old(nextModelId) && nextItemId == old(nextItemId)
      ensures nextBookingId == old(nextBookingId) && nextBookingItemId == old(nextBookingItemId)
    {
      UserIdsAppend(users, nextUserId, u);
      users := users + [u];
      nextUserId := nextUserId + 1;
    }

    /** `user.update` of row `k`, which keeps its identifier. */
    method ReplaceUser(k: nat, u: User)
      requires Valid() && k < |users| && u.id == users[k].id
      modifies this
      ensures Valid()
      ensures users == old(users)[k := u] && nextUserId == old(nextUserId)
      ensures models == old(models) && items == old(items) && bookings == old(bookings)
      ensures nextModelId == old(nextModelId) && nextItemId == old(nextItemId)
      ensures nextBookingId == old(nextBookingId) && nextBookingItemId == old(nextBookingItemId)
    {
      UserIdsReplace(users, nextUserId, k, u);
      users := users[k := u];
    }

    /** `user.delete` of row `k`. */
    method RemoveUser(k: nat)
      requires Valid() && k < |users|
      modifies this
      ensures Valid()
      ensures users == old(users)[..k] + old(users)[k + 1..] && nextUserId == old(nextUserId)
      ensures models == old(models) && items == old(items) && bookings == old(bookings)
      ensures nextModelId == old(nextModelId) && nextItemId == old(nextItemId)
      ensures nextBookingId == old(nextBookingId) && nextBookingItemId == old(nextBookingItemId)
    {
      UserIdsRemove(users, nextUserId, k);
      users := users[..k] + users[k + 1..];
    }

    constructor ()
      ensures Valid()
      ensures users == [] && models == [] && items == [] && bookings == []
      ensures nextUserId == 1 && nextModelId == 1 && nextItemId == 1
      ensures nextBookingId == 1 && nextBookingItemId == 1
    {
      users := [];
      models := [];
      items := [];
      bookings := [];
      nextUserId := 1;
      nextModelId := 1;
      nextItemId := 1;
      nextBookingId := 1;
      nextBookingItemId := 1;
    }
  }
}

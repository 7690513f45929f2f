/** The availability filter shared by `getAvailableItems` (booking) and
    `getAvailableEquipmentItemsByModel` (catalogue): an item is free for the
    window [start, end) when its manual `available` flag is set and no
    BookingItem of a Pending or Approved booking overlaps the window. */
module Availability {
  import opened Enums
  import opened Records

  /** The statuses whose claims block an item. */
  predicate Blocking(s: BookingStatus)
  {
    s == Pending || s == Approved
  }

  /** BookingItem `bi` of booking `b` claims item `itemId` during [start, end):
      the store's condition `status in [Pending, Approved] AND startDate < end
      AND endDate > start`. */
  predicate Claims(b: Booking, bi: BookingItem, itemId: int, start: int, end: int)
  {
    bi.equipmentItemId == itemId && Blocking(b.status) && bi.startDate < end && bi.endDate > start
  }

  /** Some BookingItem of some booking claims the item during the window. */
  predicate Claimed(bookings: seq<Booking>, itemId: int, start: int, end: int)
  {
    exists k, j :: 0 <= k < |bookings| && 0 <= j < |bookings[k].items|
      && Claims(bookings[k], bookings[k].items[j], itemId, start, end)
  }

  /** The whole `where` clause for one item. */
  predicate IsFree(x: EqItem, modelId: int, bookings: seq<Booking>, start: int, end: int)
  {
    x.modelId == modelId && x.available && !Claimed(bookings, x.id, start, end)
  }

  /** Items with pairwise distinct identifiers. */
  predicate DistinctIds(s: seq<EqItem>)
  {
    forall a, b :: 0 <= a < b < |s| ==> s[a].id != s[b].id
  }

  /** `findMany` with the availability `where` clause and no `take`: the free
      items of the model, in table order. */
  function FreeItems(items: seq<EqItem>, modelId: int, bookings: seq<Booking>, start: int, end: int): (r: seq<EqItem>)
    ensures |r| <= |items|
    ensures forall x :: x in r <==> x in items && IsFree(x, modelId, bookings, start, end)
    ensures DistinctIds(items) ==> DistinctIds(r)
  {
    if items == [] then []
    else
      var rest := FreeItems(items[1..], modelId, bookings, start, end);
      assert forall x :: x in items[1..] ==> x in items;
      if IsFree(items[0], modelId, bookings, start, end) then
        assert DistinctIds(items) ==> forall x :: x in items[1..] ==> x.id != items[0].id;
        [items[0]] + rest
      else rest
  }

  /** `getAvailableItems`: the query with `take: requiredCount + 1` followed
      by `slice(0, requiredCount)`, i.e. the first `requiredCount` free items
      in table order. */
  function GetAvailableItems(items: seq<EqItem>, modelId: int, bookings: seq<Booking>, start: int, end: int, requiredCount: nat): (r: seq<EqItem>)
    ensures |r| <= requiredCount
    ensures var free := FreeItems(items, modelId, bookings, start, end);
      |r| == (if |free| < requiredCount then |free| else requiredCount) && r == free[..|r|]
    ensures forall x :: x in r ==> x in items && IsFree(x, modelId, bookings, start, end)
    ensures DistinctIds(items) ==> DistinctIds(r)
  {
    var free := FreeItems(items, modelId, bookings, start, end);
    var taken := if |free| < requiredCount + 1 then free else free[..requiredCount + 1];
    var r := if |taken| < requiredCount then taken else taken[..requiredCount];
    assert forall x :: x in r ==> x in free;
    r
  }

  /** Cancelled and Completed bookings never block an item. */
  lemma NonBlockingStatusesNeverClaim(b: Booking, bi: BookingItem, itemId: int, start: int, end: int)
    requires b.status == Cancelled || b.status == Completed
    ensures !Claims(b, bi, itemId, start, end)
  {
  }

  /** Half-open windows that only touch do not conflict. */
  lemma TouchingWindowsDoNotConflict(b: Booking, bi: BookingItem, itemId: int, start: int, end: int)
    requires bi.endDate == start || bi.startDate == end
    ensures !Claims(b, bi, itemId, start, end)
  {
  }

  /** Moving one booking out of Pending/Approved never makes an item busy, and
      frees every item that only that booking claimed. */
  lemma {:induction false} ReleasingBookingFrees(bookings: seq<Booking>, k: nat, s: BookingStatus, x: EqItem, modelId: int, start: int, end: int)
    requires k < |bookings| && !Blocking(s)
    requires x.modelId == modelId && x.available
    requires forall k', j :: 0 <= k' < |bookings| && k' != k && 0 <= j < |bookings[k'].items| ==>
               !Claims(bookings[k'], bookings[k'].items[j], x.id, start, end)
    ensures IsFree(x, modelId, bookings[k := bookings[k].(status := s)], start, end)
  {
    var after := bookings[k := bookings[k].(status := s)];
    forall k', j | 0 <= k' < |after| && 0 <= j < |after[k'].items|
      ensures !Claims(after[k'], after[k'].items[j], x.id, start, end)
    {
      if k' != k {
        assert after[k'] == bookings[k'];
      }
    }
  }
}

/**
 * ItemMapper: the owner and non-owner views of an item (only the owner sees the
 * last and next booking), list conversion, and the merge of a partial update
 * with the stored item.
 */
module ItemMapper {
  import opened Common
  import opened Items
  import opened Bookings
  import opened Dtos
  import opened BookingMapper

  /** getItemLastBooking: the first row of the item's past query, REJECTED excluded; null if none. */
  function LastBooking(store: seq<Booking>, itemId: int, now: int): (r: Option<Booking>)
    ensures r.Some? ==> r.value in store && r.value.item.id == itemId && r.value.bookingEnd < now
    ensures r.Some? ==> r.value.status != Status.Rejected
  {
    var past := ItemPastQuery(store, itemId, now, Status.Rejected);
    if |past| == 0 then None else Some(past[0])
  }

  /** getItemNextBooking: the first row of the item's future query, REJECTED excluded; null if none. */
  function NextBooking(store: seq<Booking>, itemId: int, now: int): (r: Option<Booking>)
    ensures r.Some? ==> r.value in store && r.value.item.id == itemId && r.value.bookingStart > now
    ensures r.Some? ==> r.value.status != Status.Rejected
  {
    var future := ItemFutureQuery(store, itemId, now, Status.Rejected);
    if |future| == 0 then None else Some(future[0])
  }

  /** There is no last booking exactly when every booking of the item that has ended was rejected. */
  lemma LastBookingAbsent(store: seq<Booking>, itemId: int, now: int)
    ensures LastBooking(store, itemId, now).None? <==>
              forall b :: b in store && b.item.id == itemId && b.bookingEnd < now ==> b.status == Status.Rejected
  {
    ItemPastQueryContents(store, itemId, now, Status.Rejected);
  }

  /** There is no next booking exactly when every booking of the item still to start was rejected. */
  lemma NextBookingAbsent(store: seq<Booking>, itemId: int, now: int)
    ensures NextBooking(store, itemId, now).None? <==>
              forall b :: b in store && b.item.id == itemId && b.bookingStart > now ==> b.status == Status.Rejected
  {
    ItemFutureQueryContents(store, itemId, now, Status.Rejected);
  }

  /** A booking of the item, not rejected, in the short form the owner sees. */
  ghost predicate ShortOfItemBooking(short: BookingShort, store: seq<Booking>, itemId: int)
  {
    exists b :: b in store && b.id == short.id && b.booker.id == short.bookerId
                && b.item.id == itemId && b.status != Status.Rejected
  }

  /** convertToDtoForOwner: the item's fields plus the short forms of its last and next booking. */
  function ConvertToDtoForOwner(item: Item, store: seq<Booking>, now: int): (r: ItemDto)
    ensures r.id == item.id && r.name == item.name && r.description == item.description
    ensures r.available == item.available && r.requestId == item.requestId
    ensures r.lastBooking == ConvertToShort(LastBooking(store, item.id, now))
    ensures r.nextBooking == ConvertToShort(NextBooking(store, item.id, now))
    ensures r.lastBooking.Some? ==> ShortOfItemBooking(r.lastBooking.value, store, item.id)
    ensures r.nextBooking.Some? ==> ShortOfItemBooking(r.nextBooking.value, store, item.id)
  {
    var last := LastBooking(store, item.id, now);
    var next := NextBooking(store, item.id, now);
    assert last.Some? ==> last.value in store;
    assert next.Some? ==> next.value in store;
    ItemToDto(item).(lastBooking := ConvertToShort(last), nextBooking := ConvertToShort(next))
  }

  /** convertToDtoForUser: the item's fields; last and next booking are always null. */
  function ConvertToDtoForUser(item: Item): (r: ItemDto)
    ensures r.id == item.id && r.name == item.name && r.description == item.description
    ensures r.available == item.available && r.requestId == item.requestId
    ensures r.lastBooking.None? && r.nextBooking.None?
  {
    ItemToDto(item).(lastBooking := None, nextBooking := None)
  }

  /**
   * convertToDtoListOfItems: null or empty gives an empty list; otherwise one view
   * per item, same length and order, the owner view for every element when `isOwner`.
   */
  method ConvertToDtoListOfItems(items: Option<seq<Item>>, isOwner: bool, store: seq<Booking>, now: int)
    returns (dtos: seq<ItemDto>)
    ensures items.None? ==> dtos == []
    ensures items.Some? ==> |dtos| == |items.value|
    ensures items.Some? ==> forall i :: 0 <= i < |items.value| ==>
              dtos[i] == if isOwner then ConvertToDtoForOwner(items.value[i], store, now)
                         else ConvertToDtoForUser(items.value[i])
    ensures !isOwner ==> forall i :: 0 <= i < |dtos| ==> dtos[i].lastBooking.None? && dtos[i].nextBooking.None?
  {
    if items.None? || |items.value| == 0 {
      return [];
    }
    var list := items.value;
    dtos := [];
    for i := 0 to |list|
      invariant |dtos| == i
      invariant forall k :: 0 <= k < i ==>
                  dtos[k] == if isOwner then ConvertToDtoForOwner(list[k], store, now)
                             else ConvertToDtoForUser(list[k])
    {
      if isOwner {
        dtos := dtos + [ConvertToDtoForOwner(list[i], store, now)];
      } else {
        dtos := dtos + [ConvertToDtoForUser(list[i])];
      }
    }
  }

  /**
   * convertToEntity: the caller becomes the owner and a non-zero `itemId` the id;
   * a stored item with another owner is refused, and the fields the update leaves
   * null are taken from the stored item. The stored items are what ItemService's
   * isItemExists and getItem see.
   */
  method ConvertToEntity(dto: ItemDto, itemId: int, userId: int, items: map<int, Item>) returns (r: Result<Item>)
    ensures r.Err? <==> itemId in items && items[itemId].ownerId != userId
    ensures r.Err? ==> r.error == NotFound(MissingUser)
    ensures r.Ok? ==> r.value.ownerId == userId
    ensures r.Ok? ==> r.value.id == if itemId != 0 then itemId else dto.id
    ensures r.Ok? ==> r.value.requestId == dto.requestId
    ensures r.Ok? && dto.name.Some? ==> r.value.name == dto.name
    ensures r.Ok? && dto.description.Some? ==> r.value.description == dto.description
    ensures r.Ok? && dto.available.Some? ==> r.value.available == dto.available
    ensures r.Ok? && itemId in items && dto.name.None? ==> r.value.name == items[itemId].name
    ensures r.Ok? && itemId in items && dto.description.None? ==> r.value.description == items[itemId].description
    ensures r.Ok? && itemId in items && dto.available.None? ==> r.value.available == items[itemId].available
    ensures r.Ok? && itemId !in items ==>
              r.value.name == dto.name && r.value.description == dto.description && r.value.available == dto.available
    ensures r.Ok? && itemId in items && Complete(items[itemId]) ==> Complete(r.value)
  {
    var item := DtoToItem(dto);
    if itemId != 0 {
      item := item.(id := itemId);
    }
    item := item.(ownerId := userId);
    if itemId in items {
      var oldItem := items[itemId];
      if oldItem.ownerId != userId {
        // The source reports a foreign owner with its "user not found" message.
        return Err(NotFound(MissingUser));
      }
      if item.name.None? {
        item := item.(name := oldItem.name);
      }
      if item.description.None? {
        item := item.(description := oldItem.description);
      }
      if item.available.None? {
        item := item.(available := oldItem.available);
      }
    }
    r := Ok(item);
  }
}

/**
 * BookingServiceImpl: the booking state machine over the booking repository.
 * The item and user repositories it reads are passed in as maps from id to row;
 * the clock is the integer `now`.
 */
module BookingServices {
  import opened Common
  import opened Users
  import opened Items
  import opened Bookings

  class BookingService {
    /** The booking repository's rows, in insertion order (what findAll returns). */
    var bookings: seq<Booking>
    /** The id the repository generates for the next saved booking. */
    var nextId: int

    /**
     * Ids are generated in increasing order; every stored window is well formed
     * and no owner is the booker of a booking on their own item.
     */
    ghost predicate Valid()
      reads this
    {
      && KeysIncrease(bookings, (b: Booking) => b.id)
      && (forall i :: 0 <= i < |bookings| ==> bookings[i].id < nextId)
      && (forall i :: 0 <= i < |bookings| ==> bookings[i].bookingStart < bookings[i].bookingEnd)
      && (forall i :: 0 <= i < |bookings| ==> !IsItemOwner(bookings[i].booker.id, bookings[i]))
    }

    constructor ()
      ensures Valid() && bookings == [] && nextId == 1
    {
      bookings := [];
      nextId := 1;
    }

    /**
     * addBooking: the item, then the user, then availability, then ownership are
     * checked; on success the booking is saved WAITING, with the caller as booker
     * and the looked-up item, under a fresh id, which is returned.
     * The window has already passed BookingMapper.ConvertToEntity.
     */
    method AddBooking(window: BookingWindow, userId: int, itemId: int,
                      items: map<int, Item>, users: map<int, User>) returns (r: Result<int>)
      requires Valid()
      requires window.bookingStart < window.bookingEnd
      requires CatalogValid(items) && Keyed(users)
      modifies this
      ensures Valid()
      ensures itemId !in items ==> r == Err(NotFound(MissingItem))
      ensures itemId in items && userId !in users ==> r == Err(NotFound(MissingUser))
      ensures itemId in items && userId in users && !IsAvailable(items[itemId])
              ==> r == Err(Validation(Unavailable))
      ensures itemId in items && userId in users && IsAvailable(items[itemId]) && items[itemId].ownerId == userId
              ==> r == Err(NotFound(OwnItem))
      ensures r.Ok? <==> itemId in items && userId in users && IsAvailable(items[itemId])
                         && items[itemId].ownerId != userId
      ensures r.Err? ==> bookings == old(bookings) && nextId == old(nextId)
      ensures r.Ok? ==> r.value == old(nextId) && nextId == old(nextId) + 1
      ensures r.Ok? ==> bookings == old(bookings) + [Booking(r.value, items[itemId], users[userId], Status.Waiting,
                                                            window.bookingStart, window.bookingEnd)]
    {
      if itemId !in items {
        return Err(NotFound(MissingItem));
      }
      var item := items[itemId];
      if userId !in users {
        return Err(NotFound(MissingUser));
      }
      var user := users[userId];
      if !item.available.value {
        return Err(Validation(Unavailable));
      }
      var booking := Booking(nextId, item, user, Status.Waiting, window.bookingStart, window.bookingEnd);
      if IsItemOwner(userId, booking) {
        return Err(NotFound(OwnItem));
      }
      bookings := bookings + [booking];
      nextId := nextId + 1;
      r := Ok(booking.id);
    }

    /** getBookingById(bookingId): the stored booking with that id, or NotFound. */
    function GetBooking(bookingId: int): (r: Result<Booking>)
      reads this
      ensures r.Ok? ==> r.value in bookings && r.value.id == bookingId
      ensures r.Err? <==> forall i :: 0 <= i < |bookings| ==> bookings[i].id != bookingId
      ensures r.Err? ==> r.error == NotFound(MissingBooking)
    {
      match FindByKey(bookings, (b: Booking) => b.id, bookingId)
      case None => Err(NotFound(MissingBooking))
      case Some(i) => Ok(bookings[i])
    }

    /**
     * updateBooking: a missing booking, then a caller who does not own the item,
     * then a status other than WAITING are refused; otherwise the status becomes
     * APPROVED or REJECTED and nothing else changes.
     */
    method UpdateBooking(bookingId: int, userId: int, approval: bool) returns (r: Outcome)
      requires Valid()
      modifies this
      ensures Valid()
      ensures nextId == old(nextId)
      ensures (forall i :: 0 <= i < |old(bookings)| ==> old(bookings)[i].id != bookingId)
              ==> r == Fail(NotFound(MissingBooking)) && bookings == old(bookings)
      ensures forall i :: 0 <= i < |old(bookings)| && old(bookings)[i].id == bookingId ==>
                match Resolve(old(bookings)[i], userId, approval)
                case Err(e) => r == Fail(e) && bookings == old(bookings)
                case Ok(decided) => r == Done && bookings == old(bookings)[i := decided]
    {
      var found := FindByKey(bookings, (b: Booking) => b.id, bookingId);
      if found.None? {
        return Fail(NotFound(MissingBooking));
      }
      var i := found.value;
      FindByKeyUnique(bookings, (b: Booking) => b.id, i);
      match Resolve(bookings[i], userId, approval)
      case Err(e) =>
        r := Fail(e);
      case Ok(decided) =>
        bookings := bookings[i := decided];
        r := Done;
        assert forall k :: 0 <= k < |bookings| ==> bookings[k].id == old(bookings)[k].id;
    }

    /**
     * getBookingById(bookingId, userId): a missing booking is reported before a
     * missing user; only the item's owner or the booker may see the booking.
     */
    function GetBookingById(bookingId: int, userId: int, users: map<int, User>): (r: Result<Booking>)
      requires Valid()
      reads this
      ensures GetBooking(bookingId).Err? ==> r == Err(NotFound(MissingBooking))
      ensures GetBooking(bookingId).Ok? && userId !in users ==> r == Err(NotFound(MissingUser))
      ensures r.Ok? ==> r.value in bookings && r.value.id == bookingId && userId in users
      ensures r.Ok? ==> IsItemOwner(userId, r.value) || IsBooker(userId, r.value)
      ensures r.Err? ==> r.error.NotFound?
      ensures forall i :: 0 <= i < |bookings| && bookings[i].id == bookingId && userId in users
                && (IsItemOwner(userId, bookings[i]) || IsBooker(userId, bookings[i]))
                ==> r == Ok(bookings[i])
      ensures forall i :: 0 <= i < |bookings| && bookings[i].id == bookingId && userId in users
                && !IsItemOwner(userId, bookings[i]) && !IsBooker(userId, bookings[i])
                ==> r == Err(NotFound(AccessRestricted))
    {
      FindByKeyUniqueAll(bookings);
      match GetBooking(bookingId)
      case Err(e) => Err(e)
      case Ok(b) =>
        if userId !in users then Err(NotFound(MissingUser))
        else if !(IsItemOwner(userId, b) || IsBooker(userId, b)) then Err(NotFound(AccessRestricted))
        else Ok(b)
    }

    /**
     * getAllBookingOfUserWithState: the user is checked, then the state is parsed;
     * the caller's bookings in that state, latest start first, page `from / size`.
     */
    function GetAllBookingOfUserWithState(userId: int, state: string, from: int, size: int, now: int,
                                          users: map<int, User>): (r: Result<seq<Booking>>)
      requires from >= 0 && size >= 1
      reads this
      ensures userId !in users ==> r == Err(NotFound(MissingUser))
      ensures userId in users && ParseState(state).Err? ==> r == Err(UnsupportedState)
      ensures r.Ok? <==> userId in users && ParseState(state).Ok?
      ensures r.Ok? ==> |r.value| <= size && StartDescending(r.value)
      ensures r.Ok? ==> forall b :: b in r.value ==>
                b in bookings && IsBooker(userId, b) && InState(ParseState(state).value, b, now)
      ensures r.Ok? ==> r.value == Page(BookerQuery(bookings, userId, ParseState(state).value, now),
                                        PageIndex(from, size), size)
    {
      if userId !in users then Err(NotFound(MissingUser))
      else match ParseState(state)
        case Err(e) => Err(e)
        case Ok(st) =>
          BookerQueryContents(bookings, userId, st, now);
          StartDescendingPage(BookerQuery(bookings, userId, st, now), PageIndex(from, size), size);
          Ok(Page(BookerQuery(bookings, userId, st, now), PageIndex(from, size), size))
    }

    /** isUserAnOwner: an early-exit scan of all bookings for one on an item the caller owns. */
    method IsUserAnOwner(userId: int) returns (owner: bool)
      ensures owner <==> OwnsBookedItem(bookings, userId)
    {
      for i := 0 to |bookings|
        invariant forall k :: 0 <= k < i ==> !IsItemOwner(userId, bookings[k])
      {
        if IsItemOwner(userId, bookings[i]) {
          return true;
        }
      }
      return false;
    }

    /**
     * getAllBookingForItemsOfOwnerWithState: the user is checked, then that some
     * booking is on an item of theirs, then the state; the bookings of the
     * caller's items in that state, latest start first, page `from / size`.
     */
    method GetAllBookingForItemsOfOwnerWithState(userId: int, state: string, from: int, size: int, now: int,
                                                 users: map<int, User>) returns (r: Result<seq<Booking>>)
      requires from >= 0 && size >= 1
      ensures userId !in users ==> r == Err(NotFound(MissingUser))
      ensures userId in users && !OwnsBookedItem(bookings, userId) ==> r == Err(NotFound(NoOwnedItems))
      ensures userId in users && OwnsBookedItem(bookings, userId) && ParseState(state).Err?
              ==> r == Err(UnsupportedState)
      ensures r.Ok? <==> userId in users && OwnsBookedItem(bookings, userId) && ParseState(state).Ok?
      ensures r.Ok? ==> |r.value| <= size && StartDescending(r.value)
      ensures r.Ok? ==> forall b :: b in r.value ==>
                b in bookings && IsItemOwner(userId, b) && InState(ParseState(state).value, b, now)
      ensures r.Ok? ==> r.value == Page(OwnerQuery(bookings, userId, ParseState(state).value, now),
                                        PageIndex(from, size), size)
    {
      if userId !in users {
        return Err(NotFound(MissingUser));
      }
      var owner := IsUserAnOwner(userId);
      if !owner {
        return Err(NotFound(NoOwnedItems));
      }
      match ParseState(state)
      case Err(e) =>
        r := Err(e);
      case Ok(st) =>
        OwnerQueryContents(bookings, userId, st, now);
        StartDescendingPage(OwnerQuery(bookings, userId, st, now), PageIndex(from, size), size);
        r := Ok(Page(OwnerQuery(bookings, userId, st, now), PageIndex(from, size), size));
    }
  }

  /** In a store whose ids increase, each id is found at its own position. */
  lemma FindByKeyUniqueAll(bookings: seq<Booking>)
    requires KeysIncrease(bookings, (b: Booking) => b.id)
    ensures forall i :: 0 <= i < |bookings| ==> FindByKey(bookings, (b: Booking) => b.id, bookings[i].id) == Some(i)
  {
    forall i | 0 <= i < |bookings|
      ensures FindByKey(bookings, (b: Booking) => b.id, bookings[i].id) == Some(i)
    {
      FindByKeyUnique(bookings, (b: Booking) => b.id, i);
    }
  }
}

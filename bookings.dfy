/**
 * Bookings: the entity, its approval status, the state filters of the list
 * queries, the booking repository's queries as the services call them, and the
 * approve/reject rule of updateBooking.
 */
module Bookings {
  import opened Common
  import opened Users
  import opened Items

  datatype Status = Waiting | Approved | Rejected

  /** The state filter of the two list queries. */
  datatype State = All | Current | Past | Future | Waiting | Rejected

  /** A stored booking; times are instants on one integer clock. */
  datatype Booking = Booking(
    id: int,
    item: Item,
    booker: User,
    status: Status,
    bookingStart: int,
    bookingEnd: int)

  /** What a booking request carries into addBooking: its time window. */
  datatype BookingWindow = BookingWindow(bookingStart: int, bookingEnd: int)

  function StateName(state: State): string
  {
    match state
    case All => "ALL"
    case Current => "CURRENT"
    case Past => "PAST"
    case Future => "FUTURE"
    case Waiting => "WAITING"
    case Rejected => "REJECTED"
  }

  /** State.convert: the state named by a query parameter, or UnsupportedState. */
  function ParseState(name: string): (r: Result<State>)
    ensures r.Ok? ==> StateName(r.value) == name
    ensures r.Err? ==> r.error == UnsupportedState
    ensures r.Err? ==> forall state :: StateName(state) != name
  {
    if name == "ALL" then Ok(State.All)
    else if name == "CURRENT" then Ok(State.Current)
    else if name == "PAST" then Ok(State.Past)
    else if name == "FUTURE" then Ok(State.Future)
    else if name == "WAITING" then Ok(State.Waiting)
    else if name == "REJECTED" then Ok(State.Rejected)
    else Err(UnsupportedState)
  }

  /** Every state's own name parses back to it. */
  lemma ParseStateName(state: State)
    ensures ParseState(StateName(state)) == Ok(state)
  {
  }

  /** isUserAnItemOwner: the caller owns the booked item. */
  predicate IsItemOwner(userId: int, b: Booking)
  {
    b.item.ownerId == userId
  }

  /** isUserAnItemBooker: the caller made the booking. */
  predicate IsBooker(userId: int, b: Booking)
  {
    b.booker.id == userId
  }

  /** The repository predicate each state selects, evaluated at instant `now`. */
  predicate InState(state: State, b: Booking, now: int)
  {
    match state
    case All => true
    case Past => b.bookingEnd < now
    case Future => b.bookingStart > now
    case Current => b.bookingStart < now && now < b.bookingEnd
    case Waiting => b.status == Status.Waiting
    case Rejected => b.status == Status.Rejected
  }

  /**
   * For a well-formed window, PAST, CURRENT and FUTURE are pairwise disjoint, and
   * the only bookings none of them selects are those starting or ending exactly at `now`.
   */
  lemma TemporalStatesPartition(b: Booking, now: int)
    requires b.bookingStart < b.bookingEnd
    ensures !(InState(State.Past, b, now) && InState(State.Current, b, now))
    ensures !(InState(State.Past, b, now) && InState(State.Future, b, now))
    ensures !(InState(State.Current, b, now) && InState(State.Future, b, now))
    ensures !InState(State.Past, b, now) && !InState(State.Current, b, now) && !InState(State.Future, b, now)
            <==> b.bookingStart == now || b.bookingEnd == now
  {
  }

  /** Ordered by booking start, latest first. */
  predicate StartDescending(s: seq<Booking>)
  {
    forall i, j :: 0 <= i < j < |s| ==> s[i].bookingStart >= s[j].bookingStart
  }

  /** A page cut from a result ordered by start is itself ordered by start. */
  lemma StartDescendingPage(s: seq<Booking>, index: nat, size: nat)
    requires StartDescending(s)
    ensures StartDescending(Page(s, index, size))
  {
  }

  /** Puts `b` in front of the first booking that starts no later than it does. */
  function InsertByStart(b: Booking, s: seq<Booking>): seq<Booking>
  {
    if s == [] then [b]
    else if b.bookingStart >= s[0].bookingStart then [b] + s
    else [s[0]] + InsertByStart(b, s[1..])
  }

  lemma {:induction false} InsertByStartElements(b: Booking, s: seq<Booking>)
    ensures forall x :: x in InsertByStart(b, s) ==> x == b || x in s
  {
    if s != [] && b.bookingStart < s[0].bookingStart {
      InsertByStartElements(b, s[1..]);
    }
  }

  lemma {:induction false} InsertByStartMultiset(b: Booking, s: seq<Booking>)
    ensures multiset(InsertByStart(b, s)) == multiset(s) + multiset{b}
  {
    if s != [] && b.bookingStart < s[0].bookingStart {
      InsertByStartMultiset(b, s[1..]);
      assert s == [s[0]] + s[1..];
    }
  }

  lemma {:induction false} InsertByStartSorted(b: Booking, s: seq<Booking>)
    requires StartDescending(s)
    ensures StartDescending(InsertByStart(b, s))
  {
    if s != [] && b.bookingStart < s[0].bookingStart {
      InsertByStartSorted(b, s[1..]);
      InsertByStartElements(b, s[1..]);
      var r := InsertByStart(b, s);
      forall i, j | 0 <= i < j < |r| ensures r[i].bookingStart >= r[j].bookingStart {
        if i == 0 {
          assert r[j] in InsertByStart(b, s[1..]);
        }
      }
    }
  }

  /** ORDER BY start DESC, as an insertion sort that keeps storage order among equal starts. */
  function SortByStartDesc(s: seq<Booking>): (r: seq<Booking>)
    ensures StartDescending(r)
    ensures multiset(r) == multiset(s)
  {
    if s == [] then []
    else
      var sorted := SortByStartDesc(s[1..]);
      InsertByStartSorted(s[0], sorted);
      InsertByStartMultiset(s[0], sorted);
      assert s == [s[0]] + s[1..];
      InsertByStart(s[0], sorted)
  }

  /** A repository list query: the stored bookings that `keep` selects, latest start first. */
  function Query(store: seq<Booking>, keep: Booking -> bool): seq<Booking>
  {
    SortByStartDesc(Filter(store, keep))
  }

  /** A query result is ordered by start and holds exactly the selected bookings, each as often as stored. */
  lemma QueryContents(store: seq<Booking>, keep: Booking -> bool)
    ensures StartDescending(Query(store, keep))
    ensures forall b :: multiset(Query(store, keep))[b] == if keep(b) then multiset(store)[b] else 0
    ensures forall b :: b in Query(store, keep) <==> b in store && keep(b)
  {
    forall b ensures multiset(Query(store, keep))[b] == if keep(b) then multiset(store)[b] else 0 {
      FilterMultiset(store, keep, b);
    }
  }

  /** What the booker-side queries (findAllByBookerId…) select: the caller's own bookings in `state`. */
  function BookerSelects(userId: int, state: State, now: int): Booking -> bool
  {
    b => IsBooker(userId, b) && InState(state, b, now)
  }

  /** What the owner-side queries (findAllByOwnerId…) select: bookings of the caller's items in `state`. */
  function OwnerSelects(userId: int, state: State, now: int): Booking -> bool
  {
    b => IsItemOwner(userId, b) && InState(state, b, now)
  }

  function BookerQuery(store: seq<Booking>, userId: int, state: State, now: int): seq<Booking>
  {
    Query(store, BookerSelects(userId, state, now))
  }

  function OwnerQuery(store: seq<Booking>, userId: int, state: State, now: int): seq<Booking>
  {
    Query(store, OwnerSelects(userId, state, now))
  }

  /** The booker query returns, latest start first, exactly the caller's stored bookings in `state`. */
  lemma BookerQueryContents(store: seq<Booking>, userId: int, state: State, now: int)
    ensures StartDescending(BookerQuery(store, userId, state, now))
    ensures forall b :: b in BookerQuery(store, userId, state, now) <==>
              b in store && IsBooker(userId, b) && InState(state, b, now)
  {
    QueryContents(store, BookerSelects(userId, state, now));
  }

  /** The owner query returns, latest start first, exactly the stored bookings of the caller's items in `state`. */
  lemma OwnerQueryContents(store: seq<Booking>, userId: int, state: State, now: int)
    ensures StartDescending(OwnerQuery(store, userId, state, now))
    ensures forall b :: b in OwnerQuery(store, userId, state, now) <==>
              b in store && IsItemOwner(userId, b) && InState(state, b, now)
  {
    QueryContents(store, OwnerSelects(userId, state, now));
  }

  /** findAllByItemAndStatePast: the item's bookings that ended before `now`, status other than `excluded`. */
  function ItemPastQuery(store: seq<Booking>, itemId: int, now: int, excluded: Status): seq<Booking>
  {
    Filter(store, (b: Booking) => b.item.id == itemId && b.bookingEnd < now && b.status != excluded)
  }

  /** findAllByItemAndStateFuture: the item's bookings starting after `now`, status other than `excluded`. */
  function ItemFutureQuery(store: seq<Booking>, itemId: int, now: int, excluded: Status): seq<Booking>
  {
    Filter(store, (b: Booking) => b.item.id == itemId && b.bookingStart > now && b.status != excluded)
  }

  /** The past query selects exactly the item's bookings that ended before `now` and are not `excluded`. */
  lemma ItemPastQueryContents(store: seq<Booking>, itemId: int, now: int, excluded: Status)
    ensures forall b :: b in ItemPastQuery(store, itemId, now, excluded) <==>
              b in store && b.item.id == itemId && b.bookingEnd < now && b.status != excluded
  {
    forall b | b in store && b.item.id == itemId && b.bookingEnd < now && b.status != excluded
      ensures b in ItemPastQuery(store, itemId, now, excluded)
    {
      FilterKeeps(store, (b: Booking) => b.item.id == itemId && b.bookingEnd < now && b.status != excluded, b);
    }
  }

  /** The future query selects exactly the item's bookings that start after `now` and are not `excluded`. */
  lemma ItemFutureQueryContents(store: seq<Booking>, itemId: int, now: int, excluded: Status)
    ensures forall b :: b in ItemFutureQuery(store, itemId, now, excluded) <==>
              b in store && b.item.id == itemId && b.bookingStart > now && b.status != excluded
  {
    forall b | b in store && b.item.id == itemId && b.bookingStart > now && b.status != excluded
      ensures b in ItemFutureQuery(store, itemId, now, excluded)
    {
      FilterKeeps(store, (b: Booking) => b.item.id == itemId && b.bookingStart > now && b.status != excluded, b);
    }
  }

  /** Some stored booking is for an item the caller owns. */
  ghost predicate OwnsBookedItem(store: seq<Booking>, userId: int)
  {
    exists i :: 0 <= i < |store| && IsItemOwner(userId, store[i])
  }

  /**
   * The checks and the effect of updateBooking on a found booking: only the item's
   * owner may decide, only once, while the booking is WAITING.
   */
  function Resolve(b: Booking, userId: int, approval: bool): (r: Result<Booking>)
    ensures r.Ok? <==> IsItemOwner(userId, b) && b.status == Status.Waiting
    ensures !IsItemOwner(userId, b) ==> r == Err(NotFound(NotItemOwner))
    ensures IsItemOwner(userId, b) && b.status != Status.Waiting ==> r == Err(Validation(NotWaiting))
    ensures r.Ok? ==> r.value.status == (if approval then Status.Approved else Status.Rejected)
    ensures r.Ok? ==> r.value == b.(status := r.value.status)
  {
    if !IsItemOwner(userId, b) then Err(NotFound(NotItemOwner))
    else if b.status != Status.Waiting then Err(Validation(NotWaiting))
    else Ok(b.(status := if approval then Status.Approved else Status.Rejected))
  }

  /** A decided booking cannot be decided again, by anybody, either way. */
  lemma ResolveIsFinal(b: Booking, userId: int, approval: bool, userId': int, approval': bool)
    requires Resolve(b, userId, approval).Ok?
    ensures Resolve(Resolve(b, userId, approval).value, userId', approval').Err?
    ensures IsItemOwner(userId', b) ==>
              Resolve(Resolve(b, userId, approval).value, userId', approval') == Err(Validation(NotWaiting))
  {
  }
}

# ShareIt booking core, modelled in Dafny

ShareIt is a service where users lend items to each other. This project models
its booking core: how a booking is created and approved or rejected, who may see
a booking, the state-filtered and paged booking lists for bookers and item
owners, the "last" and "next" booking shown to an item's owner, item requests
and their lists, and the user directory those services consult.

Repositories are modelled as values:
- The booking and request repositories are `seq` fields of the service classes,
  in insertion order. Ids are handed out by a `nextId` counter, so they increase
  along the sequence.
- The item and user repositories the services read are maps from id to row,
  passed in as parameters.
- The clock (`LocalDateTime.now()`) is an integer parameter `now`.

Exceptions are `Err`/`Fail` results. Each one carries the reason that the
source's message names, so the order in which the checks fire is part of every
contract.

`BookingServiceImpl.getItemLastBooking` and `getItemNextBooking`
(booking/service/BookingServiceImpl.java:155-173) are the same code as
ItemMapper's. Both are modelled by `ItemMapper.LastBooking` and
`ItemMapper.NextBooking`.

Modules:
- `Common`: errors, `Result`/`Option`, paging, filtering, lookup by id.
- `Users`: `UserServiceImpl`.
- `Items`: the item entity.
- `Bookings`: the booking entity and states, the repository queries, and the approval rule.
- `Dtos`: transfer objects.
- `BookingMapper`
- `BookingServices`: `BookingServiceImpl`.
- `ItemMapper`
- `Requests`: `RequestServiceImpl`.

Some repository queries are hand-written and their text is not part of this
model. For those, the model makes the following choices:
- CURRENT could be read as `start <= now <= end`. The model reads it as
  `start < now < end`, with both endpoints strict, for the booker and for the
  owner alike. The owner query's name (`StartAfterAndEndBefore`) admits other
  readings; the repository test for it checks only the size of the result.
- Every booking list, booker or owner, is ordered by start, latest first. The
  owner query names and their page request carry no sort, so for the owner
  lists this order is assumed, not read from the code.
- The last/next booking is the first row the repository query returns. It is not
  claimed to be the latest or the earliest by start, because the query's order
  is not part of this model.

## Model

| member | source | states |
|---|---|---|
| Common.PageIndex | src/main/java/ru/practicum/shareit/booking/service/BookingServiceImpl.java:98 | page number `from / size` (0 when `from` is 0) is the page containing item number `from` |
| Common.Page | src/main/java/ru/practicum/shareit/booking/service/BookingServiceImpl.java:98 | a page holds at most `size` rows, each the row at its offset in the full result |
| Common.FindByKey | src/main/java/ru/practicum/shareit/booking/service/BookingServiceImpl.java:73-77 | findById: a position whose row has the id, or None exactly when no row has it |
| Common.FindByKeyUnique | src/main/java/ru/practicum/shareit/booking/service/BookingServiceImpl.java:73-77 | with generated increasing ids, findById returns the one row with that id |
| Common.FilterKeepsKeysIncreasing | src/main/java/ru/practicum/shareit/request/repository/RequestRepository.java:10-13 | a selection from an id-ordered store is still id-ordered |
| Common.ReverseMembers | src/main/java/ru/practicum/shareit/request/repository/RequestRepository.java:10-13 | ordering by id descending keeps exactly the selected rows |
| Users.FindUser | src/main/java/ru/practicum/shareit/user/service/UserServiceImpl.java:70-74 | Ok exactly when the id is stored, with that user; otherwise NotFound(user) |
| Users.UserService.AddUser | src/main/java/ru/practicum/shareit/user/service/UserServiceImpl.java:34-44 | an existing id is refused and nothing changes; otherwise the user is inserted under its id |
| Users.UserService.UpdateUser | src/main/java/ru/practicum/shareit/user/service/UserServiceImpl.java:54-57 | save overwrites the record under the user's id, others unchanged |
| Users.UserService.GetUserById | src/main/java/ru/practicum/shareit/user/service/UserServiceImpl.java:68-75 | returns what `FindUser` specifies: the stored user, or NotFound exactly when the id is absent |
| Users.UserService.DeleteUserById | src/main/java/ru/practicum/shareit/user/service/UserServiceImpl.java:79-82 | the id is gone and every other user is unchanged |
| Users.UserService.IsUserExists | src/main/java/ru/practicum/shareit/user/service/UserServiceImpl.java:86-94 | true exactly when getUserById would succeed, i.e. the id is stored |
| Bookings.ParseState | src/main/java/ru/practicum/shareit/booking/service/BookingServiceImpl.java:97 | a parsed state's name is the input; an unknown name gives UnsupportedState and names no state |
| Bookings.ParseStateName | src/main/java/ru/practicum/shareit/booking/service/BookingServiceImpl.java:97 | every state's name parses back to that state |
| Bookings.IsItemOwner | src/main/java/ru/practicum/shareit/booking/service/BookingServiceImpl.java:185-187 | the caller owns the booked item |
| Bookings.IsBooker | src/main/java/ru/practicum/shareit/booking/service/BookingServiceImpl.java:189-191 | the caller made the booking |
| Bookings.InState | src/main/java/ru/practicum/shareit/booking/service/BookingServiceImpl.java:99-152 | the filter each state selects: ALL everything, PAST ended before `now`, FUTURE starting after `now`, CURRENT spanning `now`, WAITING/REJECTED by status |
| Bookings.TemporalStatesPartition | src/main/java/ru/practicum/shareit/booking/service/BookingServiceImpl.java:102-112 | PAST, CURRENT and FUTURE never overlap; a booking is in none of them exactly when it starts or ends at `now` |
| Bookings.InsertByStartSorted | src/main/java/ru/practicum/shareit/booking/service/BookingServiceImpl.java:101 | inserting into a start-descending list keeps it start-descending |
| Bookings.InsertByStartMultiset | src/main/java/ru/practicum/shareit/booking/service/BookingServiceImpl.java:101 | insertion adds exactly one copy of the booking |
| Bookings.SortByStartDesc | src/main/java/ru/practicum/shareit/booking/service/BookingServiceImpl.java:101 | ORDER BY bookingStart DESC: the result is start-descending and a permutation of its input |
| Bookings.StartDescendingPage | src/main/java/ru/practicum/shareit/booking/service/BookingServiceImpl.java:98-101 | a page of a start-ordered result is start-ordered |
| Bookings.QueryContents | src/main/java/ru/practicum/shareit/booking/service/BookingServiceImpl.java:99-121 | a list query is start-descending and holds each selected booking exactly as often as it is stored, and no other booking |
| Bookings.BookerQueryContents | src/main/java/ru/practicum/shareit/booking/service/BookingServiceImpl.java:99-121 | the booker query returns exactly the caller's stored bookings in the state, latest start first |
| Bookings.OwnerQueryContents | src/main/java/ru/practicum/shareit/booking/service/BookingServiceImpl.java:134-152 | the owner query returns exactly the stored bookings of the caller's items in the state, latest start first |
| Bookings.ItemPastQueryContents | src/main/java/ru/practicum/shareit/booking/service/BookingServiceImpl.java:157-158 | the item's past query selects exactly its bookings ended before `now` with a status other than the excluded one |
| Bookings.ItemFutureQueryContents | src/main/java/ru/practicum/shareit/booking/service/BookingServiceImpl.java:167-168 | the item's future query selects exactly its bookings starting after `now` with a status other than the excluded one |
| Bookings.Resolve | src/main/java/ru/practicum/shareit/booking/service/BookingServiceImpl.java:55-65 | succeeds iff the caller owns the item and the booking is WAITING; non-owner NotFound first, then non-WAITING Validation; the status becomes APPROVED/REJECTED per `approval`, nothing else changes |
| Bookings.ResolveIsFinal | src/main/java/ru/practicum/shareit/booking/service/BookingServiceImpl.java:58-60 | a decided booking can never be decided again; its owner gets the "not WAITING" error |
| Dtos.BookingToDto | src/main/java/ru/practicum/shareit/booking/controller/BookingMapper.java:19-21 | the DTO carries the booking's id, status and window, its booker's fields and its item's fields, with no booking summaries |
| BookingMapper.ValidateDate | src/main/java/ru/practicum/shareit/booking/controller/BookingMapper.java:46-50 | passes iff start is strictly before end, otherwise a validation error |
| BookingMapper.ConvertToEntity | src/main/java/ru/practicum/shareit/booking/controller/BookingMapper.java:41-44 | a window is produced iff start < end, carrying the request's start and end |
| BookingMapper.ConvertToShort | src/main/java/ru/practicum/shareit/booking/controller/BookingMapper.java:23-31 | null iff null; otherwise exactly the booking id and the booker's id |
| BookingMapper.ConvertToDtoListOfBooking | src/main/java/ru/practicum/shareit/booking/controller/BookingMapper.java:33-39 | one DTO per booking, same length and order |
| BookingServices.BookingService.AddBooking | src/main/java/ru/practicum/shareit/booking/service/BookingServiceImpl.java:34-48 | errors in order missing item, missing user, unavailable, own item, with the store untouched; otherwise exactly one WAITING booking by the caller on the stored item is appended under a fresh id; the store invariant is kept |
| BookingServices.BookingService.GetBooking | src/main/java/ru/practicum/shareit/booking/service/BookingServiceImpl.java:71-78 | the stored booking with the id, NotFound exactly when no booking has it |
| BookingServices.BookingService.UpdateBooking | src/main/java/ru/practicum/shareit/booking/service/BookingServiceImpl.java:52-67 | missing booking first; then the found booking is replaced by its Resolve result, or the store is unchanged with Resolve's error |
| BookingServices.BookingService.GetBookingById | src/main/java/ru/practicum/shareit/booking/service/BookingServiceImpl.java:82-90 | missing booking, then missing user, then access restricted to owner or booker; the stored booking otherwise |
| BookingServices.FindByKeyUniqueAll | src/main/java/ru/practicum/shareit/booking/service/BookingServiceImpl.java:73-77 | every stored booking is what findById of its own id returns |
| BookingServices.BookingService.GetAllBookingOfUserWithState | src/main/java/ru/practicum/shareit/booking/service/BookingServiceImpl.java:94-122 | missing user, then unsupported state; otherwise a page of at most `size` of the caller's bookings in that state, latest start first |
| BookingServices.BookingService.IsUserAnOwner | src/main/java/ru/practicum/shareit/booking/service/BookingServiceImpl.java:175-183 | true iff some stored booking is on an item the caller owns |
| BookingServices.BookingService.GetAllBookingForItemsOfOwnerWithState | src/main/java/ru/practicum/shareit/booking/service/BookingServiceImpl.java:126-153 | missing user, then no booked items, then unsupported state; otherwise a page of at most `size` bookings of the caller's items in that state, latest start first |
| ItemMapper.LastBooking | src/main/java/ru/practicum/shareit/item/controller/ItemMapper.java:45-52 | when present: a stored booking of the item that ended before `now` and is not REJECTED |
| ItemMapper.NextBooking | src/main/java/ru/practicum/shareit/item/controller/ItemMapper.java:54-61 | when present: a stored booking of the item starting after `now` and not REJECTED |
| ItemMapper.LastBookingAbsent | src/main/java/ru/practicum/shareit/item/controller/ItemMapper.java:45-52 | null exactly when every ended booking of the item is REJECTED |
| ItemMapper.NextBookingAbsent | src/main/java/ru/practicum/shareit/item/controller/ItemMapper.java:54-61 | null exactly when every upcoming booking of the item is REJECTED |
| ItemMapper.ConvertToDtoForOwner | src/main/java/ru/practicum/shareit/item/controller/ItemMapper.java:30-43 | item fields copied; last/next are the short forms of bookings of this item that are not REJECTED |
| ItemMapper.ConvertToDtoForUser | src/main/java/ru/practicum/shareit/item/controller/ItemMapper.java:63-73 | item fields copied; last and next are always null |
| ItemMapper.ConvertToDtoListOfItems | src/main/java/ru/practicum/shareit/item/controller/ItemMapper.java:75-88 | null gives an empty list; else one view per item in order, the owner view iff `isOwner` |
| ItemMapper.ConvertToEntity | src/main/java/ru/practicum/shareit/item/controller/ItemMapper.java:90-115 | refused iff the stored item has another owner; the caller becomes owner; null fields are filled from the stored item, given fields kept; a stored NOT NULL row stays complete |
| Requests.SetItemsForListOfRequests | src/main/java/ru/practicum/shareit/request/service/RequestServiceImpl.java:79-88 | null gives an empty list; any list comes back unchanged |
| Requests.ByIdDescContents | src/main/java/ru/practicum/shareit/request/repository/RequestRepository.java:10-13 | ORDER BY id DESC over a selection: id-descending and exactly the selected stored requests |
| Requests.OwnAndOtherRequestsSplit | src/main/java/ru/practicum/shareit/request/service/RequestServiceImpl.java:57-77 | before paging, each stored request is in exactly one of "own" and "other users'" lists |
| Requests.IdDescendingPage | src/main/java/ru/practicum/shareit/request/service/RequestServiceImpl.java:64-65 | a page of an id-descending list is id-descending |
| Requests.RequestService.AddItemRequest | src/main/java/ru/practicum/shareit/request/service/RequestServiceImpl.java:31-39 | missing user refused with the store unchanged; otherwise saved under a fresh id with that user as requester and returned |
| Requests.RequestService.GetItemRequestById | src/main/java/ru/practicum/shareit/request/service/RequestServiceImpl.java:42-55 | missing user reported before a missing request; a present user and a stored request with that id always give that request |
| Requests.FindRequestAtOwnPosition | src/main/java/ru/practicum/shareit/request/service/RequestServiceImpl.java:44 | with generated increasing ids, findById of a stored request's id finds that request |
| Requests.RequestService.GetUserRequestsById | src/main/java/ru/practicum/shareit/request/service/RequestServiceImpl.java:58-66 | missing user refused; otherwise at most 10 of the caller's own requests, highest id first |
| Requests.RequestService.GetOtherUsersRequests | src/main/java/ru/practicum/shareit/request/service/RequestServiceImpl.java:69-77 | missing user refused; otherwise page `from / size` of the other users' requests, highest id first |

## Left out

- HTTP controllers, bean validation and the exception handler are not modelled. The controller's `@Min(0)`/`@Min(1)` on `from`/`size` become preconditions.
- Logging, transactions and concurrency are not modelled.
- The clock is the integer parameter `now`. Instants are integers.
- ModelMapper is a reflection-based mapper. It is modelled as copying the like-named fields (`Dtos`).
- Comments on items (CommentRepository, CommentMapper) are not part of this model. The DTOs have no comments field.
- The `itemRepository.findAllByRequestIdOrderById` calls in RequestServiceImpl discard their results, so they are left out.
- `State.convert` is not part of this model. `Bookings.ParseState` accepts exactly the six upper-case names.
- Bookings.SortByStartDesc: the order among bookings with equal start is not claimed. The repository leaves it unspecified, and the model uses a stable sort. The booker CURRENT query's method name has no ORDER BY, but the model sorts it like the others.
- Bookings.InState: CURRENT with strict endpoints, and the owner CURRENT query read as "spans `now`", are modelling choices. The query texts are not part of this model, and `TemporalStatesPartition`'s "starts or ends at `now`" case depends on this choice.
- Bookings.OwnerQueryContents: the start-descending order of the owner lists is assumed. None of the five owner query names has an ORDER BY, and their page request has no sort.
- ItemMapper.LastBooking: does not claim the latest-ending past booking, because the repository query order is not part of this model.
- ItemMapper.NextBooking: does not claim the earliest-starting future booking, for the same reason.
- BookingServices.BookingService.AddBooking: the request's own id and any item, booker or status it carries are ignored. The repository assigns the id, and the service sets the rest.
- BookingServices.BookingService.AddBooking: requires `start < end`. Every caller first passes the request through `BookingMapper.ConvertToEntity`, which refuses anything else.
- BookingServices.BookingService.AddBooking: a null `available` column is excluded by the catalog invariant, because the column is NOT NULL.
- A booking embeds a copy of its item and booker. Later edits to an item or user are not reflected in stored bookings.
- Users.UserService.AddUser: the id is taken as given. Repository id generation for new users (a user sent with id 0 being given a fresh id) is not modelled, so two users sent with id 0 clash here. The user entity is not part of this model.
- Users.UserService.AddUser: the source's second duplicate check reads the same id again right after the first found nothing. It can never fire, so it is omitted.
- Users.UserService.DeleteUserById: deleting an absent id does nothing. Spring Data's own behaviour in that case is not part of the source.
- `UserServiceImpl.getAllUsers` is a plain `findAll` and is not modelled.
- ItemMapper.ConvertToEntity: the refusal of a foreign owner's item uses the "user not found" reason, matching the source's message.
- The item and user repositories are read-only maps here. Their services, `ItemService.isItemExists` and `getItem`, appear only as map membership and lookup.
- 64-bit `long` ids and `int` paging values are unbounded integers. Overflow is not modelled.

/**
 * The transfer objects the mappers produce, and the plain field copies the
 * reflection-based object mapper makes between entities and them.
 */
module Dtos {
  import opened Common
  import opened Users
  import opened Items
  import opened Bookings

  /** BookingOwnerDto: the short form of a booking shown on an item. */
  datatype BookingShort = BookingShort(id: int, bookerId: int)

  datatype UserDto = UserDto(id: int, name: string, email: string)

  /** ItemDto; every field except the id may be null in a partial update. */
  datatype ItemDto = ItemDto(
    id: int,
    name: Option<string>,
    description: Option<string>,
    available: Option<bool>,
    lastBooking: Option<BookingShort>,
    nextBooking: Option<BookingShort>,
    requestId: Option<int>)

  datatype BookingDto = BookingDto(
    id: int,
    item: ItemDto,
    booker: UserDto,
    status: Status,
    start: int,
    end: int)

  function UserToDto(user: User): UserDto
  {
    UserDto(user.id, user.name, user.email)
  }

  /** Copies the like-named fields; the booking summaries stay null. */
  function ItemToDto(item: Item): ItemDto
  {
    ItemDto(item.id, item.name, item.description, item.available, None, None, item.requestId)
  }

  /**
   * BookingMapper.convertToDto: the booking's id, status and window, its booker's
   * id, name and e-mail, and its item's fields, with no booking summaries on the item.
   */
  function BookingToDto(b: Booking): (r: BookingDto)
    ensures r.id == b.id && r.status == b.status
    ensures r.start == b.bookingStart && r.end == b.bookingEnd
    ensures r.booker.id == b.booker.id && r.booker.name == b.booker.name && r.booker.email == b.booker.email
    ensures r.item.id == b.item.id && r.item.name == b.item.name && r.item.description == b.item.description
    ensures r.item.available == b.item.available && r.item.requestId == b.item.requestId
    ensures r.item.lastBooking.None? && r.item.nextBooking.None?
  {
    BookingDto(b.id, ItemToDto(b.item), UserToDto(b.booker), b.status, b.bookingStart, b.bookingEnd)
  }

  /** The item an ItemDto describes, before it is merged with the stored one. */
  function DtoToItem(dto: ItemDto): Item
  {
    Item(dto.id, 0, dto.name, dto.description, dto.available, dto.requestId)
  }
}

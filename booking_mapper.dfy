/**
 * BookingMapper: the date check on an incoming booking request, the short
 * (id, booker id) projection and the conversion of result lists.
 */
module BookingMapper {
  import opened Common
  import opened Bookings
  import opened Dtos

  /** BookingRequestDto: what a client posts to create a booking. */
  datatype BookingRequest = BookingRequest(id: int, itemId: int, start: int, end: int)

  /** validateDate: the start must be strictly before the end. */
  function ValidateDate(request: BookingRequest): (r: Outcome)
    ensures r == Done <==> request.start < request.end
    ensures r.Fail? ==> r.error == Validation(BadWindow)
  {
    if !(request.start < request.end) then Fail(Validation(BadWindow)) else Done
  }

  /**
   * convertToEntity: validates the window, then hands its time window on to
   * addBooking; a request whose start is not before its end, equal instants
   * included, is refused.
   */
  function ConvertToEntity(request: BookingRequest): (r: Result<BookingWindow>)
    ensures r.Ok? <==> request.start < request.end
    ensures r.Ok? ==> r.value.bookingStart == request.start && r.value.bookingEnd == request.end
    ensures r.Ok? ==> r.value.bookingStart < r.value.bookingEnd
    ensures r.Err? ==> r.error == Validation(BadWindow)
  {
    match ValidateDate(request)
    case Fail(e) => Err(e)
    case Done => Ok(BookingWindow(request.start, request.end))
  }

  /** convertToShort: null stays null; otherwise exactly the booking id and the booker's id. */
  function ConvertToShort(b: Option<Booking>): (r: Option<BookingShort>)
    ensures r.None? <==> b.None?
    ensures r.Some? ==> r.value.id == b.value.id && r.value.bookerId == b.value.booker.id
  {
    match b
    case None => None
    case Some(booking) => Some(BookingShort(booking.id, booking.booker.id))
  }

  /** convertToDtoListOfBooking: one DTO per booking, same length, same order. */
  method ConvertToDtoListOfBooking(bookings: seq<Booking>) returns (dtos: seq<BookingDto>)
    ensures |dtos| == |bookings|
    ensures forall i :: 0 <= i < |bookings| ==> dtos[i] == BookingToDto(bookings[i])
  {
    dtos := [];
    for i := 0 to |bookings|
      invariant |dtos| == i
      invariant forall k :: 0 <= k < i ==> dtos[k] == BookingToDto(bookings[k])
    {
      dtos := dtos + [BookingToDto(bookings[i])];
    }
  }
}

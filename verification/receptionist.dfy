/**
 * The receptionist agent: turns a booking request into a pending reservation
 * and answers inquiries from a fixed table. It neither prices nor checks
 * availability.
 */
module Receptionist {
  import opened Wrappers
  import opened Stamps
  import opened Models
  import opened Messages

  const AgentId: string := "receptionist"

  /** The fixed addressee of every successful booking reply. */
  const CoordinatorId: string := "coordinator"

  /** What a booking dictionary must hold for `Reservation(...)` to accept it. */
  predicate BookingAcceptable(b: BookingData) {
    && b.roomType.Some? && ParseRoomType(b.roomType.value).Some?
    && b.checkIn.Some? && b.checkOut.Some?
    && b.guests.Some? && MinGuests <= b.guests.value <= MaxGuests
  }

  /**
   * The body of `_handle_booking_request` up to `model_dump`: validate the
   * customer, read room type, dates and guest count, and build the reservation.
   */
  function BuildReservation(customer: Option<CustomerData>, booking: Option<BookingData>, now: Clock): (r: Result<Reservation, Refusal>)
    ensures r.Ok? <==> ValidateCustomer(customer).Ok? && booking.Some? && BookingAcceptable(booking.value)
    ensures r.Ok? ==>
              var res := r.value;
              && res.Valid()
              && res.bookingStatus == BookingStatus.Pending && res.paymentStatus == PaymentStatus.Pending
              && res.totalPrice.None?
              && res.reservationId == DefaultReservationId(now)
              && Some(DumpCustomer(res.customer)) == customer
              && booking.value.roomType == Some(RoomTypeName(res.roomType))
              && booking.value.checkIn == Some(res.checkIn) && booking.value.checkOut == Some(res.checkOut)
              && booking.value.guests == Some(res.guests)
              && booking.value.specialRequests == res.specialRequests
  {
    match ValidateCustomer(customer)
    case Err(e) => Err(e)
    case Ok(c) =>
      match booking
      case None => Err(MissingBooking)
      case Some(b) =>
        if b.roomType.None? then Err(MissingRoomType)
        else match ParseRoomType(b.roomType.value)
          case None => Err(UnknownRoomType)
          case Some(room) =>
            if b.checkIn.None? || b.checkOut.None? then Err(MissingDate)
            else if b.guests.None? then Err(MissingGuests)
            else NewReservation(c, room, b.checkIn.value, b.checkOut.value, b.guests.value, b.specialRequests, now)
  }

  /** `_handle_booking_request`: success goes to the coordinator, failure back to the sender. */
  function HandleBookingRequest(request: Message, customer: Option<CustomerData>, booking: Option<BookingData>, now: Clock): (reply: Message)
    ensures reply.sender == AgentId && reply.replyTo == Some(request.messageId)
    ensures StatusOf(reply.content) == Some(SuccessStatus) <==> BuildReservation(customer, booking, now).Ok?
    ensures BuildReservation(customer, booking, now).Ok? ==>
              && reply.receiver == CoordinatorId && reply.messageType == Response
              && reply.content == BookingCreated(Dump(BuildReservation(customer, booking, now).value))
    ensures BuildReservation(customer, booking, now).Err? ==>
              && reply.receiver == request.sender && reply.messageType == Error
              && StatusOf(reply.content) == Some(ErrorStatus)
  {
    match BuildReservation(customer, booking, now)
    case Ok(r) =>
      SendMessage(AgentId, now, CoordinatorId, Response, BookingCreated(Dump(r)), Some(request.messageId))
    case Err(_) =>
      ReplyFrom(AgentId, request, now, Error, ErrorReply(BookingRequestFault, None, None))
  }

  /** A successful booking reply carries a pending, unpriced reservation with the requested stay. */
  lemma BookingReplyIsPending(request: Message, customer: Option<CustomerData>, booking: Option<BookingData>, now: Clock)
    requires StatusOf(HandleBookingRequest(request, customer, booking, now).content) == Some(SuccessStatus)
    ensures
      var d := HandleBookingRequest(request, customer, booking, now).content.created;
      && d.bookingStatus == Some(BookingStatus.Pending) && d.paymentStatus == Some(PaymentStatus.Pending)
      && d.totalPrice == NullPrice
      && d.roomType == booking.value.roomType
      && d.checkIn == booking.value.checkIn && d.checkOut == booking.value.checkOut
      && d.guests == booking.value.guests && d.specialRequests == booking.value.specialRequests
      && d.customer == customer
  {
  }

  /** The wording of each canned answer. */
  function AnswerText(a: CannedAnswer): string {
    match a
    case RoomTypesAnswer => "We offer Single, Double, Suite, and Deluxe rooms."
    case AmenitiesAnswer => "All rooms include WiFi, TV, air conditioning, and complimentary breakfast."
    case PoliciesAnswer => PolicyHours + " Cancellation allowed up to 24 hours before check-in."
    case FallbackAnswer => "Please contact our support for more information."
  }

  /** The three inquiry topics with a canned answer. */
  const InquiryAnswers: map<string, CannedAnswer> :=
    map["room_types" := RoomTypesAnswer, "amenities" := AmenitiesAnswer, "policies" := PoliciesAnswer]

  /** `response_messages.get(inquiry_type, fallback)`. */
  function AnswerFor(inquiryType: Option<string>): (answer: CannedAnswer)
    ensures inquiryType.Some? && inquiryType.value in InquiryAnswers ==> answer == InquiryAnswers[inquiryType.value]
    ensures answer == FallbackAnswer <==> !(inquiryType.Some? && inquiryType.value in InquiryAnswers)
  {
    if inquiryType.Some? && inquiryType.value in InquiryAnswers then InquiryAnswers[inquiryType.value] else FallbackAnswer
  }

  /** The opening sentence of the policies answer, and the hours it announces. */
  const PolicyHours := "Check-in: 3 PM, Check-out: 11 AM."
  const CheckInHour := 15
  const CheckOutHour := 11

  /**
   * The policies answer states the hours the stay runs between. A stay from
   * the check-in hour of one day to the check-out hour `days` days later is
   * short of `days` whole days, so `calculate_nights` bills one night fewer.
   */
  lemma PolicyHoursBillOneNightFewer(day: int, days: int)
    requires days >= 1
    ensures PolicyHours <= AnswerText(AnswerFor(Some("policies")))
    ensures Nights(day + CheckInHour * 3600, day + days * SecondsPerDay + CheckOutHour * 3600) == days - 1
  {
    assert "policies" in InquiryAnswers;
    NightsUnique(day + CheckInHour * 3600, day + days * SecondsPerDay + CheckOutHour * 3600, days - 1);
  }

  /** `_handle_inquiry`: always a success reply to the sender echoing the inquiry type. */
  function HandleInquiry(request: Message, inquiryType: Option<string>, now: Clock): (reply: Message)
    ensures reply.sender == AgentId && reply.receiver == request.sender && reply.replyTo == Some(request.messageId)
    ensures reply.messageType == Response && StatusOf(reply.content) == Some(SuccessStatus)
    ensures reply.content == InquiryAnswered(inquiryType, AnswerFor(inquiryType))
  {
    ReplyFrom(AgentId, request, now, Response, InquiryAnswered(inquiryType, AnswerFor(inquiryType)))
  }

  /** `ReceptionistAgent.process_message`. */
  function Process(request: Message, now: Clock): (reply: Option<Message>)
    ensures reply.Some? <==> request.messageType == Request && (request.content.CreateBooking? || request.content.Inquiry?)
    ensures reply.Some? ==> reply.value.sender == AgentId && reply.value.replyTo == Some(request.messageId)
  {
    if request.messageType != Request then None
    else match request.content
      case CreateBooking(customer, booking) => Some(HandleBookingRequest(request, customer, booking, now))
      case Inquiry(t) => Some(HandleInquiry(request, t, now))
      case _ => None
  }
}

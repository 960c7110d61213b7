/**
 * The availability agent: a fixed nightly rate table, a static inventory, and
 * the two operations that answer from them. Nothing here changes state.
 */
module Availability {
  import opened Wrappers
  import opened Stamps
  import opened Models
  import opened Messages

  const AgentId: string := "availability"

  /** `ROOM_PRICES`: the nightly rate of each category. */
  function PricePerNight(room: RoomType): (rate: int)
    ensures rate > 0
  {
    match room
    case Single => 100
    case Double => 150
    case Suite => 250
    case Deluxe => 350
  }

  type Inventory = map<RoomType, int>

  /** `ROOM_INVENTORY` as the source seeds it. */
  const SeedInventory: Inventory := map[Single := 10, Double := 15, Suite := 5, Deluxe := 3]

  /** `ROOM_INVENTORY.get(room, 0)`. */
  function InStock(inventory: Inventory, room: RoomType): int {
    if room in inventory then inventory[room] else 0
  }

  /** `_is_room_available`: the dates are accepted but play no part. */
  predicate IsRoomAvailable(inventory: Inventory, room: RoomType, checkIn: Timestamp, checkOut: Timestamp) {
    InStock(inventory, room) > 0
  }

  lemma AvailabilityIgnoresDates(inventory: Inventory, room: RoomType, in1: Timestamp, out1: Timestamp, in2: Timestamp, out2: Timestamp)
    ensures IsRoomAvailable(inventory, room, in1, out1) == IsRoomAvailable(inventory, room, in2, out2)
    ensures IsRoomAvailable(inventory, room, in1, out1) <==> room in inventory && inventory[room] > 0
  {
  }

  /** With the seeded inventory every category is available for any dates. */
  lemma SeededRoomsAvailable(room: RoomType, checkIn: Timestamp, checkOut: Timestamp)
    ensures IsRoomAvailable(SeedInventory, room, checkIn, checkOut)
  {
  }

  /** The three fields both operations read from the `reservation` dictionary, once parsed. */
  datatype Stay = Stay(room: RoomType, checkIn: Timestamp, checkOut: Timestamp)

  /** Reads room type and dates; an unknown room type or a missing or unparseable date gives nothing. */
  function ParseStay(data: Option<ReservationData>): (s: Option<Stay>)
    ensures s.Some? <==>
              && data.Some? && data.value.roomType.Some? && ParseRoomType(data.value.roomType.value).Some?
              && data.value.checkIn.Some? && data.value.checkOut.Some?
    ensures s.Some? ==>
              && data.value.roomType == Some(RoomTypeName(s.value.room))
              && data.value.checkIn == Some(s.value.checkIn)
              && data.value.checkOut == Some(s.value.checkOut)
  {
    match data
    case None => None
    case Some(d) =>
      if d.roomType.None? || d.checkIn.None? || d.checkOut.None? then None
      else match ParseRoomType(d.roomType.value)
        case None => None
        case Some(room) => Some(Stay(room, d.checkIn.value, d.checkOut.value))
  }

  /** A dumped reservation always parses, to its own room and dates. */
  lemma DumpedReservationParses(r: Reservation)
    ensures ParseStay(Some(Dump(r))) == Some(Stay(r.roomType, r.checkIn, r.checkOut))
  {
    ParseRoomTypeName(r.roomType);
  }

  datatype Quote = Quote(pricePerNight: int, nights: int, totalPrice: int)

  /** `nights = (check_out - check_in).days`, `total = nights * price_per_night`. */
  function QuoteFor(stay: Stay): Quote {
    var nights := Nights(stay.checkIn, stay.checkOut);
    Quote(PricePerNight(stay.room), nights, nights * PricePerNight(stay.room))
  }

  /** A stay of `d` whole days costs `d` times the nightly rate, whatever the sign of `d`. */
  lemma QuoteOfWholeDays(room: RoomType, checkIn: Timestamp, d: int)
    ensures QuoteFor(Stay(room, checkIn, checkIn + d * SecondsPerDay)) ==
              Quote(PricePerNight(room), d, d * PricePerNight(room))
  {
    NightsOfWholeDays(checkIn, d);
  }

  /** `_check_availability`: priced when in stock, a plain "not available" otherwise, an ERROR when unreadable. */
  function CheckAvailability(inventory: Inventory, request: Message, data: Option<ReservationData>, now: Clock): (reply: Message)
    ensures reply.sender == AgentId && reply.receiver == request.sender && reply.replyTo == Some(request.messageId)
    ensures StatusOf(reply.content) == Some(SuccessStatus) <==> ParseStay(data).Some?
    ensures ParseStay(data).None? ==> reply.messageType == Error && StatusOf(reply.content) == Some(ErrorStatus) && AvailableOf(reply.content).None?
    ensures ParseStay(data).Some? ==> reply.messageType == Response
    ensures AvailableOf(reply.content) == Some(true) <==>
              ParseStay(data).Some? && IsRoomAvailable(inventory, ParseStay(data).value.room, ParseStay(data).value.checkIn, ParseStay(data).value.checkOut)
    ensures AvailableOf(reply.content) == Some(false) ==> reply.content == RoomUnavailable
    ensures reply.content.RoomAvailable? ==>
              var stay := ParseStay(data).value;
              && reply.content.roomType == stay.room
              && reply.content.pricePerNight == PricePerNight(stay.room)
              && reply.content.nights == Nights(stay.checkIn, stay.checkOut)
              && reply.content.totalPrice == reply.content.nights * reply.content.pricePerNight
              && TotalPriceOf(reply.content) == Some(reply.content.totalPrice)
  {
    match ParseStay(data)
    case None => ReplyFrom(AgentId, request, now, Error, ErrorReply(AvailabilityFault, None, None))
    case Some(stay) =>
      if IsRoomAvailable(inventory, stay.room, stay.checkIn, stay.checkOut) then
        var q := QuoteFor(stay);
        ReplyFrom(AgentId, request, now, Response, RoomAvailable(stay.room, q.totalPrice, q.pricePerNight, q.nights))
      else
        ReplyFrom(AgentId, request, now, Response, RoomUnavailable)
  }

  /** `_calculate_price`: the same quote, with no look at the inventory. */
  function CalculatePrice(request: Message, data: Option<ReservationData>, now: Clock): (reply: Message)
    ensures reply.sender == AgentId && reply.receiver == request.sender && reply.replyTo == Some(request.messageId)
    ensures reply.content.PriceQuoted? <==> ParseStay(data).Some?
    ensures !reply.content.PriceQuoted? ==> reply.messageType == Error && StatusOf(reply.content) == Some(ErrorStatus)
    ensures reply.content.PriceQuoted? ==>
              var stay := ParseStay(data).value;
              && reply.content.pricePerNight == PricePerNight(stay.room)
              && reply.content.nights == Nights(stay.checkIn, stay.checkOut)
              && reply.content.totalPrice == reply.content.nights * reply.content.pricePerNight
  {
    match ParseStay(data)
    case None => ReplyFrom(AgentId, request, now, Error, ErrorReply(PricingFault, None, None))
    case Some(stay) =>
      var q := QuoteFor(stay);
      ReplyFrom(AgentId, request, now, Response, PriceQuoted(q.totalPrice, q.pricePerNight, q.nights))
  }

  /** Whenever a room is reported available, pricing the same request gives the same three numbers. */
  lemma PriceAgreesWithAvailability(inventory: Inventory, request: Message, data: Option<ReservationData>, now: Clock)
    ensures CheckAvailability(inventory, request, data, now).content.RoomAvailable? ==>
              var a := CheckAvailability(inventory, request, data, now).content;
              CalculatePrice(request, data, now).content == PriceQuoted(a.totalPrice, a.pricePerNight, a.nights)
  {
  }

  /** `AvailabilityAgent.process_message`: two actions on REQUEST messages, nothing otherwise. */
  function Process(inventory: Inventory, request: Message, now: Clock): (reply: Option<Message>)
    ensures reply.Some? <==> request.messageType == Request && (request.content.CheckAvailability? || request.content.CalculatePrice?)
    ensures reply.Some? ==> reply.value.sender == AgentId && reply.value.replyTo == Some(request.messageId)
  {
    if request.messageType != Request then None
    else match request.content
      case CheckAvailability(data) => Some(CheckAvailability(inventory, request, data, now))
      case CalculatePrice(data) => Some(CalculatePrice(request, data, now))
      case _ => None
  }

  /**
   * A reservation the receptionist dumped, sent for checking against the
   * seeded inventory, is always reported available and quoted its nights
   * times its room's nightly rate.
   */
  lemma SeededQuote(request: Message, r: Reservation, now: Clock)
    requires request.messageType == Request && request.content == Content.CheckAvailability(Some(Dump(r)))
    ensures Process(SeedInventory, request, now).Some?
    ensures Process(SeedInventory, request, now).value.content ==
              RoomAvailable(r.roomType, Nights(r.checkIn, r.checkOut) * PricePerNight(r.roomType),
                            PricePerNight(r.roomType), Nights(r.checkIn, r.checkOut))
  {
    DumpedReservationParses(r);
    SeededRoomsAvailable(r.roomType, r.checkIn, r.checkOut);
    assert Process(SeedInventory, request, now) == Some(CheckAvailability(SeedInventory, request, Some(Dump(r)), now));
  }
}

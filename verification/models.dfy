/**
 * The reservation data model: room categories, statuses, customers and
 * reservations, plus the dictionary view (`model_dump`) that travels inside
 * message payloads.
 */
module Models {
  import opened Wrappers
  import opened Text
  import opened Stamps

  /** Check-in and check-out instants, in whole seconds. */
  type Timestamp = int

  const SecondsPerDay: int := 86400

  datatype RoomType = Single | Double | Suite | Deluxe

  const AllRoomTypes: set<RoomType> := {Single, Double, Suite, Deluxe}

  /** The string value of each `RoomType` member. */
  function RoomTypeName(r: RoomType): string {
    match r
    case Single => "single"
    case Double => "double"
    case Suite => "suite"
    case Deluxe => "deluxe"
  }

  /** `RoomType(s)`: the member whose value is `s`, or nothing (a `ValueError`). */
  function ParseRoomType(s: string): (r: Option<RoomType>)
    ensures r.Some? ==> RoomTypeName(r.value) == s
    ensures r.None? ==> forall t: RoomType :: RoomTypeName(t) != s
  {
    if s == "single" then Some(Single)
    else if s == "double" then Some(Double)
    else if s == "suite" then Some(Suite)
    else if s == "deluxe" then Some(Deluxe)
    else None
  }

  lemma ParseRoomTypeName(r: RoomType)
    ensures ParseRoomType(RoomTypeName(r)) == Some(r)
  {
  }

  /** The enumerations are closed: four categories, four booking states, five payment states. */
  lemma EnumerationsClosed()
    ensures |AllRoomTypes| == 4 && forall r: RoomType :: r in AllRoomTypes
    ensures |AllBookingStatuses| == 4 && forall b: BookingStatus :: b in AllBookingStatuses
    ensures |AllPaymentStatuses| == 5 && forall p: PaymentStatus :: p in AllPaymentStatuses
  {
    forall r: RoomType ensures r in AllRoomTypes {
      match r
      case Single => case Double => case Suite => case Deluxe =>
    }
    forall b: BookingStatus ensures b in AllBookingStatuses {
      match b
      case Pending => case Confirmed => case Cancelled => case Completed =>
    }
    forall p: PaymentStatus ensures p in AllPaymentStatuses {
      match p
      case Pending => case Processing => case Completed => case Failed => case Refunded =>
    }
  }

  datatype BookingStatus = Pending | Confirmed | Cancelled | Completed

  const AllBookingStatuses: set<BookingStatus> := {BookingStatus.Pending, Confirmed, Cancelled, BookingStatus.Completed}

  datatype PaymentStatus = Pending | Processing | Completed | Failed | Refunded

  const AllPaymentStatuses: set<PaymentStatus> :=
    {PaymentStatus.Pending, Processing, PaymentStatus.Completed, Failed, Refunded}

  datatype Customer = Customer(name: string, email: string, phone: string, idNumber: Option<string>)

  /** A customer dictionary as a caller supplies it: any key may be missing. */
  datatype CustomerData = CustomerData(
    name: Option<string>, email: Option<string>, phone: Option<string>, idNumber: Option<string>)

  /**
   * Why a pydantic model refused its input. The source turns every one of
   * these into the same error reply, so only the kind is kept.
   */
  datatype Refusal =
    | MissingCustomer | MissingCustomerField | GuestsOutOfRange
    | MissingBooking | MissingRoomType | UnknownRoomType | MissingDate | MissingGuests

  /** `Customer(**data)`: name, email and phone are required, the id number is optional. */
  function ValidateCustomer(data: Option<CustomerData>): (r: Result<Customer, Refusal>)
    ensures r.Ok? <==> data.Some? && data.value.name.Some? && data.value.email.Some? && data.value.phone.Some?
    ensures r.Ok? ==> DumpCustomer(r.value) == data.value
  {
    match data
    case None => Err(MissingCustomer)
    case Some(d) =>
      if d.name.None? || d.email.None? || d.phone.None? then Err(MissingCustomerField)
      else Ok(Customer(d.name.value, d.email.value, d.phone.value, d.idNumber))
  }

  /** `customer.model_dump()`: every key present. */
  function DumpCustomer(c: Customer): CustomerData {
    CustomerData(Some(c.name), Some(c.email), Some(c.phone), c.idNumber)
  }

  /** Validating a dumped customer gives the customer back. */
  lemma ValidateDumpedCustomer(c: Customer)
    ensures ValidateCustomer(Some(DumpCustomer(c))) == Ok(c)
  {
  }

  const MinGuests: int := 1
  const MaxGuests: int := 10

  datatype Reservation = Reservation(
    reservationId: string,
    customer: Customer,
    roomType: RoomType,
    checkIn: Timestamp,
    checkOut: Timestamp,
    guests: int,
    totalPrice: Option<int>,
    bookingStatus: BookingStatus,
    paymentStatus: PaymentStatus,
    specialRequests: Option<string>,
    createdAt: Clock)
  {
    /** The field constraint on `number_of_guests`; nothing relates the two dates. */
    predicate Valid() {
      MinGuests <= guests <= MaxGuests
    }
  }

  /** The default reservation id: "RES" then the fourteen-digit creation stamp. */
  function DefaultReservationId(now: Clock): (id: string)
    ensures |id| == 17 && id[..3] == "RES" && id[3..] == DateTimeDigits(now)
  {
    "RES" + DateTimeDigits(now)
  }

  /** Two reservation ids stamped at different seconds differ. */
  lemma ReservationIdsDifferAcrossSeconds(a: Clock, b: Clock)
    requires DefaultReservationId(a) == DefaultReservationId(b)
    ensures a.year == b.year && a.month == b.month && a.day == b.day
    ensures a.hour == b.hour && a.minute == b.minute && a.second == b.second
  {
    var ia, ib := DefaultReservationId(a), DefaultReservationId(b);
    assert ia[3..] == ib[3..];
    DateTimeDigitsReadBack(a);
    DateTimeDigitsReadBack(b);
  }

  /** `Reservation(...)` with the defaults: fresh id, both statuses pending, no price. */
  function NewReservation(
    customer: Customer, roomType: RoomType, checkIn: Timestamp, checkOut: Timestamp,
    guests: int, specialRequests: Option<string>, now: Clock): (r: Result<Reservation, Refusal>)
    ensures r.Ok? <==> MinGuests <= guests <= MaxGuests
    ensures r.Ok? ==> r.value.Valid()
    ensures r.Ok? ==> r.value.bookingStatus == BookingStatus.Pending && r.value.paymentStatus == PaymentStatus.Pending
    ensures r.Ok? ==> r.value.totalPrice.None? && r.value.reservationId == DefaultReservationId(now)
    ensures r.Ok? ==> r.value.customer == customer && r.value.roomType == roomType && r.value.guests == guests
    ensures r.Ok? ==> r.value.checkIn == checkIn && r.value.checkOut == checkOut
    ensures r.Ok? ==> r.value.specialRequests == specialRequests
  {
    if guests < MinGuests || guests > MaxGuests then Err(GuestsOutOfRange)
    else Ok(Reservation(DefaultReservationId(now), customer, roomType, checkIn, checkOut, guests,
                        None, BookingStatus.Pending, PaymentStatus.Pending, specialRequests, now))
  }

  /** `(check_out - check_in).days`: whole days, rounded toward minus infinity. */
  function Nights(checkIn: Timestamp, checkOut: Timestamp): (n: int)
    ensures n * SecondsPerDay <= checkOut - checkIn < (n + 1) * SecondsPerDay
  {
    (checkOut - checkIn) / SecondsPerDay
  }

  /** The floor characterisation pins the night count down: any `k` with the same bounds is it. */
  lemma NightsUnique(checkIn: Timestamp, checkOut: Timestamp, k: int)
    requires k * SecondsPerDay <= checkOut - checkIn < (k + 1) * SecondsPerDay
    ensures Nights(checkIn, checkOut) == k
  {
  }

  /** A stay of exactly `d` days (forward or backward) is `d` nights. */
  lemma NightsOfWholeDays(checkIn: Timestamp, d: int)
    ensures Nights(checkIn, checkIn + d * SecondsPerDay) == d
  {
    NightsUnique(checkIn, checkIn + d * SecondsPerDay, d);
  }

  /** `Reservation.calculate_nights`: the whole days between the reservation's own dates. */
  function CalculateNights(r: Reservation): (n: int)
    ensures n * SecondsPerDay <= r.checkOut - r.checkIn < (n + 1) * SecondsPerDay
  {
    Nights(r.checkIn, r.checkOut)
  }

  /** A booking dictionary as a caller supplies it; a date that is missing or does not parse is `None`. */
  datatype BookingData = BookingData(
    roomType: Option<string>,
    checkIn: Option<Timestamp>,
    checkOut: Option<Timestamp>,
    guests: Option<int>,
    specialRequests: Option<string>)

  /** The `total_price` key of a reservation dictionary: absent, null, or an amount. */
  datatype PriceField = NoPriceKey | NullPrice | Price(amount: int)

  function PriceFieldOf(p: Option<int>): (f: PriceField)
    ensures f != NoPriceKey
    ensures f.Price? <==> p.Some?
    ensures f.Price? ==> f.amount == p.value
  {
    match p
    case Some(a) => Price(a)
    case None => NullPrice
  }

  /**
   * A reservation dictionary: what `model_dump` produces, or what a caller
   * writes by hand, in which case any key may be missing.
   */
  datatype ReservationData = ReservationData(
    reservationId: Option<string>,
    customer: Option<CustomerData>,
    roomType: Option<string>,
    checkIn: Option<Timestamp>,
    checkOut: Option<Timestamp>,
    guests: Option<int>,
    totalPrice: PriceField,
    bookingStatus: Option<BookingStatus>,
    paymentStatus: Option<PaymentStatus>,
    specialRequests: Option<string>,
    createdAt: Option<Clock>)

  /** `reservation.model_dump()`: every key present, the price null until it is set. */
  function Dump(r: Reservation): (d: ReservationData)
    ensures d.reservationId == Some(r.reservationId) && d.roomType == Some(RoomTypeName(r.roomType))
    ensures ValidateCustomer(d.customer) == Ok(r.customer)
    ensures d.checkIn == Some(r.checkIn) && d.checkOut == Some(r.checkOut) && d.guests == Some(r.guests)
    ensures d.totalPrice == PriceFieldOf(r.totalPrice)
    ensures d.bookingStatus == Some(r.bookingStatus) && d.paymentStatus == Some(r.paymentStatus)
    ensures d.specialRequests == r.specialRequests && d.createdAt == Some(r.createdAt)
  {
    ReservationData(
      Some(r.reservationId), Some(DumpCustomer(r.customer)), Some(RoomTypeName(r.roomType)),
      Some(r.checkIn), Some(r.checkOut), Some(r.guests), PriceFieldOf(r.totalPrice),
      Some(r.bookingStatus), Some(r.paymentStatus), r.specialRequests, Some(r.createdAt))
  }
}

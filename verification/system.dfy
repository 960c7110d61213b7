/**
 * `HotelReservationSystem`: the four agents and the coordinator wired
 * together, and the facade calls a client makes. Each call gets the clock
 * reading, the payment outcome and the transaction suffix it would have
 * drawn as an explicit `Env`.
 */
module HotelSystem {
  import opened Wrappers
  import opened Stamps
  import opened Models
  import opened Messages
  import Receptionist
  import Availability
  import Payment
  import Confirmation
  import opened Coordinator

  /** What one facade call reads from the outside world. */
  datatype Env = Env(now: Clock, approved: bool, suffix: Payment.Suffix)

  /** The agents of `__init__`, answering as `env` dictates; availability reads `inventory`. */
  function ConcreteAgents(inventory: Availability.Inventory, env: Env): Agents {
    Agents(
      (q: Message) => Receptionist.Process(q, env.now),
      (q: Message) => Availability.Process(inventory, q, env.now),
      (s: Payment.PaymentStore, q: Message) => Payment.Process(s, q, env.now, env.approved, env.suffix),
      (s: Confirmation.ConfirmationStore, q: Message) => Confirmation.Process(s, q, env.now))
  }

  /** A freshly built system: nothing paid, confirmed or recorded yet. */
  const Fresh: Stores := Stores(map[], map[], map[])

  const SystemId: string := "system"

  /** The `start_booking` request `create_booking` builds. */
  function BookingRequest(customer: CustomerData, booking: BookingData, paymentMethod: string): (m: Message)
    ensures m.sender == SystemId && m.receiver == Coordinator.AgentId && m.messageType == Request
    ensures m.content == StartBooking(Some(customer), Some(booking), Some(paymentMethod))
  {
    NewMessage(Literal("system-request-001"), SystemId, Coordinator.AgentId, Request,
               StartBooking(Some(customer), Some(booking), Some(paymentMethod)))
  }

  /**
   * With the real receptionist a `start_booking` workflow always ends in a
   * reply: the receptionist answers every `create_booking` request, and the
   * coordinator answers for itself from step 2 on.
   */
  lemma WorkflowAlwaysAnswers(stores: Stores, m: Message, env: Env)
    ensures StartBookingWorkflow(ConcreteAgents(Availability.SeedInventory, env), stores, m, env.now).reply.Some?
  {
    var agents := ConcreteAgents(Availability.SeedInventory, env);
    ReceptionFailureIsReturned(agents, stores, m, env.now);
    AnswersGoToRequester(agents, stores, m, env.now);
  }

  /** The workflow `create_booking` runs. */
  function Workflow(stores: Stores, customer: CustomerData, booking: BookingData, env: Env, paymentMethod: string): Run {
    StartBookingWorkflow(ConcreteAgents(Availability.SeedInventory, env), stores, BookingRequest(customer, booking, paymentMethod), env.now)
  }

  /**
   * `create_booking`: the request goes straight to the workflow, not through
   * the coordinator's dispatch, and the caller gets the reply's content.
   */
  function CreateBooking(
    stores: Stores, customer: CustomerData, booking: BookingData, env: Env,
    paymentMethod: string := Payment.DefaultMethod): (r: (Stores, Content))
  {
    var run := Workflow(stores, customer, booking, env, paymentMethod);
    WorkflowAlwaysAnswers(stores, BookingRequest(customer, booking, paymentMethod), env);
    (run.stores, run.reply.value.content)
  }

  /** The reservation the receptionist builds from the caller's dictionaries, if it accepts them. */
  function Built(customer: CustomerData, booking: BookingData, env: Env): Result<Reservation, Refusal> {
    Receptionist.BuildReservation(Some(customer), Some(booking), env.now)
  }

  /** Step 1 with the real receptionist: it accepts exactly the bookings it can build, and hands the reservation on. */
  lemma RealReception(stores: Stores, customer: CustomerData, booking: BookingData, env: Env, paymentMethod: string)
    ensures var r := Workflow(stores, customer, booking, env, paymentMethod);
      && (|r.calls| >= 2 <==> Built(customer, booking, env).Ok?)
      && (Built(customer, booking, env).Ok? ==> r.calls[0].reply.value.content == BookingCreated(Dump(Built(customer, booking, env).value)))
      && (Built(customer, booking, env).Err? ==>
            && r.stores == stores && r.reply.Some? && r.reply.value.messageType == Error
            && StatusOf(r.reply.value.content) == Some(ErrorStatus))
  {
    var m := BookingRequest(customer, booking, paymentMethod);
    ReceptionFailureIsReturned(ConcreteAgents(Availability.SeedInventory, env), stores, m, env.now);
    var q := StepRequest(m, 0, Content.CreateBooking(Some(customer), Some(booking)));
    assert Receptionist.Process(q, env.now) == Some(Receptionist.HandleBookingRequest(q, Some(customer), Some(booking), env.now));
  }

  /** The quote the availability agent gives for a reservation: its nights times its room's rate. */
  function QuotedTotal(res: Reservation): int {
    Nights(res.checkIn, res.checkOut) * Availability.PricePerNight(res.roomType)
  }

  /**
   * Step 2 with the real availability agent and the seeded inventory: a
   * reservation the receptionist built is always available, and is quoted
   * its nights times the nightly rate of its room, whatever the dates.
   */
  lemma RealRoomCheck(stores: Stores, customer: CustomerData, booking: BookingData, env: Env, paymentMethod: string)
    requires Built(customer, booking, env).Ok?
    ensures var r := Workflow(stores, customer, booking, env, paymentMethod);
      var res := Built(customer, booking, env).value;
      && |r.calls| >= 2 && r.calls[1].reply.Some?
      && r.calls[1].reply.value.content
           == RoomAvailable(res.roomType, QuotedTotal(res), Availability.PricePerNight(res.roomType), Nights(res.checkIn, res.checkOut))
  {
    var m := BookingRequest(customer, booking, paymentMethod);
    var agents := ConcreteAgents(Availability.SeedInventory, env);
    var res := Built(customer, booking, env).value;
    RealReception(stores, customer, booking, env, paymentMethod);
    UnavailableStopsBeforePayment(agents, stores, m, env.now);
    var q := StepRequest(m, 1, CheckAvailability(Some(Dump(res))));
    Availability.SeededQuote(q, res, env.now);
  }

  /** The charge of step 3 for a reservation the receptionist built. */
  function Charge(res: Reservation, paymentMethod: string): Content {
    ProcessPayment(res.reservationId, Some(QuotedTotal(res)), Some(paymentMethod))
  }

  /**
   * Step 3 with the real payment agent: the reservation built in step 1 is
   * charged its quoted total, under its own id, with the caller's payment
   * method.
   */
  lemma RealCharge(stores: Stores, customer: CustomerData, booking: BookingData, env: Env, paymentMethod: string)
    requires Built(customer, booking, env).Ok?
    ensures var r := Workflow(stores, customer, booking, env, paymentMethod);
      && |r.calls| >= 3
      && r.calls[2].request == StepRequest(BookingRequest(customer, booking, paymentMethod), 2,
                                           Charge(Built(customer, booking, env).value, paymentMethod))
  {
    var m := BookingRequest(customer, booking, paymentMethod);
    var res := Built(customer, booking, env).value;
    var r := Workflow(stores, customer, booking, env, paymentMethod);
    RealRoomCheck(stores, customer, booking, env, paymentMethod);
    RealReception(stores, customer, booking, env, paymentMethod);
    ChargeIsQuotedTotal(ConcreteAgents(Availability.SeedInventory, env), stores, m, env.now);
    assert ReservationOf(r.calls[0].reply.value.content) == Some(Dump(res));
    RoomAvailableReads(r.calls[1].reply.value.content);
  }

  /** The answer of an approved charge for a reservation the receptionist built. */
  function Receipt(res: Reservation, env: Env): Content {
    PaymentCompleted(Payment.TransactionId(res.reservationId, env.suffix), QuotedTotal(res))
  }

  /**
   * The charge's outcome: the workflow goes on to the confirmation exactly
   * when the charge is approved, and the payment store is what the charge
   * left.
   */
  lemma RealPayment(stores: Stores, customer: CustomerData, booking: BookingData, env: Env, paymentMethod: string)
    requires Built(customer, booking, env).Ok?
    ensures var r := Workflow(stores, customer, booking, env, paymentMethod);
      var res := Built(customer, booking, env).value;
      && |r.calls| >= 3 && r.calls[2].reply.Some?
      && (|r.calls| == 4 <==> env.approved)
      && (env.approved ==> r.calls[2].reply.value.content == Receipt(res, env))
      && r.stores.payments == Payment.ProcessPayment(
           stores.payments, r.calls[2].request, res.reservationId, Some(QuotedTotal(res)), Some(paymentMethod),
           env.now, env.approved, env.suffix).store
  {
    var m := BookingRequest(customer, booking, paymentMethod);
    var res := Built(customer, booking, env).value;
    RealCharge(stores, customer, booking, env, paymentMethod);
    PaymentFailureStops(ConcreteAgents(Availability.SeedInventory, env), stores, m, env.now);
    Payment.ChargeAnswered(stores.payments, StepRequest(m, 2, Charge(res, paymentMethod)), env.now, env.approved, env.suffix);
  }

  /** The reservation a completed workflow books: the receptionist's, priced, confirmed and paid. */
  function BookedData(res: Reservation): ReservationData {
    Booked(Dump(res).(totalPrice := Price(QuotedTotal(res))))
  }

  /** The reservation the workflow carries past step 2 is the receptionist's, with the quoted total filled in. */
  lemma RealPricing(stores: Stores, customer: CustomerData, booking: BookingData, env: Env, paymentMethod: string)
    requires Built(customer, booking, env).Ok?
    ensures var r := Workflow(stores, customer, booking, env, paymentMethod);
      && |r.calls| >= 2 && r.calls[0].reply.Some? && r.calls[1].reply.Some?
      && ReservationOf(r.calls[0].reply.value.content).Some?
      && Priced(r) == Dump(Built(customer, booking, env).value).(totalPrice := Price(QuotedTotal(Built(customer, booking, env).value)))
  {
    RealReception(stores, customer, booking, env, paymentMethod);
    RealRoomCheck(stores, customer, booking, env, paymentMethod);
  }

  /**
   * Step 4 after an approved charge: the confirmation agent is sent the
   * booked reservation with the payment's answer, and the workflow is
   * recorded as completed under the reservation's id.
   */
  lemma RealBooking(stores: Stores, customer: CustomerData, booking: BookingData, env: Env, paymentMethod: string)
    requires Built(customer, booking, env).Ok? && env.approved
    ensures var r := Workflow(stores, customer, booking, env, paymentMethod);
      var res := Built(customer, booking, env).value;
      && |r.calls| == 4
      && r.calls[3].request == StepRequest(BookingRequest(customer, booking, paymentMethod), 3,
                                           SendConfirmation(Some(BookedData(res)), Some(Receipt(res, env))))
      && r.stores.workflows == stores.workflows[res.reservationId := WorkflowEntry(BookedData(res), CompletedWorkflow)]
  {
    RealPricing(stores, customer, booking, env, paymentMethod);
    RealPayment(stores, customer, booking, env, paymentMethod);
    BookingCompletes(ConcreteAgents(Availability.SeedInventory, env), stores, BookingRequest(customer, booking, paymentMethod), env.now);
  }

  /**
   * Step 4 with the real confirmation agent: the booking is always
   * confirmed, and the log gains an entry under the reservation's id that
   * keeps the customer's email, the quoted total and the transaction id.
   */
  lemma RealConfirmation(stores: Stores, customer: CustomerData, booking: BookingData, env: Env, paymentMethod: string)
    requires Built(customer, booking, env).Ok? && env.approved
    ensures var r := Workflow(stores, customer, booking, env, paymentMethod);
      var res := Built(customer, booking, env).value;
      && |r.calls| == 4 && r.calls[3].reply.Some? && r.calls[3].reply.value.content.ConfirmationSent?
      && res.reservationId in r.stores.confirmations
      && r.stores.confirmations[res.reservationId].customerEmail == res.customer.email
      && r.stores.confirmations[res.reservationId].confirmationMessage.total == QuotedTotal(res)
      && r.stores.confirmations[res.reservationId].confirmationMessage.transactionId
           == Payment.TransactionId(res.reservationId, env.suffix)
      && r.stores.confirmations.Keys == stores.confirmations.Keys + {res.reservationId}
  {
    var m := BookingRequest(customer, booking, paymentMethod);
    var res := Built(customer, booking, env).value;
    RealBooking(stores, customer, booking, env, paymentMethod);
    BookingCompletes(ConcreteAgents(Availability.SeedInventory, env), stores, m, env.now);
    var q := StepRequest(m, 3, SendConfirmation(Some(BookedData(res)), Some(Receipt(res, env))));
    Confirmation.ConfirmationAnswered(stores.confirmations, q, env.now);
    Confirmation.DumpedReservationConfirms(
      stores.confirmations, q, res, QuotedTotal(res), Some(BookingStatus.Confirmed), Some(PaymentStatus.Completed),
      Payment.TransactionId(res.reservationId, env.suffix), QuotedTotal(res), env.now);
  }

  /** After an approved charge the coordinator answers with the booked reservation and the payment's answer. */
  lemma RealSuccessAnswer(stores: Stores, customer: CustomerData, booking: BookingData, env: Env, paymentMethod: string)
    requires Built(customer, booking, env).Ok? && env.approved
    ensures var r := Workflow(stores, customer, booking, env, paymentMethod);
      var res := Built(customer, booking, env).value;
      && |r.calls| == 4 && r.calls[3].reply.Some?
      && r.reply == Some(Answer(BookingRequest(customer, booking, paymentMethod), env.now, Response,
                                BookingSucceeded(BookedData(res), Receipt(res, env), r.calls[3].reply.value.content)))
  {
    var r := Workflow(stores, customer, booking, env, paymentMethod);
    RealPricing(stores, customer, booking, env, paymentMethod);
    RealPayment(stores, customer, booking, env, paymentMethod);
    RealConfirmation(stores, customer, booking, env, paymentMethod);
    BookingCompletes(ConcreteAgents(Availability.SeedInventory, env), stores, BookingRequest(customer, booking, paymentMethod), env.now);
    assert Booked(Priced(r)) == BookedData(Built(customer, booking, env).value);
  }

  /**
   * `create_booking` with an acceptable booking and an approved charge
   * succeeds: the caller gets the booked reservation, the payment's answer
   * and the confirmation's answer.
   */
  lemma BookingSucceeds(stores: Stores, customer: CustomerData, booking: BookingData, env: Env, paymentMethod: string)
    requires Built(customer, booking, env).Ok? && env.approved
    ensures var c := CreateBooking(stores, customer, booking, env, paymentMethod).1;
      var res := Built(customer, booking, env).value;
      && c.BookingSucceeded?
      && c.booked == BookedData(res) && c.paymentReply == Receipt(res, env) && c.confirmationReply.ConfirmationSent?
  {
    RealSuccessAnswer(stores, customer, booking, env, paymentMethod);
    RealConfirmation(stores, customer, booking, env, paymentMethod);
  }

  /**
   * What a successful `create_booking` records: the workflow as completed,
   * the charge as a completed payment of the quoted total with the caller's
   * method, and the confirmation with the customer's email, all under the
   * reservation's id.
   */
  lemma BookingRecorded(stores: Stores, customer: CustomerData, booking: BookingData, env: Env, paymentMethod: string)
    requires Built(customer, booking, env).Ok? && env.approved
    ensures var after := CreateBooking(stores, customer, booking, env, paymentMethod).0;
      var res := Built(customer, booking, env).value;
      && after.workflows == stores.workflows[res.reservationId := WorkflowEntry(BookedData(res), CompletedWorkflow)]
      && after.payments == stores.payments[res.reservationId := Payment.PaymentRecord(
           Payment.TransactionId(res.reservationId, env.suffix), Some(QuotedTotal(res)), PaymentStatus.Completed, paymentMethod)]
      && after.confirmations.Keys == stores.confirmations.Keys + {res.reservationId}
      && after.confirmations[res.reservationId].customerEmail == res.customer.email
  {
    RealBooking(stores, customer, booking, env, paymentMethod);
    RealPayment(stores, customer, booking, env, paymentMethod);
    RealConfirmation(stores, customer, booking, env, paymentMethod);
  }

  /** A declined charge fails the booking with `payment_failed` and leaves every store as it was. */
  lemma BookingDeclined(stores: Stores, customer: CustomerData, booking: BookingData, env: Env, paymentMethod: string)
    requires Built(customer, booking, env).Ok? && !env.approved
    ensures CreateBooking(stores, customer, booking, env, paymentMethod) == (stores, BookingPaymentFailed)
  {
    RealPayment(stores, customer, booking, env, paymentMethod);
    PaymentFailureStops(ConcreteAgents(Availability.SeedInventory, env), stores, BookingRequest(customer, booking, paymentMethod), env.now);
  }

  /** A booking the receptionist refuses comes back as an error, and nothing is stored. */
  lemma BookingRejected(stores: Stores, customer: CustomerData, booking: BookingData, env: Env, paymentMethod: string)
    requires Built(customer, booking, env).Err?
    ensures var r := CreateBooking(stores, customer, booking, env, paymentMethod);
      r.0 == stores && StatusOf(r.1) == Some(ErrorStatus)
  {
    RealReception(stores, customer, booking, env, paymentMethod);
  }

  /**
   * What the stores promise together: every recorded workflow is the booked
   * reservation under its own id, with a completed payment and a sent
   * confirmation under the same id.
   */
  predicate Consistent(s: Stores) {
    forall id | id in s.workflows ::
      && s.workflows[id].reservation.reservationId == Some(id)
      && s.workflows[id].reservation.bookingStatus == Some(BookingStatus.Confirmed)
      && id in s.payments && s.payments[id].status == PaymentStatus.Completed
      && id in s.confirmations
  }

  lemma FreshIsConsistent()
    ensures Consistent(Fresh)
  {
  }

  /** Recording one booked reservation, its completed payment and its confirmation keeps the stores consistent. */
  lemma ConsistentAfterBooking(s: Stores, after: Stores, id: string, entry: WorkflowEntry, record: Payment.PaymentRecord)
    requires Consistent(s)
    requires entry.reservation.reservationId == Some(id) && entry.reservation.bookingStatus == Some(BookingStatus.Confirmed)
    requires record.status == PaymentStatus.Completed
    requires after.workflows == s.workflows[id := entry] && after.payments == s.payments[id := record]
    requires after.confirmations.Keys == s.confirmations.Keys + {id}
    ensures Consistent(after)
  {
    forall k | k in after.workflows
      ensures k in after.payments && after.payments[k].status == PaymentStatus.Completed && k in after.confirmations
    {
      if k != id {
        assert k in s.workflows;
      }
    }
  }

  /**
   * `create_booking` keeps the stores consistent and never forgets a
   * recorded workflow, whatever the booking, the payment outcome or the
   * clock.
   */
  lemma CreateBookingKeepsConsistent(stores: Stores, customer: CustomerData, booking: BookingData, env: Env, paymentMethod: string)
    requires Consistent(stores)
    ensures var after := CreateBooking(stores, customer, booking, env, paymentMethod).0;
      Consistent(after) && stores.workflows.Keys <= after.workflows.Keys
  {
    var after := CreateBooking(stores, customer, booking, env, paymentMethod).0;
    if Built(customer, booking, env).Err? {
      BookingRejected(stores, customer, booking, env, paymentMethod);
    } else if !env.approved {
      BookingDeclined(stores, customer, booking, env, paymentMethod);
    } else {
      var res := Built(customer, booking, env).value;
      BookingRecorded(stores, customer, booking, env, paymentMethod);
      ConsistentAfterBooking(stores, after, res.reservationId, WorkflowEntry(BookedData(res), CompletedWorkflow),
        Payment.PaymentRecord(Payment.TransactionId(res.reservationId, env.suffix), Some(QuotedTotal(res)),
                              PaymentStatus.Completed, paymentMethod));
    }
  }

  /** One `create_booking` call as a client makes it. */
  datatype Order = Order(customer: CustomerData, booking: BookingData, env: Env, paymentMethod: string)

  /** The stores after the orders are placed one after another. */
  function PlaceAll(stores: Stores, orders: seq<Order>): Stores
    decreases |orders|
  {
    if orders == [] then stores
    else
      var o := orders[0];
      PlaceAll(CreateBooking(stores, o.customer, o.booking, o.env, o.paymentMethod).0, orders[1..])
  }

  /** However many bookings are placed, the stores stay consistent and keep every recorded workflow. */
  lemma {:induction false} PlaceAllKeepsConsistent(stores: Stores, orders: seq<Order>)
    requires Consistent(stores)
    ensures Consistent(PlaceAll(stores, orders)) && stores.workflows.Keys <= PlaceAll(stores, orders).workflows.Keys
    decreases |orders|
  {
    if orders != [] {
      var o := orders[0];
      var next := CreateBooking(stores, o.customer, o.booking, o.env, o.paymentMethod).0;
      CreateBookingKeepsConsistent(stores, o.customer, o.booking, o.env, o.paymentMethod);
      PlaceAllKeepsConsistent(next, orders[1..]);
    }
  }

  /**
   * `check_availability`: room type, dates and guest count go to the
   * availability agent as a bare reservation, and the caller gets its reply's
   * content. With the seeded inventory a readable request is always
   * available, and quoted its nights times the nightly rate; an unreadable
   * one is an error.
   */
  function CheckRoom(roomType: string, checkIn: Option<Timestamp>, checkOut: Option<Timestamp>, guests: int, now: Clock): (c: Content)
    ensures c.RoomAvailable? <==> ParseRoomType(roomType).Some? && checkIn.Some? && checkOut.Some?
    ensures c.RoomAvailable? ==>
              && c.roomType == ParseRoomType(roomType).value
              && c.pricePerNight == Availability.PricePerNight(c.roomType)
              && c.nights == Nights(checkIn.value, checkOut.value)
              && c.totalPrice == c.nights * c.pricePerNight
    ensures !c.RoomAvailable? ==> StatusOf(c) == Some(ErrorStatus)
  {
    var data := ReservationData(None, None, Some(roomType), checkIn, checkOut, Some(guests), NoPriceKey, None, None, None, None);
    var q := NewMessage(Literal("system-avail-001"), SystemId, Availability.AgentId, Request, Content.CheckAvailability(Some(data)));
    Availability.Process(Availability.SeedInventory, q, now).value.content
  }

  /** What `get_booking_status` answers. */
  datatype StatusReport = BookingFound(booking: WorkflowEntry) | NotFound

  /** `get_booking_status`: the coordinator's record of the reservation, or `not_found`. */
  function BookingLookup(stores: Stores, reservationId: string): (r: StatusReport)
    ensures r.BookingFound? <==> reservationId in stores.workflows
    ensures r.BookingFound? ==> r.booking == stores.workflows[reservationId]
  {
    match Coordinator.GetBookingStatus(stores.workflows, reservationId)
    case Some(entry) => BookingFound(entry)
    case None => NotFound
  }

  /** After a successful `create_booking`, looking the reservation up finds it booked and completed. */
  lemma BookedIsFound(stores: Stores, customer: CustomerData, booking: BookingData, env: Env, paymentMethod: string)
    requires Built(customer, booking, env).Ok? && env.approved
    ensures var res := Built(customer, booking, env).value;
      BookingLookup(CreateBooking(stores, customer, booking, env, paymentMethod).0, res.reservationId)
        == BookingFound(WorkflowEntry(BookedData(res), CompletedWorkflow))
  {
    BookingRecorded(stores, customer, booking, env, paymentMethod);
  }

  /**
   * In consistent stores, a reservation the lookup finds is confirmed, was
   * paid and had its confirmation sent.
   */
  lemma FoundIsPaidAndConfirmed(stores: Stores, reservationId: string)
    requires Consistent(stores)
    ensures BookingLookup(stores, reservationId).BookingFound? ==>
      && BookingLookup(stores, reservationId).booking.reservation.bookingStatus == Some(BookingStatus.Confirmed)
      && reservationId in stores.payments && stores.payments[reservationId].status == PaymentStatus.Completed
      && reservationId in stores.confirmations
  {
  }

  /** One entry of `get_room_info`. */
  datatype RoomInfo = RoomInfo(name: string, pricePerNight: int, capacity: int, amenities: seq<string>)

  function RoomInfoOf(room: RoomType): RoomInfo {
    match room
    case Single => RoomInfo("Single Room", Availability.PricePerNight(Single), 1,
                            ["WiFi", "TV", "Air Conditioning", "Breakfast"])
    case Double => RoomInfo("Double Room", Availability.PricePerNight(Double), 2,
                            ["WiFi", "TV", "Air Conditioning", "Breakfast", "Mini Bar"])
    case Suite => RoomInfo("Suite", Availability.PricePerNight(Suite), 4,
                           ["WiFi", "TV", "Air Conditioning", "Breakfast", "Mini Bar", "Living Area"])
    case Deluxe => RoomInfo("Deluxe Room", Availability.PricePerNight(Deluxe), 4,
                            ["WiFi", "TV", "Air Conditioning", "Breakfast", "Mini Bar", "Living Area", "Jacuzzi"])
  }

  /** The answer of `get_room_info`: the table sits under the `"room_types"` key. */
  datatype RoomCatalogue = RoomCatalogue(roomTypes: map<string, RoomInfo>)

  /**
   * `get_room_info`: one entry per room category, under the category's
   * value, with its display name, the rate the availability agent charges,
   * and capacities 1, 2, 4 and 4.
   */
  function GetRoomInfo(): (info: RoomCatalogue)
    ensures forall key :: key in info.roomTypes <==> ParseRoomType(key).Some?
    ensures forall room: RoomType :: RoomTypeName(room) in info.roomTypes && info.roomTypes[RoomTypeName(room)].pricePerNight == Availability.PricePerNight(room)
    ensures info.roomTypes[RoomTypeName(Single)].name == "Single Room" && info.roomTypes[RoomTypeName(Double)].name == "Double Room"
    ensures info.roomTypes[RoomTypeName(Suite)].name == "Suite" && info.roomTypes[RoomTypeName(Deluxe)].name == "Deluxe Room"
    ensures info.roomTypes[RoomTypeName(Single)].capacity == 1 && info.roomTypes[RoomTypeName(Double)].capacity == 2
    ensures info.roomTypes[RoomTypeName(Suite)].capacity == 4 && info.roomTypes[RoomTypeName(Deluxe)].capacity == 4
  {
    RoomCatalogue(
      map[RoomTypeName(Single) := RoomInfoOf(Single), RoomTypeName(Double) := RoomInfoOf(Double),
          RoomTypeName(Suite) := RoomInfoOf(Suite), RoomTypeName(Deluxe) := RoomInfoOf(Deluxe)])
  }

  /**
   * Every category sleeps a number of guests a reservation may have, and
   * each dearer category offers everything the one below it does, plus one
   * amenity.
   */
  lemma RoomInfoIsGraded(room: RoomType)
    ensures MinGuests <= RoomInfoOf(room).capacity <= MaxGuests
    ensures |RoomInfoOf(Single).amenities| == 4
    ensures RoomInfoOf(Single).amenities < RoomInfoOf(Double).amenities
    ensures RoomInfoOf(Double).amenities < RoomInfoOf(Suite).amenities
    ensures RoomInfoOf(Suite).amenities < RoomInfoOf(Deluxe).amenities
    ensures |RoomInfoOf(Deluxe).amenities| == 7
    ensures Availability.PricePerNight(Single) < Availability.PricePerNight(Double) < Availability.PricePerNight(Suite) < Availability.PricePerNight(Deluxe)
  {
  }
}

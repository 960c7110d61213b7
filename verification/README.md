# Hotel reservation agents, modelled in Dafny

This project models the booking pipeline of the multi-agent hotel reservation
system. A `HotelReservationSystem` owns five in-process agents:

- a **receptionist** turns a customer and booking dictionary into a pending
  reservation and answers inquiries from a fixed table;
- an **availability** agent quotes a stay from a fixed nightly rate table and a
  static inventory;
- a **payment** agent simulates a charge, keeps `processed_payments` and refunds;
- a **confirmation** agent renders the confirmation email, logs it in
  `sent_confirmations` and acknowledges cancellations;
- the **coordinator** runs the four-step booking workflow (receptionist,
  availability, payment, confirmation), stops at the first failure, and records
  completed bookings in `active_workflows`.

Every agent is a pure function from a request message (and the store it owns) to
an optional reply (and its new store). Message payloads are the closed datatype
`Messages.Content`, one variant per request `action` and per reply shape; the
accessors `StatusOf`, `AvailableOf`, `TotalPriceOf`, `PaymentStatusOf`, … play
the part of `content.get(key)`. A missing dictionary key is `None`. Dates are
integer seconds, so `(check_out - check_in).days` is a floor division by 86400.
Money is an integer, since every rate is a whole number of dollars.

The coordinator (`coordinator.dfy`) is written against *any* agents. Its
`Agents` record holds each agent's `process_message` as a function value, so the
ordering and short-circuit facts hold whatever the agents answer, missing
answers included. `HotelSystem` (`system.dfy`) wires in the real agents and
proves what `create_booking`, `check_availability`, `get_booking_status` and
`get_room_info` give a client.

The outside world is a parameter. `Env` carries three things: the clock
reading (`Stamps.Clock`), whether the simulated charge is approved (the source's
`random.random() < 0.9`), and the four-digit transaction suffix (its
`random.randint(1000, 9999)`).

Modules: `Wrappers` (Option, Result), `Text` (decimal spelling), `Stamps`
(`strftime` digit stamps), `Models`, `Messages`, `Availability`, `Receptionist`,
`Payment`, `Confirmation`, `Coordinator`, `HotelSystem`.

Four behaviours of the code are easy to miss; the model follows the code:

- Nothing checks that check-out is after check-in. A stay may be 0 or a
  negative number of nights, and is priced accordingly (`Availability.QuoteOfWholeDays`).
- Only the receptionist's failure is handed back unchanged. Every later stop is
  the coordinator's own `unavailable`, `payment_failed` or `error` reply. An
  availability *error* is also reported as `unavailable`
  (`Coordinator.AvailabilityErrorReadsUnavailable`).
- Reservation ids are `"RES"` plus a stamp to the second, so they are not
  unique within a run. The model proves only the converse: equal ids come from
  the same second (`Models.ReservationIdsDifferAcrossSeconds`).
- Nights are rounded down. The policies answer announces check-in at 3 PM and
  check-out at 11 AM. A stay between those hours that spans `d` calendar days is
  therefore billed `d - 1` nights (`Receptionist.PolicyHoursBillOneNightFewer`).

The tables `Messages.StatusName`, `Messages.FaultText` and `Receptionist.AnswerText`
give the wording of the `status` values, the error-message prefixes and the canned
inquiry answers.

## Model

| member | source | states |
|---|---|---|
| `Text.ReadShowNat` | hotel_reservation_system/agents/payment_agent.py:40 | reading back the decimal spelling `str(n)` gives `n` again |
| `Text.ShowNatInjective` | hotel_reservation_system/agents/payment_agent.py:40 | two different numbers never have the same decimal spelling |
| `Text.ReadFixedDigits` | hotel_reservation_system/models/reservation.py:44 | a value that fits in `width` digits reads back from its zero-padded `strftime` field |
| `Text.FixedDigitsOfFullWidth` | hotel_reservation_system/agents/payment_agent.py:40 | a number with exactly `width` digits is padded with nothing, so its field equals `str(n)` |
| `Text.ConcatContains` | hotel_reservation_system/agents/confirmation_agent.py:110-130 | every piece of a template occurs in the joined text |
| `Stamps.DateTimeDigitsReadBack` | hotel_reservation_system/models/reservation.py:44 | the `%Y%m%d%H%M%S` stamp is 14 digits; year, month, day, hour, minute and second each read back from their own position |
| `Stamps.MicroStampReadBack` | hotel_reservation_system/agents/base_agent.py:40 | the `%f` suffix of a message stamp is 6 digits that read back as the microsecond |
| `Models.ParseRoomType` | hotel_reservation_system/models/reservation.py:9-14 | `RoomType(s)` succeeds exactly for the four member values and returns the member with that value |
| `Models.ParseRoomTypeName` | hotel_reservation_system/models/reservation.py:9-14 | parsing a member's value gives the member back |
| `Models.EnumerationsClosed` | hotel_reservation_system/models/reservation.py:9-31 | there are exactly 4 room types, 4 booking statuses and 5 payment statuses |
| `Models.ValidateCustomer` | hotel_reservation_system/models/reservation.py:34-39 | a customer is accepted iff name, email and phone are present; the customer it builds dumps back to the input |
| `Models.ValidateDumpedCustomer` | hotel_reservation_system/models/reservation.py:34-39 | validating a dumped customer gives the same customer |
| `Models.DefaultReservationId` | hotel_reservation_system/models/reservation.py:44 | the default id is 17 characters: `RES` then the 14-digit creation stamp |
| `Models.ReservationIdsDifferAcrossSeconds` | hotel_reservation_system/models/reservation.py:44 | equal default ids were stamped in the same second, down to every field |
| `Models.NewReservation` | hotel_reservation_system/models/reservation.py:42-54 | accepted iff 1 <= guests <= 10; the result has both statuses pending, no price, the default id and every given field |
| `Models.Nights` | hotel_reservation_system/models/reservation.py:56-58 | `n` is the floor of the stay in days: `n` days fit in it and `n + 1` days do not |
| `Models.NightsUnique` | hotel_reservation_system/models/reservation.py:56-58 | any `k` whose whole days fit the stay the same way is the night count |
| `Models.NightsOfWholeDays` | hotel_reservation_system/models/reservation.py:56-58 | a stay of exactly `d` days, forward or backward, is `d` nights |
| `Models.CalculateNights` | hotel_reservation_system/models/reservation.py:56-58 | a reservation's night count is the floor of its own stay in days |
| `Models.PriceFieldOf` | hotel_reservation_system/models/reservation.py:50 | `total_price` is always dumped, as the amount when set and as null otherwise |
| `Models.Dump` | hotel_reservation_system/agents/receptionist_agent.py:51 | `model_dump` keeps the id, room value, dates, guests, statuses, price, special requests and creation time; its customer validates back to the reservation's customer |
| `Messages.MessageTypesClosed` | hotel_reservation_system/agents/base_agent.py:9-14 | there are exactly four message types |
| `Messages.StatusNamesDistinct` | hotel_reservation_system/agents/coordinator_agent.py:47 | two `status` values have the same wording exactly when they are the same status |
| `Messages.FaultTextsDistinct` | hotel_reservation_system/agents/payment_agent.py:79-124 | two faults have the same message prefix exactly when they are the same fault |
| `Messages.ErrorRepliesAreNotAvailable` | hotel_reservation_system/agents/coordinator_agent.py:65 | an error reply has no `available: True`, so the coordinator's `get("available", False)` is false for it |
| `Messages.CompletedPaymentStatus` | hotel_reservation_system/agents/coordinator_agent.py:95 | a reply reports `payment_status == "completed"` exactly when it is a completed charge, or an error reply that carries that status |
| `Messages.StampedIdText` | hotel_reservation_system/agents/base_agent.py:40 | a generated id is the agent id, a dash and 20 digits |
| `Messages.StampedIdsOfDistinctAgentsDiffer` | hotel_reservation_system/agents/base_agent.py:40 | two different agents whose ids hold no dash never generate the same id at one instant |
| `Messages.NewMessage` | hotel_reservation_system/agents/base_agent.py:17-25 | the envelope holds exactly the fields it is given |
| `Messages.ReplyToDefaultsToNone` | hotel_reservation_system/agents/base_agent.py:25 | `reply_to` left out is none |
| `Messages.SendMessage` | hotel_reservation_system/agents/base_agent.py:36-47 | the sender is the agent itself; the id is stamped with its name and the clock; receiver, type, content and `reply_to` are copied unchanged |
| `Messages.SentIdBeginsWithSender` | hotel_reservation_system/agents/base_agent.py:40 | every generated id text begins with the sender's id and a dash |
| `Messages.ReplyFrom` | hotel_reservation_system/agents/availability_agent.py:61-73 | an agent's answer goes from that agent back to the request's sender, in reply to the request's id, with the given type and content |
| `Messages.RoomAvailableReads` | hotel_reservation_system/agents/coordinator_agent.py:65-77 | an available answer reads as `available: True` and carries its total under `total_price` |
| `Messages.ReceiveMessage` | hotel_reservation_system/agents/base_agent.py:49-51 | the queue grows by exactly the one message, at its end, and earlier entries are unchanged |
| `Availability.PricePerNight` | hotel_reservation_system/agents/availability_agent.py:13-18 | every nightly rate is positive |
| `Availability.AvailabilityIgnoresDates` | hotel_reservation_system/agents/availability_agent.py:133-137 | availability is the same for any two pairs of dates, and holds iff the category has inventory above zero |
| `Availability.SeededRoomsAvailable` | hotel_reservation_system/agents/availability_agent.py:21-26 | with the seeded inventory every category is available for any dates |
| `Availability.ParseStay` | hotel_reservation_system/agents/availability_agent.py:47-50 | the reservation is readable iff it is present with a known room value and both dates; the stay it reads is those fields |
| `Availability.DumpedReservationParses` | hotel_reservation_system/agents/availability_agent.py:47-50 | a reservation the receptionist dumped always reads back as its own room and dates |
| `Availability.QuoteOfWholeDays` | hotel_reservation_system/agents/availability_agent.py:57-59 | a stay of `d` whole days is quoted `d` nights at `d` times the rate, whatever the sign of `d` |
| `Availability.CheckAvailability` | hotel_reservation_system/agents/availability_agent.py:44-96 | status success iff readable; otherwise an ERROR with no `available` key; `available: True` iff readable and in stock, with room, rate, nights and total = nights × rate; `available: False` carries no price; a readable request is answered with a RESPONSE either way |
| `Availability.CalculatePrice` | hotel_reservation_system/agents/availability_agent.py:98-131 | a quote iff readable, with rate, nights and total = nights × rate; otherwise an ERROR; inventory is not consulted |
| `Availability.PriceAgreesWithAvailability` | hotel_reservation_system/agents/availability_agent.py:98-120 | whenever the room is reported available, pricing the same reservation gives the same total, rate and nights |
| `Availability.Process` | hotel_reservation_system/agents/availability_agent.py:32-42 | a reply exists iff the message is a REQUEST for one of the two actions, and it answers that request |
| `Availability.SeededQuote` | hotel_reservation_system/agents/availability_agent.py:44-74 | a dumped reservation checked against the seeded inventory is available at nights × its room's rate |
| `Receptionist.BuildReservation` | hotel_reservation_system/agents/receptionist_agent.py:27-44 | built iff the customer validates and the booking has a known room value, both dates and 1..10 guests; the result is pending and unpriced and copies every booking field |
| `Receptionist.HandleBookingRequest` | hotel_reservation_system/agents/receptionist_agent.py:27-66 | success iff the reservation builds; success goes to `coordinator` whatever the sender and carries the dumped reservation; failure is an ERROR back to the sender |
| `Receptionist.BookingReplyIsPending` | hotel_reservation_system/agents/receptionist_agent.py:37-55 | a successful reply carries a pending, unpriced reservation with the requested room, dates, guests, special requests and customer |
| `Receptionist.PolicyHoursBillOneNightFewer` | hotel_reservation_system/agents/receptionist_agent.py:75 | the policies answer opens with the 3 PM / 11 AM hours; a stay between them spanning `d` days is `d - 1` nights |
| `Receptionist.AnswerFor` | hotel_reservation_system/agents/receptionist_agent.py:72-84 | each of the three known topics gets its canned answer; the fallback is given exactly for every other inquiry type |
| `Receptionist.HandleInquiry` | hotel_reservation_system/agents/receptionist_agent.py:68-87 | always a success reply to the sender that echoes the inquiry type with its answer |
| `Receptionist.Process` | hotel_reservation_system/agents/receptionist_agent.py:15-25 | a reply exists iff the message is a REQUEST for `create_booking` or `inquiry` |
| `Payment.TransactionId` | hotel_reservation_system/agents/payment_agent.py:40 | `TXN`, the reservation id, then four digits that read back as the suffix |
| `Payment.ProcessPayment` | hotel_reservation_system/agents/payment_agent.py:28-82 | approved: the store gains a completed record (amount, method defaulting to `credit_card`) and the reply is the receipt, or an ERROR saying `failed` when there is no amount; declined: `failed`, store unchanged |
| `Payment.ChargeStatus` | hotel_reservation_system/agents/payment_agent.py:48-82 | `payment_status` is completed iff approved with an amount, otherwise failed; only a completed charge has a transaction id; the status is success, failed or error accordingly |
| `Payment.RefundPayment` | hotel_reservation_system/agents/payment_agent.py:84-127 | unknown id: ERROR "no payment found", store unchanged; known id: only that record's status becomes refunded, and the reply reports the stored amount; a record with no amount is still flipped but answered with the refund-processing ERROR |
| `Payment.RefundAfterCharge` | hotel_reservation_system/agents/payment_agent.py:84-106 | a charge that went through can be refunded, for the charged amount, keeping its transaction id |
| `Payment.RefundTwice` | hotel_reservation_system/agents/payment_agent.py:89-106 | refunding twice succeeds twice with the same amount and leaves the same store |
| `Payment.DeclinedChargeLeavesNothingToRefund` | hotel_reservation_system/agents/payment_agent.py:107-116 | after a declined charge, a refund for that id finds no payment |
| `Payment.Process` | hotel_reservation_system/agents/payment_agent.py:16-26 | a reply exists iff the message is a REQUEST to charge or refund; with no reply the store is unchanged |
| `Payment.ChargeAnswered` | hotel_reservation_system/agents/payment_agent.py:18-22 | a charge request is answered by `_process_payment`, which reports completed exactly when approved with an amount |
| `Confirmation.NoticeOf` | hotel_reservation_system/agents/confirmation_agent.py:110-130 | the email can be filled in iff every indexed key is present and the price is not null; a missing price shows 0, a missing transaction id shows N/A |
| `Confirmation.RenderGreets` | hotel_reservation_system/agents/confirmation_agent.py:112-113 | the rendered email greets the customer by name |
| `Confirmation.RenderShowsDetail` | hotel_reservation_system/agents/confirmation_agent.py:117-124 | the rendered email holds each of the seven labelled detail lines |
| `Confirmation.RenderDefaults` | hotel_reservation_system/agents/confirmation_agent.py:123-124 | with no `total_price` key the total reads 0.00, and with no transaction id it reads N/A |
| `Confirmation.SendConfirmation` | hotel_reservation_system/agents/confirmation_agent.py:27-68 | success iff the email can be filled in and an email address is present; then the log entry for the id is stored or overwritten; otherwise an ERROR saying not sent, log unchanged |
| `Confirmation.SentConfirmationIsLogged` | hotel_reservation_system/agents/confirmation_agent.py:39-56 | a sent confirmation is logged under the reservation id with the very message the reply carries; other entries are unchanged |
| `Confirmation.DumpedReservationConfirms` | hotel_reservation_system/agents/confirmation_agent.py:27-56 | a dumped, priced reservation with a completed payment always confirms; the log gains its id, with its email, total and transaction id |
| `Confirmation.SendCancellation` | hotel_reservation_system/agents/confirmation_agent.py:70-108 | a cancellation is always acknowledged with success |
| `Confirmation.Process` | hotel_reservation_system/agents/confirmation_agent.py:15-25 | a reply exists iff the message is a REQUEST to confirm or cancel; only a confirmation can change the log |
| `Confirmation.ConfirmationAnswered` | hotel_reservation_system/agents/confirmation_agent.py:18-22 | a confirmation request is answered by `_send_confirmation` |
| `Coordinator.StepRequest` | hotel_reservation_system/agents/coordinator_agent.py:34-44 | a step request comes from the coordinator, as a REQUEST to that step's agent, with the step's prefix in front of the original id and no `reply_to` |
| `Coordinator.StartBookingWorkflow` | hotel_reservation_system/agents/coordinator_agent.py:30-153 | at most four agents are asked, in pipeline order with the step prefixes, and only after the previous one answered |
| `Coordinator.ReceptionFailureIsReturned` | hotel_reservation_system/agents/coordinator_agent.py:33-48 | step 1 sends the request's customer and booking; unless the answer is a success, that answer is returned as it is, no other agent is asked and nothing is stored |
| `Coordinator.UnavailableStopsBeforePayment` | hotel_reservation_system/agents/coordinator_agent.py:50-74 | step 2 checks the receptionist's reservation; without `available: True` the workflow stops with `unavailable` (or the caught error), storing nothing |
| `Coordinator.AvailabilityErrorReadsUnavailable` | hotel_reservation_system/agents/coordinator_agent.py:63-74 | an availability ERROR reply ends the workflow with `unavailable` and changes nothing |
| `Coordinator.ChargeIsQuotedTotal` | hotel_reservation_system/agents/coordinator_agent.py:76-93 | payment is reached iff available and the reservation has an id; it charges the quoted total for that id, with the request's method or `credit_card` |
| `Coordinator.PaymentFailureStops` | hotel_reservation_system/agents/coordinator_agent.py:93-104 | confirmation is reached iff the payment completed; otherwise the reply is `payment_failed` (or the caught error), and only the payment store may have changed |
| `Coordinator.BookingCompletes` | hotel_reservation_system/agents/coordinator_agent.py:106-142 | after a completed payment the priced reservation is marked confirmed and completed and sent for confirmation, the workflow is recorded under its id, and the reply is success whatever the confirmation said |
| `Coordinator.NothingRecordedUnlessBooked` | hotel_reservation_system/agents/coordinator_agent.py:124-128 | a workflow that stops before confirmation leaves the confirmation log and `active_workflows` as they were |
| `Coordinator.AnswersGoToRequester` | hotel_reservation_system/agents/coordinator_agent.py:65-153 | every reply the coordinator writes itself goes to the original sender, in reply to the original message |
| `Coordinator.BookedWorkflowIsFound` | hotel_reservation_system/agents/coordinator_agent.py:160-162 | after a completed workflow the status lookup finds the booked reservation with status `completed` |
| `Coordinator.Process` | hotel_reservation_system/agents/coordinator_agent.py:19-28 | a workflow runs iff the message is a `start_booking` REQUEST; anything else calls no agent and stores nothing |
| `Coordinator.GetBookingStatus` | hotel_reservation_system/agents/coordinator_agent.py:160-162 | the lookup finds an entry iff the id is recorded, and then it is the recorded entry |
| `HotelSystem.BookingRequest` | hotel_reservation_system/system.py:53-64 | the request is a `start_booking` REQUEST from `system` to the coordinator carrying the caller's customer, booking and payment method |
| `HotelSystem.WorkflowAlwaysAnswers` | hotel_reservation_system/system.py:66-69 | with the real agents the workflow always ends in a reply, so `response.content` exists |
| `HotelSystem.RealReception` | hotel_reservation_system/agents/coordinator_agent.py:33-50 | the workflow goes past step 1 iff the receptionist can build the reservation; otherwise the caller gets an error and nothing is stored |
| `HotelSystem.RealRoomCheck` | hotel_reservation_system/agents/coordinator_agent.py:50-63 | a reservation the receptionist built is always available and quoted nights × its room's rate |
| `HotelSystem.RealCharge` | hotel_reservation_system/agents/coordinator_agent.py:76-93 | the built reservation is always charged its quoted total, under its own id, with the caller's payment method |
| `HotelSystem.RealPayment` | hotel_reservation_system/agents/payment_agent.py:31-70 | the workflow reaches confirmation iff the charge is approved; the receipt carries `TXN` + id + suffix and the quoted total; the payment store is what the charge left |
| `HotelSystem.RealPricing` | hotel_reservation_system/agents/coordinator_agent.py:76-78 | the reservation carried past step 2 is the receptionist's, with the quoted total written in |
| `HotelSystem.RealBooking` | hotel_reservation_system/agents/coordinator_agent.py:106-128 | after an approved charge the booked reservation goes to confirmation with the receipt, and the workflow is recorded under its id |
| `HotelSystem.RealConfirmation` | hotel_reservation_system/agents/confirmation_agent.py:27-56 | the real confirmation agent always confirms a booked reservation; the log gains exactly its id, with the customer's email, the quoted total and the transaction id |
| `HotelSystem.RealSuccessAnswer` | hotel_reservation_system/agents/coordinator_agent.py:130-142 | after an approved charge the coordinator answers success with the booked reservation, the receipt and the confirmation reply |
| `HotelSystem.BookingSucceeds` | hotel_reservation_system/system.py:38-69 | an acceptable booking with an approved charge returns success with the booked reservation, the receipt and a sent confirmation |
| `HotelSystem.BookingRecorded` | hotel_reservation_system/system.py:38-69 | a successful booking records the workflow, a completed payment of the quoted total with the caller's method, and a confirmation with the customer's email, all under the reservation id |
| `HotelSystem.BookingDeclined` | hotel_reservation_system/agents/coordinator_agent.py:95-104 | a declined charge returns `payment_failed` and leaves every store as it was |
| `HotelSystem.BookingRejected` | hotel_reservation_system/agents/coordinator_agent.py:45-48 | a booking the receptionist refuses returns its error and stores nothing |
| `HotelSystem.FreshIsConsistent` | hotel_reservation_system/system.py:18-29 | a freshly built system has consistent stores |
| `HotelSystem.ConsistentAfterBooking` | hotel_reservation_system/agents/coordinator_agent.py:124-128 | recording a confirmed reservation with a completed payment and a confirmation under its id keeps the stores consistent |
| `HotelSystem.CreateBookingKeepsConsistent` | hotel_reservation_system/system.py:38-69 | `create_booking` keeps the stores consistent and never forgets a recorded workflow, whatever the booking, payment outcome or clock |
| `HotelSystem.PlaceAllKeepsConsistent` | hotel_reservation_system/system.py:38-69 | any sequence of bookings keeps the stores consistent and keeps every recorded workflow |
| `HotelSystem.CheckRoom` | hotel_reservation_system/system.py:71-102 | with the seeded inventory the answer is `available: True` iff the room value is known and both dates are readable, priced nights × rate; otherwise an error |
| `HotelSystem.BookingLookup` | hotel_reservation_system/system.py:104-118 | `success` with the recorded entry iff the coordinator has the id, otherwise `not_found` |
| `HotelSystem.BookedIsFound` | hotel_reservation_system/system.py:104-118 | after a successful booking the lookup finds the booked reservation, completed |
| `HotelSystem.FoundIsPaidAndConfirmed` | hotel_reservation_system/system.py:104-118 | in consistent stores a found reservation is confirmed, has a completed payment and a sent confirmation |
| `HotelSystem.GetRoomInfo` | hotel_reservation_system/system.py:120-149 | the table sits under `room_types`, with one entry per room value, named "Single Room", "Double Room", "Suite" and "Deluxe Room", each quoting the availability agent's rate; capacities 1, 2, 4 and 4 |
| `HotelSystem.RoomInfoIsGraded` | hotel_reservation_system/system.py:120-149 | every capacity is a valid guest count; each dearer category costs more and lists the cheaper one's amenities plus one |

"Consistent" stores are those where every recorded workflow is a confirmed
reservation under its own id, with a completed payment and a logged
confirmation under the same id.

## Left out

- Randomness: the charge outcome and the transaction suffix are the `approved` and `suffix` fields of `Env`. The 90% success rate is not modelled.
- Clock: `datetime.now()` is one `Clock` reading per facade call, shared by every stamp in that call. Real readings would differ from step to step; only the message and reservation ids, the reservation's `created_at` and `sent_at` depend on them. `created_at` takes the same reading as the reservation id.
- The `timestamp` field of `AgentMessage` is not modelled. Its default is evaluated once, when the class is defined, so it carries no information per message.
- ISO-8601 parsing and pydantic validation: dates arrive already parsed as integer seconds, and a date that does not parse is `None`. Only missing required fields and the 1..10 guest range are modelled as validation failures.
- Field types pydantic would coerce or reject (a non-string name, a non-integer guest count) are not modelled. The model's fields are already typed.
- Floats and `.2f` formatting: money is an integer number of dollars, and `MoneyText` writes whole amounts with `.00`.
- The free-text `message` of replies is left out. An error reply keeps only which operation failed (`Messages.Fault`); the exception text after the prefix is not modelled.
- The reservation and payment dictionaries inside the confirmation email keep their values, not their Python `repr`/ISO spelling. Dates appear in the email as their integer seconds.
- The `print` calls of `HotelReservationSystem.__init__`, the stub `_handle_agent_response`, the unused `booked_rooms`, and `__str__` are not modelled. Nothing reads `message_queue`; `receive_message` is modelled on its own as `Messages.ReceiveMessage`.
- A charge or refund request without a `reservation_id` is not modelled. The request payload always carries an id string; Python would key the store by `None`.
- Aliasing: the coordinator mutates the receptionist's reply dictionary in place. The model builds new values, and no observable reply differs.
- `HotelSystem.CreateBooking` has no contract of its own. Its outcomes are stated by `BookingSucceeds`, `BookingRecorded`, `BookingDeclined`, `BookingRejected` and `CreateBookingKeepsConsistent`.
- Availability.PricePerNight: its contract says only that every rate is positive. The four amounts (100, 150, 250, 350) are its table, `RoomInfoIsGraded` states their order, and `QuoteOfWholeDays` states how they are charged.
- Confirmation.SendCancellation: it does not model the cancellation text, which is built but never sent or returned.

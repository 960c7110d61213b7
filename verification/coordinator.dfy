/**
 * The coordinator: the four-step booking workflow (receptionist,
 * availability, payment, confirmation) that stops at the first failure.
 *
 * The agents it drives are parameters, so every property below holds for
 * whatever the agents answer; `HotelSystem` wires in the real ones. A run
 * reports the coordinator's reply, the trace of requests it sent with the
 * reply each drew, and the state of the stores it and its agents keep.
 */
module Coordinator {
  import opened Wrappers
  import opened Stamps
  import opened Models
  import opened Messages
  import Receptionist
  import Availability
  import Payment
  import Confirmation

  const AgentId: string := "coordinator"

  /** The `status` every `active_workflows` entry records. */
  const CompletedWorkflow: string := "completed"

  datatype WorkflowEntry = WorkflowEntry(reservation: ReservationData, status: string)

  /** `active_workflows`, keyed by reservation id. */
  type Workflows = map<string, WorkflowEntry>

  /** The `process_message` of each agent the coordinator holds; payment and confirmation keep a store. */
  datatype Agents = Agents(
    receptionist: Message -> Option<Message>,
    availability: Message -> Option<Message>,
    payment: (Payment.PaymentStore, Message) -> (Payment.PaymentStore, Option<Message>),
    confirmation: (Confirmation.ConfirmationStore, Message) -> (Confirmation.ConfirmationStore, Option<Message>))

  /** Every piece of state a booking can change. */
  datatype Stores = Stores(
    payments: Payment.PaymentStore,
    confirmations: Confirmation.ConfirmationStore,
    workflows: Workflows)

  /** One request the coordinator sent, with what came back. */
  datatype Exchange = Exchange(request: Message, reply: Option<Message>)

  datatype Run = Run(reply: Option<Message>, calls: seq<Exchange>, stores: Stores)

  /** The agents of the pipeline, in the order the workflow calls them. */
  function Pipeline(step: nat): string {
    if step == 0 then Receptionist.AgentId else if step == 1 then Availability.AgentId
    else if step == 2 then Payment.AgentId else Confirmation.AgentId
  }

  /** The prefix each step puts in front of the original message id. */
  function StepPrefix(step: nat): string {
    if step == 0 then "coord-recept-" else if step == 1 then "coord-avail-"
    else if step == 2 then "coord-pay-" else "coord-conf-"
  }

  /** The request of step `step` (0 to 3) of the workflow started by `m`. */
  function StepRequest(m: Message, step: nat, content: Content): (q: Message)
    requires step < 4
    ensures q.messageId == Prefixed(StepPrefix(step), m.messageId)
    ensures q.sender == AgentId && q.receiver == Pipeline(step) && q.messageType == Request
    ensures q.content == content && q.replyTo.None?
  {
    NewMessage(Prefixed(StepPrefix(step), m.messageId), AgentId, Pipeline(step), Request, content)
  }

  /** `q` is the request of step `step` of the workflow started by `m`, whatever its payload. */
  predicate IsStepRequest(m: Message, step: nat, q: Message) {
    && step < 4
    && q.messageId == Prefixed(StepPrefix(step), m.messageId)
    && q.sender == AgentId && q.receiver == Pipeline(step) && q.messageType == Request
  }

  /**
   * A trace that starts at step `first`: the steps follow one another in
   * pipeline order, and every step but the last drew a reply.
   */
  predicate InOrderFrom(m: Message, first: nat, calls: seq<Exchange>) {
    && (forall i | 0 <= i < |calls| :: IsStepRequest(m, first + i, calls[i].request))
    && (forall i | 0 <= i < |calls| - 1 :: calls[i].reply.Some?)
  }

  /** A step that drew a reply, followed by an ordered trace from the next step, is an ordered trace. */
  lemma PrependStep(m: Message, first: nat, e: Exchange, rest: Run)
    requires IsStepRequest(m, first, e.request) && e.reply.Some? && 1 <= |rest.calls|
    requires InOrderFrom(m, first + 1, rest.calls)
    ensures InOrderFrom(m, first, After(e, rest).calls)
  {
    var calls := After(e, rest).calls;
    forall i | 1 <= i < |calls| ensures calls[i] == rest.calls[i - 1] {}
  }

  /** A single step is an ordered trace, whether or not it drew a reply. */
  lemma LastStep(m: Message, step: nat, calls: seq<Exchange>)
    requires |calls| == 1 && IsStepRequest(m, step, calls[0].request)
    ensures InOrderFrom(m, step, calls)
  {
  }

  /** A reply the coordinator builds itself: to the original sender, in reply to the original message. */
  function Answer(m: Message, now: Clock, t: MessageType, c: Content): Message {
    ReplyFrom(AgentId, m, now, t, c)
  }

  /** The caught-exception reply of the workflow. */
  function Fail(m: Message, now: Clock): (a: Message)
    ensures a.sender == AgentId && a.receiver == m.sender && a.replyTo == Some(m.messageId)
    ensures a.messageType == Error && a.content == ErrorReply(WorkflowFault, None, None)
  {
    Answer(m, now, Error, ErrorReply(WorkflowFault, None, None))
  }

  /** The receptionist's answer exists and reports `status: "success"`. */
  predicate Accepted(b: Option<Message>) {
    b.Some? && StatusOf(b.value.content) == Some(SuccessStatus)
  }

  /** The availability answer exists and says `available: True`. */
  predicate SaysAvailable(a: Option<Message>) {
    a.Some? && AvailableOf(a.value.content) == Some(true)
  }

  /** The payment answer exists and reports `payment_status: "completed"`. */
  predicate Paid(p: Option<Message>) {
    p.Some? && PaymentStatusOf(p.value.content) == Some(PaymentStatus.Completed)
  }

  /** A run of the later steps, with `e` sent before them. */
  function After(e: Exchange, rest: Run): (r: Run)
    ensures |r.calls| == |rest.calls| + 1 && r.calls[0] == e && r.calls[1..] == rest.calls
    ensures r.reply == rest.reply && r.stores == rest.stores
  {
    var r := rest.(calls := [e] + rest.calls);
    assert r.calls[1..] == rest.calls;
    r
  }

  /** The reservation as the workflow books it: both statuses moved on once payment went through. */
  function Booked(priced: ReservationData): ReservationData {
    priced.(bookingStatus := Some(BookingStatus.Confirmed), paymentStatus := Some(PaymentStatus.Completed))
  }

  /**
   * Step 4: ask for the confirmation, record the workflow as completed, and
   * report success whatever the confirmation agent said, as long as it said
   * something.
   */
  function ConfirmStep(agents: Agents, stores: Stores, m: Message, now: Clock, booked: ReservationData, id: string, paid: Content): (r: Run)
    ensures |r.calls| == 1
    ensures r.calls[0].request == StepRequest(m, 3, SendConfirmation(Some(booked), Some(paid)))
    ensures (r.stores.confirmations, r.calls[0].reply) == agents.confirmation(stores.confirmations, r.calls[0].request)
    ensures r.stores.payments == stores.payments
    ensures r.stores.workflows == stores.workflows[id := WorkflowEntry(booked, CompletedWorkflow)]
    ensures r.reply == Some(
      if r.calls[0].reply.Some? then Answer(m, now, Response, BookingSucceeded(booked, paid, r.calls[0].reply.value.content))
      else Fail(m, now))
  {
    var q := StepRequest(m, 3, SendConfirmation(Some(booked), Some(paid)));
    var (confirmations, c) := agents.confirmation(stores.confirmations, q);
    var stores' := Stores(stores.payments, confirmations, stores.workflows[id := WorkflowEntry(booked, CompletedWorkflow)]);
    match c
    case None => Run(Some(Fail(m, now)), [Exchange(q, c)], stores')
    case Some(reply) =>
      Run(Some(Answer(m, now, Response, BookingSucceeded(booked, paid, reply.content))), [Exchange(q, c)], stores')
  }

  /**
   * Step 3, once the payment agent has answered `e` and left its store as
   * `payments`: anything but a completed payment stops the workflow.
   */
  function PaymentGate(
    agents: Agents, stores: Stores, m: Message, now: Clock, priced: ReservationData, id: string,
    e: Exchange, payments: Payment.PaymentStore): (r: Run)
    ensures 1 <= |r.calls| <= 2 && r.calls[0] == e
    ensures |r.calls| == 2 <==> Paid(e.reply)
    ensures !Paid(e.reply) ==>
      && r.reply == Some(if e.reply.Some? then Answer(m, now, Response, BookingPaymentFailed) else Fail(m, now))
      && r.stores == stores.(payments := payments)
    ensures Paid(e.reply) ==>
      && r.calls[1].request == StepRequest(m, 3, SendConfirmation(Some(Booked(priced)), Some(e.reply.value.content)))
      && r.stores.payments == payments
      && r.stores.workflows == stores.workflows[id := WorkflowEntry(Booked(priced), CompletedWorkflow)]
  {
    if !Paid(e.reply) then
      Run(Some(if e.reply.Some? then Answer(m, now, Response, BookingPaymentFailed) else Fail(m, now)),
          [e], stores.(payments := payments))
    else
      var rest := ConfirmStep(agents, stores.(payments := payments), m, now, Booked(priced), id, e.reply.value.content);
      After(e, rest)
  }

  /** Step 3: charge the quoted total for the reservation id, with the requested payment method. */
  function PayStep(agents: Agents, stores: Stores, m: Message, now: Clock, priced: ReservationData, id: string, total: Option<int>): (r: Run)
    ensures 1 <= |r.calls| <= 2
    ensures r.calls[0].request == StepRequest(m, 2, ProcessPayment(id, total, Some(PaymentMethodOf(m.content).GetOr(Payment.DefaultMethod))))
    ensures r.calls[0].reply == agents.payment(stores.payments, r.calls[0].request).1
  {
    var q := StepRequest(m, 2, ProcessPayment(id, total, Some(PaymentMethodOf(m.content).GetOr(Payment.DefaultMethod))));
    var (payments, p) := agents.payment(stores.payments, q);
    PaymentGate(agents, stores, m, now, priced, id, Exchange(q, p), payments)
  }

  /**
   * Step 2, once the availability answer `e` is in: without `available: True`
   * the workflow stops; otherwise the quoted total goes into the reservation
   * and is charged.
   */
  function AvailabilityGate(agents: Agents, stores: Stores, m: Message, now: Clock, data: Option<ReservationData>, e: Exchange): (r: Run)
    ensures 1 <= |r.calls| <= 3 && r.calls[0] == e
    ensures |r.calls| >= 2 <==> SaysAvailable(e.reply) && data.Some? && data.value.reservationId.Some?
    ensures |r.calls| == 1 ==>
      && r.stores == stores
      && r.reply == Some(if e.reply.Some? && !SaysAvailable(e.reply) then Answer(m, now, Response, BookingUnavailable) else Fail(m, now))
    ensures |r.calls| >= 2 ==>
      r.calls[1].request == StepRequest(m, 2, ProcessPayment(data.value.reservationId.value, TotalPriceOf(e.reply.value.content),
                                                             Some(PaymentMethodOf(m.content).GetOr(Payment.DefaultMethod))))
  {
    if !SaysAvailable(e.reply) then
      if e.reply.None? then Run(Some(Fail(m, now)), [e], stores)
      else Run(Some(Answer(m, now, Response, BookingUnavailable)), [e], stores)
    else if data.None? || data.value.reservationId.None? then Run(Some(Fail(m, now)), [e], stores)
    else
      var total := TotalPriceOf(e.reply.value.content);
      var rest := PayStep(agents, stores, m, now, data.value.(totalPrice := PriceFieldOf(total)), data.value.reservationId.value, total);
      After(e, rest)
  }

  /** Step 2: ask whether the room the receptionist booked is free. */
  function AvailabilityStep(agents: Agents, stores: Stores, m: Message, now: Clock, data: Option<ReservationData>): (r: Run)
    ensures 1 <= |r.calls| <= 3
    ensures r.calls[0].request == StepRequest(m, 1, CheckAvailability(data))
    ensures r.calls[0].reply == agents.availability(r.calls[0].request)
  {
    var q := StepRequest(m, 1, CheckAvailability(data));
    AvailabilityGate(agents, stores, m, now, data, Exchange(q, agents.availability(q)))
  }

  /**
   * Step 1, once the receptionist's answer `e` is in: a missing or
   * unsuccessful answer is handed back as it is, no other agent is asked,
   * and nothing is stored.
   */
  function ReceptionGate(agents: Agents, stores: Stores, m: Message, now: Clock, e: Exchange): (r: Run)
    ensures 1 <= |r.calls| <= 4 && r.calls[0] == e
    ensures |r.calls| >= 2 <==> Accepted(e.reply)
    ensures !Accepted(e.reply) ==> r.reply == e.reply && r.stores == stores
    ensures Accepted(e.reply) ==> r.calls[1].request == StepRequest(m, 1, CheckAvailability(ReservationOf(e.reply.value.content)))
  {
    if !Accepted(e.reply) then Run(e.reply, [e], stores)
    else
      var rest := AvailabilityStep(agents, stores, m, now, ReservationOf(e.reply.value.content));
      After(e, rest)
  }

  /** Step 1: ask the receptionist to build the reservation from the request's customer and booking. */
  function ReceptionStep(agents: Agents, stores: Stores, m: Message, now: Clock): (r: Run)
    ensures 1 <= |r.calls| <= 4
    ensures r.calls[0].request == StepRequest(m, 0, CreateBooking(CustomerOf(m.content), BookingOf(m.content)))
    ensures r.calls[0].reply == agents.receptionist(r.calls[0].request)
  {
    var q := StepRequest(m, 0, CreateBooking(CustomerOf(m.content), BookingOf(m.content)));
    ReceptionGate(agents, stores, m, now, Exchange(q, agents.receptionist(q)))
  }

  /** The confirmation step sends the step-4 request. */
  lemma ConfirmInOrder(agents: Agents, stores: Stores, m: Message, now: Clock, booked: ReservationData, id: string, paid: Content)
    ensures InOrderFrom(m, 3, ConfirmStep(agents, stores, m, now, booked, id, paid).calls)
  {
    var r := ConfirmStep(agents, stores, m, now, booked, id, paid);
    LastStep(m, 3, r.calls);
  }

  /** The payment step sends the step-3 request, then the confirmation step's if the payment went through. */
  lemma PayInOrder(agents: Agents, stores: Stores, m: Message, now: Clock, priced: ReservationData, id: string, total: Option<int>)
    ensures InOrderFrom(m, 2, PayStep(agents, stores, m, now, priced, id, total).calls)
  {
    var q := StepRequest(m, 2, ProcessPayment(id, total, Some(PaymentMethodOf(m.content).GetOr(Payment.DefaultMethod))));
    var answer := agents.payment(stores.payments, q);
    var e := Exchange(q, answer.1);
    var r := PaymentGate(agents, stores, m, now, priced, id, e, answer.0);
    assert PayStep(agents, stores, m, now, priced, id, total) == r;
    if Paid(e.reply) {
      var rest := ConfirmStep(agents, stores.(payments := answer.0), m, now, Booked(priced), id, e.reply.value.content);
      assert r == After(e, rest);
      ConfirmInOrder(agents, stores.(payments := answer.0), m, now, Booked(priced), id, e.reply.value.content);
      PrependStep(m, 2, e, rest);
    } else {
      LastStep(m, 2, r.calls);
    }
  }

  /** The availability step sends the step-2 request, then the later steps' in order. */
  lemma AvailabilityInOrder(agents: Agents, stores: Stores, m: Message, now: Clock, data: Option<ReservationData>)
    ensures InOrderFrom(m, 1, AvailabilityStep(agents, stores, m, now, data).calls)
  {
    var q := StepRequest(m, 1, CheckAvailability(data));
    var e := Exchange(q, agents.availability(q));
    var r := AvailabilityGate(agents, stores, m, now, data, e);
    assert AvailabilityStep(agents, stores, m, now, data) == r;
    if |r.calls| >= 2 {
      var total := TotalPriceOf(e.reply.value.content);
      var priced := data.value.(totalPrice := PriceFieldOf(total));
      var rest := PayStep(agents, stores, m, now, priced, data.value.reservationId.value, total);
      assert r == After(e, rest);
      PayInOrder(agents, stores, m, now, priced, data.value.reservationId.value, total);
      PrependStep(m, 1, e, rest);
    } else {
      LastStep(m, 1, r.calls);
    }
  }

  /** The reception step sends the step-1 request, then the later steps' in order. */
  lemma ReceptionInOrder(agents: Agents, stores: Stores, m: Message, now: Clock)
    ensures InOrderFrom(m, 0, ReceptionStep(agents, stores, m, now).calls)
  {
    var q := StepRequest(m, 0, CreateBooking(CustomerOf(m.content), BookingOf(m.content)));
    var e := Exchange(q, agents.receptionist(q));
    var r := ReceptionGate(agents, stores, m, now, e);
    assert ReceptionStep(agents, stores, m, now) == r;
    ReceptionGateInOrder(agents, stores, m, now, e);
  }

  /** Whatever the receptionist answered to the step-1 request, the run from there is in order. */
  lemma ReceptionGateInOrder(agents: Agents, stores: Stores, m: Message, now: Clock, e: Exchange)
    requires IsStepRequest(m, 0, e.request)
    ensures InOrderFrom(m, 0, ReceptionGate(agents, stores, m, now, e).calls)
  {
    var r := ReceptionGate(agents, stores, m, now, e);
    if Accepted(e.reply) {
      var rest := AvailabilityStep(agents, stores, m, now, ReservationOf(e.reply.value.content));
      assert r == After(e, rest);
      AvailabilityInOrder(agents, stores, m, now, ReservationOf(e.reply.value.content));
      PrependStep(m, 0, e, rest);
    } else {
      LastStep(m, 0, r.calls);
    }
  }

  /** `_start_booking_workflow`: the pipeline from its first step. */
  function StartBookingWorkflow(agents: Agents, stores: Stores, m: Message, now: Clock): (r: Run)
    ensures 1 <= |r.calls| <= 4 && InOrderFrom(m, 0, r.calls)
  {
    ReceptionInOrder(agents, stores, m, now);
    ReceptionStep(agents, stores, m, now)
  }

  /**
   * Step 1 of a workflow: the receptionist is asked to create the booking
   * from the request's customer and booking. If it does not answer with
   * success, its answer (or none) is what the workflow returns, no other
   * agent is asked, and nothing is stored.
   */
  lemma ReceptionFailureIsReturned(agents: Agents, stores: Stores, m: Message, now: Clock)
    ensures var r := StartBookingWorkflow(agents, stores, m, now);
      && r.calls[0].request == StepRequest(m, 0, CreateBooking(CustomerOf(m.content), BookingOf(m.content)))
      && r.calls[0].reply == agents.receptionist(r.calls[0].request)
      && (|r.calls| == 1 <==> !Accepted(r.calls[0].reply))
      && (|r.calls| == 1 ==> r.reply == r.calls[0].reply && r.stores == stores)
  {
    var q := StepRequest(m, 0, CreateBooking(CustomerOf(m.content), BookingOf(m.content)));
    var e := Exchange(q, agents.receptionist(q));
    assert StartBookingWorkflow(agents, stores, m, now) == ReceptionGate(agents, stores, m, now, e);
  }

  /**
   * Step 2 of a workflow: once the receptionist accepted, the availability
   * agent is asked about the reservation the receptionist returned. Unless
   * it answers `available: True` the workflow stops there, and it also stops
   * when the reservation has no id to charge for. An answer that is not
   * `available: True` is reported as unavailable; a missing answer or a
   * missing id is the caught exception; nothing is stored.
   */
  lemma UnavailableStopsBeforePayment(agents: Agents, stores: Stores, m: Message, now: Clock)
    ensures var r := StartBookingWorkflow(agents, stores, m, now);
      |r.calls| >= 2 ==>
        && r.calls[1].request == StepRequest(m, 1, CheckAvailability(ReservationOf(r.calls[0].reply.value.content)))
        && r.calls[1].reply == agents.availability(r.calls[1].request)
        && (!SaysAvailable(r.calls[1].reply) ==> |r.calls| == 2)
        && (|r.calls| == 2 ==>
              && r.stores == stores
              && r.reply == Some(
                   if r.calls[1].reply.Some? && !SaysAvailable(r.calls[1].reply) then Answer(m, now, Response, BookingUnavailable)
                   else Fail(m, now)))
  {
    var q := StepRequest(m, 0, CreateBooking(CustomerOf(m.content), BookingOf(m.content)));
    var e := Exchange(q, agents.receptionist(q));
    var r := StartBookingWorkflow(agents, stores, m, now);
    assert r == ReceptionGate(agents, stores, m, now, e);
    if Accepted(e.reply) {
      var data := ReservationOf(e.reply.value.content);
      var q1 := StepRequest(m, 1, CheckAvailability(data));
      var e1 := Exchange(q1, agents.availability(q1));
      var rest := AvailabilityGate(agents, stores, m, now, data, e1);
      assert r == After(e, rest);
    }
  }

  /**
   * The reservation of step 2 with the quoted total written into it: what
   * the workflow charges for and, once paid, books.
   */
  function Priced(r: Run): (d: ReservationData)
    requires |r.calls| >= 2 && r.calls[0].reply.Some? && r.calls[1].reply.Some?
    requires ReservationOf(r.calls[0].reply.value.content).Some?
    ensures d.totalPrice == PriceFieldOf(TotalPriceOf(r.calls[1].reply.value.content))
  {
    ReservationOf(r.calls[0].reply.value.content).value.(totalPrice := PriceFieldOf(TotalPriceOf(r.calls[1].reply.value.content)))
  }

  /**
   * Step 3 of a workflow: it is reached exactly when the room is available
   * and the reservation has an id, and it charges the total the
   * availability agent quoted, for that id, with the request's payment
   * method or `credit_card`, against the payment store as it was.
   */
  lemma ChargeIsQuotedTotal(agents: Agents, stores: Stores, m: Message, now: Clock)
    ensures var r := StartBookingWorkflow(agents, stores, m, now);
      |r.calls| >= 2 ==>
        var data := ReservationOf(r.calls[0].reply.value.content);
        && (|r.calls| >= 3 <==> SaysAvailable(r.calls[1].reply) && data.Some? && data.value.reservationId.Some?)
        && (|r.calls| >= 3 ==>
              && r.calls[2].request == StepRequest(m, 2, ProcessPayment(
                   data.value.reservationId.value, TotalPriceOf(r.calls[1].reply.value.content),
                   Some(PaymentMethodOf(m.content).GetOr(Payment.DefaultMethod))))
              && r.calls[2].reply == agents.payment(stores.payments, r.calls[2].request).1)
  {
    var q := StepRequest(m, 0, CreateBooking(CustomerOf(m.content), BookingOf(m.content)));
    var e := Exchange(q, agents.receptionist(q));
    var r := StartBookingWorkflow(agents, stores, m, now);
    assert r == ReceptionGate(agents, stores, m, now, e);
    if Accepted(e.reply) {
      var data := ReservationOf(e.reply.value.content);
      var q1 := StepRequest(m, 1, CheckAvailability(data));
      var e1 := Exchange(q1, agents.availability(q1));
      var rest := AvailabilityGate(agents, stores, m, now, data, e1);
      assert r == After(e, rest);
      if |rest.calls| >= 2 {
        var total := TotalPriceOf(e1.reply.value.content);
        var id := data.value.reservationId.value;
        var q2 := StepRequest(m, 2, ProcessPayment(id, total, Some(PaymentMethodOf(m.content).GetOr(Payment.DefaultMethod))));
        var answer := agents.payment(stores.payments, q2);
        var pay := PaymentGate(agents, stores, m, now, data.value.(totalPrice := PriceFieldOf(total)), id, Exchange(q2, answer.1), answer.0);
        assert rest == After(e1, pay);
      }
    }
  }

  /**
   * Step 3's outcome: anything but a completed payment stops the workflow
   * with `payment_failed` (or the caught exception when the payment agent
   * did not answer); the payment agent's store is kept as it left it, and
   * no confirmation or workflow is recorded.
   */
  lemma PaymentFailureStops(agents: Agents, stores: Stores, m: Message, now: Clock)
    ensures var r := StartBookingWorkflow(agents, stores, m, now);
      |r.calls| >= 3 ==>
        && (|r.calls| == 4 <==> Paid(r.calls[2].reply))
        && r.stores.payments == agents.payment(stores.payments, r.calls[2].request).0
        && (!Paid(r.calls[2].reply) ==>
              && r.stores == stores.(payments := r.stores.payments)
              && r.reply == Some(if r.calls[2].reply.Some? then Answer(m, now, Response, BookingPaymentFailed) else Fail(m, now)))
  {
    var q := StepRequest(m, 0, CreateBooking(CustomerOf(m.content), BookingOf(m.content)));
    var e := Exchange(q, agents.receptionist(q));
    var r := StartBookingWorkflow(agents, stores, m, now);
    assert r == ReceptionGate(agents, stores, m, now, e);
    if Accepted(e.reply) {
      var data := ReservationOf(e.reply.value.content);
      var q1 := StepRequest(m, 1, CheckAvailability(data));
      var e1 := Exchange(q1, agents.availability(q1));
      var rest := AvailabilityGate(agents, stores, m, now, data, e1);
      assert r == After(e, rest);
      if |rest.calls| >= 2 {
        var total := TotalPriceOf(e1.reply.value.content);
        var id := data.value.reservationId.value;
        var q2 := StepRequest(m, 2, ProcessPayment(id, total, Some(PaymentMethodOf(m.content).GetOr(Payment.DefaultMethod))));
        var answer := agents.payment(stores.payments, q2);
        var pay := PaymentGate(agents, stores, m, now, data.value.(totalPrice := PriceFieldOf(total)), id, Exchange(q2, answer.1), answer.0);
        assert rest == After(e1, pay);
      }
    }
  }

  /**
   * Step 4 of a workflow, reached exactly when the payment completed: the
   * confirmation agent is sent the priced reservation with both statuses
   * moved on and the payment answer; the workflow is recorded as completed
   * under the reservation id, and the answer is the success reply carrying
   * the booked reservation, the payment answer and the confirmation answer
   * (or the caught exception when the confirmation agent did not answer).
   */
  lemma BookingCompletes(agents: Agents, stores: Stores, m: Message, now: Clock)
    ensures var r := StartBookingWorkflow(agents, stores, m, now);
      |r.calls| == 4 ==>
        var booked := Booked(Priced(r));
        var paid := r.calls[2].reply.value.content;
        && Paid(r.calls[2].reply)
        && booked.bookingStatus == Some(BookingStatus.Confirmed) && booked.paymentStatus == Some(PaymentStatus.Completed)
        && r.calls[3].request == StepRequest(m, 3, SendConfirmation(Some(booked), Some(paid)))
        && (r.stores.confirmations, r.calls[3].reply) == agents.confirmation(stores.confirmations, r.calls[3].request)
        && r.stores.workflows == stores.workflows[booked.reservationId.value := WorkflowEntry(booked, CompletedWorkflow)]
        && r.reply == Some(
             if r.calls[3].reply.Some? then Answer(m, now, Response, BookingSucceeded(booked, paid, r.calls[3].reply.value.content))
             else Fail(m, now))
  {
    var q := StepRequest(m, 0, CreateBooking(CustomerOf(m.content), BookingOf(m.content)));
    var e := Exchange(q, agents.receptionist(q));
    var r := StartBookingWorkflow(agents, stores, m, now);
    assert r == ReceptionGate(agents, stores, m, now, e);
    if Accepted(e.reply) {
      var data := ReservationOf(e.reply.value.content);
      var q1 := StepRequest(m, 1, CheckAvailability(data));
      var e1 := Exchange(q1, agents.availability(q1));
      var rest := AvailabilityGate(agents, stores, m, now, data, e1);
      assert r == After(e, rest);
      if |rest.calls| >= 2 {
        var total := TotalPriceOf(e1.reply.value.content);
        var priced := data.value.(totalPrice := PriceFieldOf(total));
        var id := data.value.reservationId.value;
        var q2 := StepRequest(m, 2, ProcessPayment(id, total, Some(PaymentMethodOf(m.content).GetOr(Payment.DefaultMethod))));
        var answer := agents.payment(stores.payments, q2);
        var e2 := Exchange(q2, answer.1);
        var pay := PaymentGate(agents, stores, m, now, priced, id, e2, answer.0);
        assert rest == After(e1, pay);
        if Paid(e2.reply) {
          assert pay == After(e2, ConfirmStep(agents, stores.(payments := answer.0), m, now, Booked(priced), id, e2.reply.value.content));
          assert Priced(r) == priced;
        }
      }
    }
  }

  /**
   * Only a workflow that reached the confirmation step records anything
   * besides the payment agent's store: a stop at steps 1 to 3 leaves the
   * confirmation log and the workflow table as they were.
   */
  lemma NothingRecordedUnlessBooked(agents: Agents, stores: Stores, m: Message, now: Clock)
    ensures var r := StartBookingWorkflow(agents, stores, m, now);
      |r.calls| < 4 ==> r.stores.confirmations == stores.confirmations && r.stores.workflows == stores.workflows
  {
    ReceptionFailureIsReturned(agents, stores, m, now);
    UnavailableStopsBeforePayment(agents, stores, m, now);
    PaymentFailureStops(agents, stores, m, now);
  }

  /**
   * An availability ERROR has no `available` key, so the coordinator reads
   * it as "not available": the workflow stops there with `unavailable`,
   * changing nothing.
   */
  lemma AvailabilityErrorReadsUnavailable(agents: Agents, stores: Stores, m: Message, now: Clock)
    ensures var r := StartBookingWorkflow(agents, stores, m, now);
      |r.calls| >= 2 && r.calls[1].reply.Some? && StatusOf(r.calls[1].reply.value.content) == Some(ErrorStatus) ==>
        && |r.calls| == 2 && r.stores == stores
        && r.reply == Some(Answer(m, now, Response, BookingUnavailable))
  {
    UnavailableStopsBeforePayment(agents, stores, m, now);
    var r := StartBookingWorkflow(agents, stores, m, now);
    if |r.calls| >= 2 && r.calls[1].reply.Some? && StatusOf(r.calls[1].reply.value.content) == Some(ErrorStatus) {
      ErrorRepliesAreNotAvailable(r.calls[1].reply.value.content);
    }
  }

  /**
   * Every answer the coordinator writes itself, from step 2 on, goes back
   * to the sender of the request, in reply to it, from the coordinator.
   */
  lemma AnswersGoToRequester(agents: Agents, stores: Stores, m: Message, now: Clock)
    ensures var r := StartBookingWorkflow(agents, stores, m, now);
      |r.calls| >= 2 ==>
        && r.reply.Some? && r.reply.value.sender == AgentId
        && r.reply.value.receiver == m.sender && r.reply.value.replyTo == Some(m.messageId)
  {
    UnavailableStopsBeforePayment(agents, stores, m, now);
    PaymentFailureStops(agents, stores, m, now);
    BookingCompletes(agents, stores, m, now);
  }

  /** After a workflow reached the confirmation step, the status lookup finds the booked reservation, completed. */
  lemma BookedWorkflowIsFound(agents: Agents, stores: Stores, m: Message, now: Clock)
    ensures var r := StartBookingWorkflow(agents, stores, m, now);
      |r.calls| == 4 ==>
        var booked := Booked(Priced(r));
        GetBookingStatus(r.stores.workflows, booked.reservationId.value) == Some(WorkflowEntry(booked, CompletedWorkflow))
  {
    BookingCompletes(agents, stores, m, now);
  }

  /** `process_message`: only a `start_booking` request starts a workflow; responses are ignored. */
  function Process(agents: Agents, stores: Stores, m: Message, now: Clock): (r: Run)
    ensures r.reply.Some? || |r.calls| > 0 <==> m.messageType == Request && m.content.StartBooking?
    ensures !(m.messageType == Request && m.content.StartBooking?) ==> r.calls == [] && r.stores == stores
  {
    if m.messageType == Request && m.content.StartBooking? then StartBookingWorkflow(agents, stores, m, now)
    else Run(None, [], stores)
  }

  /** `get_booking_status`: the recorded workflow of a reservation, if any. */
  function GetBookingStatus(workflows: Workflows, reservationId: string): (e: Option<WorkflowEntry>)
    ensures e.Some? <==> reservationId in workflows
    ensures e.Some? ==> e.value == workflows[reservationId]
  {
    if reservationId in workflows then Some(workflows[reservationId]) else None
  }
}

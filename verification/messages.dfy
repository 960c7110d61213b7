/**
 * The message envelope every agent exchanges, and the closed set of payloads
 * it can carry. Each payload variant stands for one dictionary shape of the
 * source: a request with its `action`, or a reply with its `status`. The
 * accessor functions below play the part of `content.get(key)`.
 */
module Messages {
  import opened Wrappers
  import opened Text
  import opened Stamps
  import opened Models

  datatype MessageType = Request | Response | Notification | Error

  const AllMessageTypes: set<MessageType> := {Request, Response, Notification, Error}

  /** The message types are closed: exactly four kinds. */
  lemma MessageTypesClosed()
    ensures |AllMessageTypes| == 4 && forall t: MessageType :: t in AllMessageTypes
  {
    forall t: MessageType ensures t in AllMessageTypes {
      match t
      case Request => case Response => case Notification => case Error =>
    }
  }

  /** The values the `status` key of a reply takes. */
  datatype ReplyStatus = SuccessStatus | FailedStatus | ErrorStatus | UnavailableStatus | PaymentFailedStatus

  /** The wording of the `status` value. */
  function StatusName(s: ReplyStatus): string {
    match s
    case SuccessStatus => "success"
    case FailedStatus => "failed"
    case ErrorStatus => "error"
    case UnavailableStatus => "unavailable"
    case PaymentFailedStatus => "payment_failed"
  }

  /** Distinct statuses are worded differently, so a client can tell them apart by the `status` text. */
  lemma StatusNamesDistinct(a: ReplyStatus, b: ReplyStatus)
    ensures StatusName(a) == StatusName(b) <==> a == b
  {
  }

  /**
   * Which operation an ERROR reply comes from; the text is the fixed prefix
   * of its `message`. The exception text that follows the prefix is not modelled.
   */
  datatype Fault =
    | BookingRequestFault | AvailabilityFault | PricingFault | PaymentFault | RefundFault
    | NoPaymentFound | ConfirmationFault | CancellationFault | WorkflowFault

  /** The wording of the `message` prefix. */
  function FaultText(f: Fault): string {
    match f
    case BookingRequestFault => "Failed to process booking request"
    case AvailabilityFault => "Failed to check availability"
    case PricingFault => "Failed to calculate price"
    case PaymentFault => "Payment processing error"
    case RefundFault => "Refund processing error"
    case NoPaymentFound => "No payment found for this reservation"
    case ConfirmationFault => "Failed to send confirmation"
    case CancellationFault => "Failed to send cancellation notice"
    case WorkflowFault => "Booking workflow failed"
  }

  /** Distinct faults have distinct message prefixes. */
  lemma FaultTextsDistinct(a: Fault, b: Fault)
    ensures FaultText(a) == FaultText(b) <==> a == b
  {
  }

  /**
   * The values a confirmation email is filled in with. A confirmation is
   * carried as these values; `Confirmation.RenderConfirmation` spells out
   * the email text they determine.
   */
  datatype Notice = Notice(
    customerName: string, reservationId: string, roomType: string,
    checkIn: Timestamp, checkOut: Timestamp, guests: int, total: int, transactionId: string)

  /** The canned answers of the receptionist; `Receptionist.AnswerText` gives their wording. */
  datatype CannedAnswer = RoomTypesAnswer | AmenitiesAnswer | PoliciesAnswer | FallbackAnswer

  datatype Content =
    // Requests, one per `action` value.
    | StartBooking(customer: Option<CustomerData>, booking: Option<BookingData>, paymentMethod: Option<string>)
    | CreateBooking(customer: Option<CustomerData>, booking: Option<BookingData>)
    | Inquiry(inquiryType: Option<string>)
    | CheckAvailability(reservation: Option<ReservationData>)
    | CalculatePrice(reservation: Option<ReservationData>)
    | ProcessPayment(reservationId: string, chargeAmount: Option<int>, paymentMethod: Option<string>)
    | RefundPayment(reservationId: string)
    | SendConfirmation(reservation: Option<ReservationData>, payment: Option<Content>)
    | SendCancellation(cancelledId: Option<string>, customerEmail: Option<string>)
      /** A request whose `action` is missing or names no operation of any agent. */
    | OtherRequest(action: Option<string>)
    // Replies.
    | BookingCreated(created: ReservationData)
    | InquiryAnswered(inquiryType: Option<string>, answer: CannedAnswer)
    | RoomAvailable(roomType: RoomType, totalPrice: int, pricePerNight: int, nights: int)
    | RoomUnavailable
    | PriceQuoted(totalPrice: int, pricePerNight: int, nights: int)
    | PaymentCompleted(transactionId: string, amount: int)
    | PaymentDeclined
    | PaymentRefunded(amount: int)
    | ConfirmationSent(confirmationMessage: Notice)
    | CancellationSent
    | BookingUnavailable
    | BookingPaymentFailed
    | BookingSucceeded(booked: ReservationData, paymentReply: Content, confirmationReply: Content)
      /** Every `status: "error"` reply; some also carry `payment_status` or `confirmation_sent`. */
    | ErrorReply(fault: Fault, failedPaymentStatus: Option<PaymentStatus>, confirmationSent: Option<bool>)

  /** `content.get("status")`. */
  function StatusOf(c: Content): Option<ReplyStatus> {
    match c
    case BookingCreated(_) => Some(SuccessStatus)
    case InquiryAnswered(_, _) => Some(SuccessStatus)
    case RoomAvailable(_, _, _, _) => Some(SuccessStatus)
    case RoomUnavailable => Some(SuccessStatus)
    case PriceQuoted(_, _, _) => Some(SuccessStatus)
    case PaymentCompleted(_, _) => Some(SuccessStatus)
    case PaymentDeclined => Some(FailedStatus)
    case PaymentRefunded(_) => Some(SuccessStatus)
    case ConfirmationSent(_) => Some(SuccessStatus)
    case CancellationSent => Some(SuccessStatus)
    case BookingUnavailable => Some(UnavailableStatus)
    case BookingPaymentFailed => Some(PaymentFailedStatus)
    case BookingSucceeded(_, _, _) => Some(SuccessStatus)
    case ErrorReply(_, _, _) => Some(ErrorStatus)
    case _ => None
  }

  /** `content.get("available")`: only availability answers carry the key. */
  function AvailableOf(c: Content): Option<bool> {
    match c
    case RoomAvailable(_, _, _, _) => Some(true)
    case RoomUnavailable => Some(false)
    case _ => None
  }

  /** `content.get("total_price")`. */
  function TotalPriceOf(c: Content): Option<int> {
    match c
    case RoomAvailable(_, total, _, _) => Some(total)
    case PriceQuoted(total, _, _) => Some(total)
    case _ => None
  }

  /** `content.get("payment_status")`. */
  function PaymentStatusOf(c: Content): Option<PaymentStatus> {
    match c
    case PaymentCompleted(_, _) => Some(PaymentStatus.Completed)
    case PaymentDeclined => Some(PaymentStatus.Failed)
    case PaymentRefunded(_) => Some(Refunded)
    case ErrorReply(_, ps, _) => ps
    case _ => None
  }

  /** `content.get("transaction_id")`. */
  function TransactionIdOf(c: Content): Option<string> {
    match c
    case PaymentCompleted(t, _) => Some(t)
    case _ => None
  }

  /** `content.get("reservation")`. */
  function ReservationOf(c: Content): Option<ReservationData> {
    match c
    case CheckAvailability(r) => r
    case CalculatePrice(r) => r
    case SendConfirmation(r, _) => r
    case BookingCreated(r) => Some(r)
    case BookingSucceeded(r, _, _) => Some(r)
    case _ => None
  }

  /** `content.get("customer")`. */
  function CustomerOf(c: Content): Option<CustomerData> {
    match c
    case StartBooking(customer, _, _) => customer
    case CreateBooking(customer, _) => customer
    case _ => None
  }

  /** `content.get("booking")`. */
  function BookingOf(c: Content): Option<BookingData> {
    match c
    case StartBooking(_, booking, _) => booking
    case CreateBooking(_, booking) => booking
    case _ => None
  }

  /** `content.get("payment_method")`. */
  function PaymentMethodOf(c: Content): Option<string> {
    match c
    case StartBooking(_, _, m) => m
    case ProcessPayment(_, _, m) => m
    case _ => None
  }

  /** An available answer says `available: True` and carries its total under `total_price`. */
  lemma RoomAvailableReads(c: Content)
    requires c.RoomAvailable?
    ensures AvailableOf(c) == Some(true) && TotalPriceOf(c) == Some(c.totalPrice)
  {
  }

  /** An error reply has no `available` key, so `get("available", False)` is false for it. */
  lemma ErrorRepliesAreNotAvailable(c: Content)
    requires StatusOf(c) == Some(ErrorStatus)
    ensures AvailableOf(c) != Some(true)
  {
  }

  /** A reply reports `payment_status == "completed"` only when it is a completed charge. */
  lemma CompletedPaymentStatus(c: Content)
    ensures PaymentStatusOf(c) == Some(PaymentStatus.Completed) <==>
              c.PaymentCompleted? || (c.ErrorReply? && c.failedPaymentStatus == Some(PaymentStatus.Completed))
  {
  }

  /**
   * A message id, kept as the structure it is built from: the stamp
   * `send_message` writes, a fixed prefix in front of another id (the
   * coordinator's `coord-recept-...`), or a literal. `IdText` spells it out.
   */
  datatype MessageId =
    | Stamped(agentId: string, at: Clock)
    | Prefixed(prefix: string, base: MessageId)
    | Literal(text: string)

  /** The id as a string: `f"{agent_id}-{now:%Y%m%d%H%M%S%f}"`, `prefix + base`, or the literal. */
  function IdText(id: MessageId): string {
    match id
    case Stamped(a, c) => a + "-" + MicroStampDigits(c)
    case Prefixed(p, b) => p + IdText(b)
    case Literal(t) => t
  }

  /** A stamped id is the agent id, a dash, and twenty digits. */
  lemma StampedIdText(agentId: string, now: Clock)
    ensures var t := IdText(Stamped(agentId, now));
      && |t| == |agentId| + 21
      && t[..|agentId| + 1] == agentId + "-"
      && IsDigits(t[|agentId| + 1..])
  {
    var t := IdText(Stamped(agentId, now));
    MicroStampReadBack(now);
    assert t[|agentId| + 1..] == MicroStampDigits(now);
  }

  /** Two agents whose ids hold no dash never write the same id text at one instant. */
  lemma StampedIdsOfDistinctAgentsDiffer(a: string, b: string, now: Clock)
    requires '-' !in a && '-' !in b && a != b
    ensures IdText(Stamped(a, now)) != IdText(Stamped(b, now))
  {
    var ia, ib := IdText(Stamped(a, now)), IdText(Stamped(b, now));
    if |a| < |b| {
      assert ia[|a|] == '-' && ib[|a|] == b[|a|] != '-';
    } else if |b| < |a| {
      assert ib[|b|] == '-' && ia[|b|] == a[|b|] != '-';
    } else {
      var k :| 0 <= k < |a| && a[k] != b[k];
      assert ia[k] == a[k] && ib[k] == b[k];
    }
  }

  datatype Message = Message(
    messageId: MessageId,
    sender: string,
    receiver: string,
    messageType: MessageType,
    content: Content,
    replyTo: Option<MessageId>)

  /** `AgentMessage(...)`: `reply_to` may be left out and is then none. */
  function NewMessage(
    messageId: MessageId, sender: string, receiver: string, messageType: MessageType,
    content: Content, replyTo: Option<MessageId> := None): (m: Message)
    ensures m.messageId == messageId && m.sender == sender && m.receiver == receiver
    ensures m.messageType == messageType && m.content == content && m.replyTo == replyTo
  {
    Message(messageId, sender, receiver, messageType, content, replyTo)
  }

  lemma ReplyToDefaultsToNone(messageId: MessageId, sender: string, receiver: string, t: MessageType, c: Content)
    ensures NewMessage(messageId, sender, receiver, t, c).replyTo == None
  {
  }

  /**
   * `BaseAgent.send_message`: the sending agent names itself as sender, the
   * id is stamped with its name and the clock, and every other field is
   * copied from the arguments.
   */
  function SendMessage(
    agentId: string, now: Clock, receiver: string, messageType: MessageType,
    content: Content, replyTo: Option<MessageId> := None): (m: Message)
    ensures m.sender == agentId && m.receiver == receiver && m.messageType == messageType
    ensures m.content == content && m.replyTo == replyTo
    ensures m.messageId == Stamped(agentId, now)
  {
    NewMessage(Stamped(agentId, now), agentId, receiver, messageType, content, replyTo)
  }

  /** The text of every id `send_message` generates begins with the sender's id and a dash. */
  lemma SentIdBeginsWithSender(
    agentId: string, now: Clock, receiver: string, messageType: MessageType, content: Content, replyTo: Option<MessageId>)
    ensures var t := IdText(SendMessage(agentId, now, receiver, messageType, content, replyTo).messageId);
      |t| > |agentId| && t[..|agentId| + 1] == agentId + "-"
  {
    StampedIdText(agentId, now);
  }

  /**
   * How every agent answers a request with `send_message`: back to the
   * request's sender, in reply to its id.
   */
  function ReplyFrom(agentId: string, request: Message, now: Clock, t: MessageType, c: Content): (m: Message)
    ensures m.sender == agentId && m.receiver == request.sender && m.replyTo == Some(request.messageId)
    ensures m.messageType == t && m.content == c && m.messageId == Stamped(agentId, now)
  {
    SendMessage(agentId, now, request.sender, t, c, Some(request.messageId))
  }

  /** `BaseAgent.receive_message`: the queue grows by the one message, at its end. */
  function ReceiveMessage(queue: seq<Message>, m: Message): (q: seq<Message>)
    ensures |q| == |queue| + 1 && q[|queue|] == m
    ensures forall i | 0 <= i < |queue| :: q[i] == queue[i]
  {
    queue + [m]
  }
}

/**
 * The confirmation agent: renders the booking confirmation from the
 * reservation and payment dictionaries, logs it per reservation id, and
 * acknowledges cancellations without keeping anything.
 */
module Confirmation {
  import opened Wrappers
  import opened Text
  import opened Stamps
  import opened Models
  import opened Messages

  const AgentId: string := "confirmation"

  /**
   * One entry of `sent_confirmations`. The message is kept as the values it
   * is rendered from; its text is `RenderConfirmation(confirmationMessage)`.
   */
  datatype ConfirmationRecord = ConfirmationRecord(sentAt: Clock, confirmationMessage: Notice, customerEmail: string)

  type ConfirmationStore = map<string, ConfirmationRecord>

  /**
   * The lookups of `_generate_confirmation_message`. Indexing a missing key,
   * or a missing reservation or payment dictionary, raises; `total_price`
   * falls back to 0 when the key is absent but a null price cannot be
   * formatted; a payment without a transaction id reads "N/A".
   */
  function NoticeOf(reservation: Option<ReservationData>, payment: Option<Content>): (n: Option<Notice>)
    ensures n.Some? <==>
      && reservation.Some? && payment.Some?
      && reservation.value.customer.Some? && reservation.value.customer.value.name.Some?
      && reservation.value.reservationId.Some? && reservation.value.roomType.Some?
      && reservation.value.checkIn.Some? && reservation.value.checkOut.Some?
      && reservation.value.guests.Some? && !reservation.value.totalPrice.NullPrice?
    ensures n.Some? ==>
      var d := reservation.value;
      && n.value.customerName == d.customer.value.name.value
      && n.value.reservationId == d.reservationId.value && n.value.roomType == d.roomType.value
      && n.value.checkIn == d.checkIn.value && n.value.checkOut == d.checkOut.value
      && n.value.guests == d.guests.value
      && n.value.total == (if d.totalPrice.Price? then d.totalPrice.amount else 0)
      && n.value.transactionId == TransactionIdOf(payment.value).GetOr("N/A")
  {
    if reservation.None? || payment.None? then None
    else
      var d := reservation.value;
      if d.customer.None? || d.customer.value.name.None? || d.reservationId.None? || d.roomType.None?
         || d.checkIn.None? || d.checkOut.None? || d.guests.None? then None
      else match d.totalPrice
        case NullPrice => None
        case NoPriceKey =>
          Some(Notice(d.customer.value.name.value, d.reservationId.value, d.roomType.value,
                      d.checkIn.value, d.checkOut.value, d.guests.value, 0, TransactionIdOf(payment.value).GetOr("N/A")))
        case Price(a) =>
          Some(Notice(d.customer.value.name.value, d.reservationId.value, d.roomType.value,
                      d.checkIn.value, d.checkOut.value, d.guests.value, a, TransactionIdOf(payment.value).GetOr("N/A")))
  }

  /** `f"{amount:.2f}"` for a whole amount. */
  function MoneyText(amount: int): string {
    ShowInt(amount) + ".00"
  }

  /** The detail lines of the confirmation email, in the order they appear. */
  datatype Detail = ReservationIdLine | RoomTypeLine | CheckInLine | CheckOutLine | GuestsLine | TotalLine | TransactionLine

  function Label(d: Detail): string {
    match d
    case ReservationIdLine => "- Reservation ID: "
    case RoomTypeLine => "- Room Type: "
    case CheckInLine => "- Check-in: "
    case CheckOutLine => "- Check-out: "
    case GuestsLine => "- Number of Guests: "
    case TotalLine => "- Total Amount: $"
    case TransactionLine => "- Transaction ID: "
  }

  /** What the template writes after each label. */
  function DetailValue(n: Notice, d: Detail): string {
    match d
    case ReservationIdLine => n.reservationId
    case RoomTypeLine => n.roomType
    case CheckInLine => ShowInt(n.checkIn)
    case CheckOutLine => ShowInt(n.checkOut)
    case GuestsLine => ShowInt(n.guests)
    case TotalLine => MoneyText(n.total)
    case TransactionLine => n.transactionId
  }

  const Indent: string := "        "

  function DetailLine(n: Notice, d: Detail): string {
    Indent + Label(d) + DetailValue(n, d) + "\n"
  }

  function Salutation(name: string): string {
    "\n" + Indent + "Dear " + name + ",\n"
  }

  const Opening: string := "        \n        Your booking has been confirmed!\n        \n        Reservation Details:\n"

  const Closing: string :=
    "        \n        We look forward to welcoming you!\n        \n        Best regards,\n        Hotel Management\n        "

  const Details: seq<Detail> := [ReservationIdLine, RoomTypeLine, CheckInLine, CheckOutLine, GuestsLine, TotalLine, TransactionLine]

  /** Where a detail sits among the detail lines. */
  function Position(d: Detail): (i: nat)
    ensures i < |Details| && Details[i] == d
  {
    match d
    case ReservationIdLine => 0
    case RoomTypeLine => 1
    case CheckInLine => 2
    case CheckOutLine => 3
    case GuestsLine => 4
    case TotalLine => 5
    case TransactionLine => 6
  }

  /** The lines of the confirmation email, in order: greeting, opening, the details, closing. */
  function NoticeLines(n: Notice): seq<string> {
    [Salutation(n.customerName), Opening]
      + seq(|Details|, i requires 0 <= i < |Details| => DetailLine(n, Details[i]))
      + [Closing]
  }

  /** `_generate_confirmation_message`. */
  function RenderConfirmation(n: Notice): string {
    Concat(NoticeLines(n))
  }

  /** The rendered email greets the customer by name. */
  lemma RenderGreets(n: Notice)
    ensures Contains(RenderConfirmation(n), Salutation(n.customerName))
  {
    ConcatContains(NoticeLines(n), 0);
  }

  /** The rendered email carries every detail on its labelled line. */
  lemma RenderShowsDetail(n: Notice, d: Detail)
    ensures Contains(RenderConfirmation(n), DetailLine(n, d))
  {
    var i := 2 + Position(d);
    assert NoticeLines(n)[i] == DetailLine(n, d);
    ConcatContains(NoticeLines(n), i);
  }

  /** The state after a step, with the reply it produced. */
  datatype Step = Step(store: ConfirmationStore, reply: Message)

  /** `reservation_data["customer"]["email"]`. */
  function EmailOf(reservation: Option<ReservationData>): Option<string> {
    if reservation.Some? && reservation.value.customer.Some? then reservation.value.customer.value.email else None
  }

  /**
   * `_send_confirmation`: renders the email, then stores (or overwrites) the
   * log entry for the reservation id. Any lookup that fails leaves the log as
   * it was and answers with an ERROR saying nothing was sent.
   */
  function SendConfirmation(
    store: ConfirmationStore, request: Message, reservation: Option<ReservationData>,
    payment: Option<Content>, now: Clock): (s: Step)
    ensures s.reply.sender == AgentId && s.reply.receiver == request.sender && s.reply.replyTo == Some(request.messageId)
    ensures s.reply.messageType == Response <==> NoticeOf(reservation, payment).Some? && EmailOf(reservation).Some?
    ensures s.reply.messageType == Response ==>
      var n := NoticeOf(reservation, payment).value;
      && s.reply.content == ConfirmationSent(n)
      && s.store == store[n.reservationId := ConfirmationRecord(now, n, EmailOf(reservation).value)]
    ensures s.reply.messageType != Response ==>
      && s.store == store && s.reply.messageType == Error
      && s.reply.content == ErrorReply(ConfirmationFault, None, Some(false))
  {
    match NoticeOf(reservation, payment)
    case None => Step(store, ReplyFrom(AgentId, request, now, Error, ErrorReply(ConfirmationFault, None, Some(false))))
    case Some(n) =>
      match EmailOf(reservation)
      case None => Step(store, ReplyFrom(AgentId, request, now, Error, ErrorReply(ConfirmationFault, None, Some(false))))
      case Some(email) =>
        Step(store[n.reservationId := ConfirmationRecord(now, n, email)], ReplyFrom(AgentId, request, now, Response, ConfirmationSent(n)))
  }

  /**
   * A confirmation that went through is logged under the reservation id with
   * the very message the reply carries, and the reply reports success; the
   * entries of every other reservation stay as they were.
   */
  lemma SentConfirmationIsLogged(
    store: ConfirmationStore, request: Message, reservation: Option<ReservationData>,
    payment: Option<Content>, now: Clock)
    ensures var s := SendConfirmation(store, request, reservation, payment, now);
      s.reply.content.ConfirmationSent? ==>
        && reservation.Some? && reservation.value.reservationId.Some?
        && reservation.value.reservationId.value in s.store
        && s.store[reservation.value.reservationId.value].confirmationMessage == s.reply.content.confirmationMessage
        && StatusOf(s.reply.content) == Some(SuccessStatus)
    ensures var s := SendConfirmation(store, request, reservation, payment, now);
      forall id | id in store && (reservation.None? || reservation.value.reservationId != Some(id)) ::
        id in s.store && s.store[id] == store[id]
  {
  }

  /**
   * A dumped reservation whose price has been filled in, with a completed
   * payment, is always confirmable, whatever its statuses say: the log entry
   * keeps the customer's email and a message whose total and transaction id
   * are the filled-in price and the payment's transaction id, so the email
   * shows them (`RenderShowsDetail`).
   */
  lemma DumpedReservationConfirms(
    store: ConfirmationStore, request: Message, r: Reservation, total: int,
    bookingStatus: Option<BookingStatus>, paymentStatus: Option<PaymentStatus>,
    transactionId: string, amount: int, now: Clock)
    ensures
      var d := Dump(r).(totalPrice := Price(total), bookingStatus := bookingStatus, paymentStatus := paymentStatus);
      var s := SendConfirmation(store, request, Some(d), Some(PaymentCompleted(transactionId, amount)), now);
      && s.reply.messageType == Response
      && s.store.Keys == store.Keys + {r.reservationId}
      && s.store[r.reservationId].customerEmail == r.customer.email
      && var n := s.store[r.reservationId].confirmationMessage;
      && n.total == total && n.transactionId == transactionId
      && n.reservationId == r.reservationId && n.roomType == RoomTypeName(r.roomType) && n.customerName == r.customer.name
  {
  }

  /** With no `total_price` key the email shows 0.00, and with no transaction id it shows N/A. */
  lemma RenderDefaults(d: ReservationData, payment: Content)
    requires NoticeOf(Some(d), Some(payment)).Some?
    requires d.totalPrice == NoPriceKey && TransactionIdOf(payment).None?
    ensures var n := NoticeOf(Some(d), Some(payment)).value;
      DetailValue(n, TotalLine) == "0.00" && DetailValue(n, TransactionLine) == "N/A"
  {
  }

  /** `_send_cancellation`: always acknowledged, nothing stored, whatever the id and email. */
  function SendCancellation(request: Message, now: Clock): (m: Message)
    ensures m.sender == AgentId && m.receiver == request.sender && m.replyTo == Some(request.messageId)
    ensures m.messageType == Response && m.content == CancellationSent && StatusOf(m.content) == Some(SuccessStatus)
  {
    ReplyFrom(AgentId, request, now, Response, CancellationSent)
  }

  /** `ConfirmationAgent.process_message`. */
  function Process(store: ConfirmationStore, request: Message, now: Clock): (r: (ConfirmationStore, Option<Message>))
    ensures r.1.Some? <==> request.messageType == Request && (request.content.SendConfirmation? || request.content.SendCancellation?)
    ensures r.1.Some? ==> r.1.value.sender == AgentId && r.1.value.replyTo == Some(request.messageId)
    ensures !request.content.SendConfirmation? ==> r.0 == store
  {
    if request.messageType != Request then (store, None)
    else match request.content
      case SendConfirmation(reservation, payment) =>
        var s := SendConfirmation(store, request, reservation, payment, now);
        (s.store, Some(s.reply))
      case SendCancellation(_, _) => (store, Some(SendCancellation(request, now)))
      case _ => (store, None)
  }

  /** A confirmation request is answered by `_send_confirmation`, and only it changes the log. */
  lemma ConfirmationAnswered(store: ConfirmationStore, request: Message, now: Clock)
    requires request.messageType == Request && request.content.SendConfirmation?
    ensures var s := SendConfirmation(store, request, request.content.reservation, request.content.payment, now);
      Process(store, request, now) == (s.store, Some(s.reply))
  {
  }
}

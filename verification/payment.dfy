/**
 * The payment agent: a simulated charge whose outcome and transaction suffix
 * are supplied by the caller, a refund, and the `processed_payments` store
 * keyed by reservation id.
 */
module Payment {
  import opened Wrappers
  import opened Text
  import opened Stamps
  import opened Models
  import opened Messages

  const AgentId: string := "payment"
  const DefaultMethod: string := "credit_card"

  /** The range of `random.randint(1000, 9999)`. */
  type Suffix = n: int | 1000 <= n <= 9999 witness 1000

  datatype PaymentRecord = PaymentRecord(
    transactionId: string, amount: Option<int>, status: PaymentStatus, paymentMethod: string)

  type PaymentStore = map<string, PaymentRecord>

  /** "TXN", the reservation id, then four digits that read back as the suffix. */
  function TransactionId(reservationId: string, suffix: Suffix): (t: string)
    ensures |t| == |reservationId| + 7
    ensures t[..3] == "TXN" && t[3..3 + |reservationId|] == reservationId
    ensures IsDigits(t[3 + |reservationId|..]) && ReadNat(t[3 + |reservationId|..]) == suffix
  {
    assert Pow10(3) == 1000 && Pow10(4) == 10000;
    Text.FixedDigitsOfFullWidth(suffix, 4);
    Text.ReadShowNat(suffix);
    var t := "TXN" + reservationId + ShowNat(suffix);
    assert t[3 + |reservationId|..] == ShowNat(suffix);
    t
  }

  /** The state after a step, with the reply it produced. */
  datatype Step = Step(store: PaymentStore, reply: Message)

  /**
   * `_process_payment`. On approval the record is stored first; formatting
   * the amount comes after, so a missing amount leaves the record in place
   * and turns the reply into an ERROR that still says `payment_status: failed`.
   */
  function ProcessPayment(
    store: PaymentStore, request: Message, reservationId: string, amount: Option<int>,
    paymentMethod: Option<string>, now: Clock, approved: bool, suffix: Suffix): (s: Step)
    ensures s.reply.sender == AgentId && s.reply.receiver == request.sender && s.reply.replyTo == Some(request.messageId)
    ensures approved ==>
              s.store == store[reservationId := PaymentRecord(
                TransactionId(reservationId, suffix), amount, PaymentStatus.Completed, paymentMethod.GetOr(DefaultMethod))]
    ensures approved && amount.Some? ==>
              s.reply.messageType == Response && s.reply.content == PaymentCompleted(TransactionId(reservationId, suffix), amount.value)
    ensures approved && amount.None? ==>
              s.reply.messageType == Error && s.reply.content == ErrorReply(PaymentFault, Some(PaymentStatus.Failed), None)
    ensures !approved ==> s.store == store && s.reply.messageType == Response && s.reply.content == PaymentDeclined
  {
    if approved then
      var txn := TransactionId(reservationId, suffix);
      var store' := store[reservationId := PaymentRecord(txn, amount, PaymentStatus.Completed, paymentMethod.GetOr(DefaultMethod))];
      match amount
      case Some(a) => Step(store', ReplyFrom(AgentId, request, now, Response, PaymentCompleted(txn, a)))
      case None => Step(store', ReplyFrom(AgentId, request, now, Error, ErrorReply(PaymentFault, Some(PaymentStatus.Failed), None)))
    else
      Step(store, ReplyFrom(AgentId, request, now, Response, PaymentDeclined))
  }

  /**
   * The reply reports `payment_status: completed` exactly when the charge was
   * approved and had an amount; otherwise it reports `failed`, and only a
   * completed charge carries a transaction id.
   */
  lemma ChargeStatus(
    store: PaymentStore, request: Message, reservationId: string, amount: Option<int>,
    paymentMethod: Option<string>, now: Clock, approved: bool, suffix: Suffix)
    ensures var c := ProcessPayment(store, request, reservationId, amount, paymentMethod, now, approved, suffix).reply.content;
      && PaymentStatusOf(c) == (if approved && amount.Some? then Some(PaymentStatus.Completed) else Some(PaymentStatus.Failed))
      && (TransactionIdOf(c).Some? <==> approved && amount.Some?)
      && StatusOf(c) == (if !approved then Some(FailedStatus) else if amount.Some? then Some(SuccessStatus) else Some(ErrorStatus))
  {
  }

  /**
   * `_refund_payment`: marks the stored record refunded in place, without
   * looking at its current status, and reports the stored amount.
   */
  function RefundPayment(store: PaymentStore, request: Message, reservationId: string, now: Clock): (s: Step)
    ensures s.reply.sender == AgentId && s.reply.receiver == request.sender && s.reply.replyTo == Some(request.messageId)
    ensures reservationId !in store ==>
              && s.store == store && s.reply.messageType == Error
              && s.reply.content == ErrorReply(NoPaymentFound, None, None)
    ensures reservationId in store ==>
              && s.store.Keys == store.Keys
              && s.store[reservationId] == store[reservationId].(status := Refunded)
              && (forall id | id in store && id != reservationId :: s.store[id] == store[id])
    ensures reservationId in store && store[reservationId].amount.Some? ==>
              && s.reply.messageType == Response
              && s.reply.content == PaymentRefunded(store[reservationId].amount.value)
              && PaymentStatusOf(s.reply.content) == Some(Refunded)
    ensures reservationId in store && store[reservationId].amount.None? ==>
              && s.reply.messageType == Error
              && s.reply.content == ErrorReply(RefundFault, None, None)
  {
    if reservationId in store then
      var record := store[reservationId];
      var store' := store[reservationId := record.(status := Refunded)];
      match record.amount
      case Some(a) => Step(store', ReplyFrom(AgentId, request, now, Response, PaymentRefunded(a)))
      case None => Step(store', ReplyFrom(AgentId, request, now, Error, ErrorReply(RefundFault, None, None)))
    else
      Step(store, ReplyFrom(AgentId, request, now, Error, ErrorReply(NoPaymentFound, None, None)))
  }

  /** A charge that went through can be refunded, for the amount charged. */
  lemma RefundAfterCharge(
    store: PaymentStore, charge: Message, refund: Message, reservationId: string, amount: int,
    paymentMethod: Option<string>, now: Clock, suffix: Suffix)
    ensures
      var charged := ProcessPayment(store, charge, reservationId, Some(amount), paymentMethod, now, true, suffix);
      var refunded := RefundPayment(charged.store, refund, reservationId, now);
      && refunded.reply.content == PaymentRefunded(amount)
      && refunded.store[reservationId].status == Refunded
      && refunded.store[reservationId].transactionId == charged.store[reservationId].transactionId
  {
  }

  /** Refunding twice succeeds twice with the same amount and leaves the same store. */
  lemma RefundTwice(store: PaymentStore, r1: Message, r2: Message, reservationId: string, now: Clock)
    requires reservationId in store && store[reservationId].amount.Some?
    ensures
      var first := RefundPayment(store, r1, reservationId, now);
      var second := RefundPayment(first.store, r2, reservationId, now);
      && second.reply.content == first.reply.content == PaymentRefunded(store[reservationId].amount.value)
      && second.store == first.store
  {
  }

  /** A declined charge leaves the store as it was, so a refund afterwards finds nothing new. */
  lemma DeclinedChargeLeavesNothingToRefund(
    store: PaymentStore, charge: Message, refund: Message, reservationId: string, amount: Option<int>,
    paymentMethod: Option<string>, now: Clock, suffix: Suffix)
    requires reservationId !in store
    ensures
      var declined := ProcessPayment(store, charge, reservationId, amount, paymentMethod, now, false, suffix);
      RefundPayment(declined.store, refund, reservationId, now).reply.content == ErrorReply(NoPaymentFound, None, None)
  {
  }

  /**
   * `PaymentAgent.process_message`. `approved` stands for `random.random() < 0.9`
   * and `suffix` for `random.randint(1000, 9999)`.
   */
  function Process(store: PaymentStore, request: Message, now: Clock, approved: bool, suffix: Suffix): (r: (PaymentStore, Option<Message>))
    ensures r.1.Some? <==> request.messageType == Request && (request.content.ProcessPayment? || request.content.RefundPayment?)
    ensures r.1.None? ==> r.0 == store
    ensures r.1.Some? ==> r.1.value.sender == AgentId && r.1.value.replyTo == Some(request.messageId)
  {
    if request.messageType != Request then (store, None)
    else match request.content
      case ProcessPayment(id, amount, chosen) =>
        var s := ProcessPayment(store, request, id, amount, chosen, now, approved, suffix);
        (s.store, Some(s.reply))
      case RefundPayment(id) =>
        var s := RefundPayment(store, request, id, now);
        (s.store, Some(s.reply))
      case _ => (store, None)
  }

  /**
   * A charge request is answered by `_process_payment`: the answer reports a
   * completed payment exactly when the charge is approved and has an
   * amount, and the store is the one the charge left.
   */
  lemma ChargeAnswered(store: PaymentStore, request: Message, now: Clock, approved: bool, suffix: Suffix)
    requires request.messageType == Request && request.content.ProcessPayment?
    ensures var c := request.content;
      var s := ProcessPayment(store, request, c.reservationId, c.chargeAmount, c.paymentMethod, now, approved, suffix);
      && Process(store, request, now, approved, suffix) == (s.store, Some(s.reply))
      && (PaymentStatusOf(s.reply.content) == Some(PaymentStatus.Completed) <==> approved && c.chargeAmount.Some?)
  {
    var c := request.content;
    ChargeStatus(store, request, c.reservationId, c.chargeAmount, c.paymentMethod, now, approved, suffix);
  }
}

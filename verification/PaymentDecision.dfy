/** From a gateway event and what the tables say of it to what is to be done. */
module PaymentDecision {
  import opened Wrappers
  import opened OrderState

  datatype PaymentStatus = Pending | Processing | Succeeded | Failed | Cancelled | Expired

  /** A gateway event: a success, a failure, a cancellation, or something else. */
  datatype GatewayOutcome =
    | OutcomeSucceeded(intentId: nat, amountMinor: int, currency: string)
    | OutcomeFailed(intentId: nat)
    | OutcomeCancelled(intentId: nat)
    | OutcomeIgnored

  /** What was read of the payment row for an intent. */
  datatype PaymentRecord = PaymentRecord(id: nat, orderId: nat, amountMinor: int, currency: string, status: PaymentStatus)

  datatype OrderRecord = OrderRecord(id: nat, status: OrderStatus)

  datatype RefuseReason = NoPaymentRow | AmountMismatch | CurrencyMismatch | NoOrder | OrderNotPayable | ContradictsSuccess

  datatype Decision =
    | MarkPaid(paymentId: nat, orderId: nat)
    | MarkPayment(paymentId: nat, status: PaymentStatus)
    | Skip
    | Refuse(why: RefuseReason)

  function Decide(outcome: GatewayOutcome, payment: Option<PaymentRecord>, order: Option<OrderRecord>): Decision {
    if outcome.OutcomeIgnored? then Skip
    else if payment.None? then Refuse(NoPaymentRow)
    else if outcome.OutcomeSucceeded? then DecideSuccess(outcome, payment.value, order)
    else
      var status := if outcome.OutcomeFailed? then PaymentStatus.Failed else PaymentStatus.Cancelled;
      if payment.value.status == status then Skip
      else if payment.value.status.Succeeded? then Refuse(ContradictsSuccess)
      else MarkPayment(payment.value.id, status)
  }

  function DecideSuccess(outcome: GatewayOutcome, payment: PaymentRecord, order: Option<OrderRecord>): Decision
    requires outcome.OutcomeSucceeded?
  {
    if payment.amountMinor != outcome.amountMinor then Refuse(AmountMismatch)
    else if payment.currency != outcome.currency then Refuse(CurrencyMismatch)
    else if order.None? then Refuse(NoOrder)
    else if order.value.status.Paid? then Skip
    else if !order.value.status.PendingPayment? then Refuse(OrderNotPayable)
    else MarkPaid(payment.id, order.value.id)
  }

  /** Why an event is left for a person to look at, the first reason first. */
  lemma RefusedBecause(outcome: GatewayOutcome, payment: Option<PaymentRecord>, order: Option<OrderRecord>)
    ensures var d := Decide(outcome, payment, order);
            && (d == Refuse(NoPaymentRow) <==> outcome != OutcomeIgnored && payment == None)
            && (d == Refuse(ContradictsSuccess) <==>
                  payment.Some? && payment.value.status == Succeeded && (outcome.OutcomeFailed? || outcome.OutcomeCancelled?))
            && (d == Refuse(AmountMismatch) <==> outcome.OutcomeSucceeded? && payment.Some? && payment.value.amountMinor != outcome.amountMinor)
            && (d == Refuse(CurrencyMismatch) <==>
                  outcome.OutcomeSucceeded? && payment.Some? && payment.value.amountMinor == outcome.amountMinor && payment.value.currency != outcome.currency)
            && (d == Refuse(NoOrder) <==>
                  outcome.OutcomeSucceeded? && payment.Some? && payment.value.amountMinor == outcome.amountMinor
                  && payment.value.currency == outcome.currency && order == None)
            && (d == Refuse(OrderNotPayable) <==>
                  outcome.OutcomeSucceeded? && payment.Some? && payment.value.amountMinor == outcome.amountMinor
                  && payment.value.currency == outcome.currency && order.Some? && order.value.status !in {PendingPayment, Paid})
  {
  }
}

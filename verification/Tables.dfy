/**
 The database tables and the transactions that change them. A table is the
 sequence of its rows in insertion order and a row's id is its position, so ids
 are unique and never reused. A transaction either yields the next database or,
 when a guard or a constraint refuses it, nothing: everything it wrote is rolled back.
 */
module Tables {
  import opened Wrappers
  import opened OrderState
  import opened PaymentDecision
  import opened Pricing
  import opened QueueNumber
  import Vat

  datatype Provider = Stripe | Cash

  /** Who asks: a member of staff, or an unattended tablet. */
  datatype Principal = Staff(userId: nat) | KioskDevice(deviceId: nat)

  datatype OrderChannel = Kiosk | Counter

  datatype PaymentMethod = Card | PromptPay | CashInHand

  /** An `orders` row with its lines and its audit trail. `hour` is the local hour of its creation. */
  datatype Order = Order(status: OrderStatus, priced: PricedOrder, currency: string, businessDay: int, hour: int,
                         kioskDevice: Option<nat>, orderNumber: Option<string>, expiresAt: Option<int>, history: seq<HistoryRow>)

  datatype Payment = Payment(orderId: nat, provider: Provider, intentId: Option<nat>, rail: Option<PaymentMethod>,
                             status: PaymentStatus, amountMinor: int, currency: string, idempotencyKey: Option<string>)

  datatype Refund = Refund(paymentId: nat, amountMinor: int)

  /** A `payment_events` row of the webhook inbox. */
  datatype Event = Event(providerEventId: string, outcome: GatewayOutcome, paymentId: Option<nat>, processed: bool)

  datatype Db = Db(orders: seq<Order>, payments: seq<Payment>, refunds: seq<Refund>, events: seq<Event>, counters: map<int, nat>)

  const EMPTY_DB: Db := Db([], [], [], [], map[])

  /** A payment that may still settle; an order has at most one. */
  predicate IsLive(status: PaymentStatus) {
    status.Pending? || status.Processing?
  }

  function Total(order: Order): int {
    order.priced.totalMinor
  }

  // ----- Queue numbers -----

  function CounterOf(db: Db, day: int): nat {
    if day in db.counters then db.counters[day] else 0
  }

  /** Claims the next number of a business day: the counter row is created at 1 or incremented. */
  function ClaimNumber(db: Db, day: int): Db {
    db.(counters := db.counters[day := CounterOf(db, day) + 1])
  }

  function ClaimedNumber(db: Db, day: int): string {
    FormatOrderNumber(CounterOf(db, day) + 1)
  }

  // ----- Orders -----

  /** The guarded move: only an order still in `from` moves, and the move is written to its history. */
  function TransitionOrder(db: Db, orderId: nat, from: OrderStatus, to: OrderStatus, actor: ActorType, reason: Option<string>): Option<Db> {
    if orderId < |db.orders| && db.orders[orderId].status == from then
      var o := db.orders[orderId];
      Some(db.(orders := db.orders[orderId := o.(status := to,
                                                 expiresAt := if from.PendingPayment? then None else o.expiresAt,
                                                 history := o.history + [HistoryRow(Some(from), to, actor, reason)])]))
    else None
  }

  /** A basket and everything its transaction reads: who asks, the device's state, the catalog, the settings and the clock. */
  datatype OrderRequest = OrderRequest(principal: Principal, channel: OrderChannel, draft: bool, devicePaused: bool,
                                       items: seq<RequestedItem>, expectedTotalMinor: Option<int>, catalog: Catalog,
                                       vatBasisPoints: int, currency: string, day: int, hour: int, expiresAt: int)

  function ActorOf(principal: Principal): ActorType {
    if principal.KioskDevice? then Device else User
  }

  function DeviceOf(principal: Principal): Option<nat> {
    if principal.KioskDevice? then Some(principal.deviceId) else None
  }

  function ChannelOf(principal: Principal): OrderChannel {
    if principal.KioskDevice? then Kiosk else Counter
  }

  predicate QuantitiesOk(items: seq<RequestedItem>) {
    forall i :: 0 <= i < |items| ==> 1 <= items[i].quantity <= 50
  }

  /** The channel is the asker's own, and a device neither parks orders nor orders while paused. */
  predicate ChannelOk(request: OrderRequest) {
    && request.channel == ChannelOf(request.principal)
    && (request.principal.KioskDevice? ==> !request.draft && !request.devicePaused)
  }

  /** The basket may be ordered at the price the asker was shown, if it was shown one. */
  predicate Admitted(request: OrderRequest) {
    && QuantitiesOk(request.items) && ChannelOk(request) && Accepts(request.items, request.catalog)
    && (request.expectedTotalMinor.Some? ==> request.expectedTotalMinor.value == Amount(request.items, request.catalog))
  }

  /** Prices a basket and writes the order, or refuses it whole. A draft claims no number and no payment window. */
  function CreateOrder(db: Db, request: OrderRequest): Option<Db>
    requires Vat.ValidRate(request.vatBasisPoints)
  {
    if !Admitted(request) then None else
      var priced := Quote(request.items, request.catalog, request.vatBasisPoints);
      var device, actor := DeviceOf(request.principal), ActorOf(request.principal);
      if request.draft then
        Some(db.(orders := db.orders + [Order(Draft, priced, request.currency, request.day, request.hour, device, None, None,
                                              [HistoryRow(None, Draft, actor, None)])]))
      else
        var number := ClaimedNumber(db, request.day);
        var claimed := ClaimNumber(db, request.day);
        Some(claimed.(orders := db.orders + [Order(PendingPayment, priced, request.currency, request.day, request.hour, device,
                                                   Some(number), Some(request.expiresAt),
                                                   [HistoryRow(None, PendingPayment, actor, None)])]))
  }

  /** A draft joins the queue: it moves, and then takes the day's next number and a deadline. */
  function Checkout(db: Db, orderId: nat, expiresAt: int, actor: ActorType): Option<Db> {
    var moved := TransitionOrder(db, orderId, Draft, PendingPayment, actor, None);
    if moved.None? then None else
      var o := moved.value.orders[orderId];
      var number := ClaimedNumber(moved.value, o.businessDay);
      var claimed := ClaimNumber(moved.value, o.businessDay);
      Some(claimed.(orders := claimed.orders[orderId := o.(orderNumber := Some(number), expiresAt := Some(expiresAt))]))
  }

  // ----- Payments -----

  predicate HasLivePayment(db: Db, orderId: nat) {
    exists p :: 0 <= p < |db.payments| && db.payments[p].orderId == orderId && IsLive(db.payments[p].status)
  }

  predicate IntentTaken(db: Db, intentId: nat) {
    exists p :: 0 <= p < |db.payments| && db.payments[p].intentId == Some(intentId)
  }

  predicate KeyUsed(db: Db, key: string) {
    exists p :: 0 <= p < |db.payments| && db.payments[p].idempotencyKey == Some(key)
  }

  /** Inserts a payment row unless a constraint refuses it: a positive amount, an existing order, one live payment, one row per intent and per key. */
  function InsertPayment(db: Db, payment: Payment): Option<Db> {
    if payment.amountMinor > 0
       && payment.orderId < |db.orders|
       && (IsLive(payment.status) ==> !HasLivePayment(db, payment.orderId))
       && (payment.intentId.Some? ==> !IntentTaken(db, payment.intentId.value))
       && (payment.idempotencyKey.Some? ==> !KeyUsed(db, payment.idempotencyKey.value))
    then Some(db.(payments := db.payments + [payment]))
    else None
  }

  function SetPayment(db: Db, paymentId: nat, status: PaymentStatus, rail: Option<PaymentMethod>): Db {
    if paymentId < |db.payments| then
      var p := db.payments[paymentId];
      db.(payments := db.payments[paymentId := p.(status := status, rail := if rail.None? then p.rail else rail)])
    else db
  }

  /** Cash is settled in one transaction: a payment born SUCCEEDED beside the order moving to PAID. */
  function TakeCash(db: Db, orderId: nat, totalMinor: int, currency: string, key: Option<string>): Option<Db> {
    var inserted := InsertPayment(db, Payment(orderId, Cash, None, Some(CashInHand), PaymentStatus.Succeeded, totalMinor, currency, key));
    if inserted.None? then None else TransitionOrder(inserted.value, orderId, PendingPayment, Paid, User, None)
  }

  function OpenGatewayPayment(db: Db, orderId: nat, totalMinor: int, currency: string, intentId: nat, key: Option<string>): Option<Db> {
    InsertPayment(db, Payment(orderId, Stripe, Some(intentId), None, PaymentStatus.Pending, totalMinor, currency, key))
  }

  // ----- The inbox -----

  /** Adds an event to the inbox unless one with its id is there. */
  function RecordEvent(db: Db, providerEventId: string, outcome: GatewayOutcome): Db {
    if exists e :: 0 <= e < |db.events| && db.events[e].providerEventId == providerEventId then db
    else db.(events := db.events + [Event(providerEventId, outcome, None, false)])
  }

  function UnprocessedIn(db: Db): nat -> bool {
    (e: nat) => e < |db.events| && !db.events[e].processed
  }

  function MarkProcessed(db: Db, event: nat, paymentId: Option<nat>): Db {
    if event < |db.events| && !db.events[event].processed then
      var e := db.events[event];
      db.(events := db.events[event := e.(processed := true, paymentId := if paymentId.None? then e.paymentId else paymentId)])
    else db
  }

  function ApplyMarkPaid(db: Db, event: nat, paymentId: nat, orderId: nat, rail: Option<PaymentMethod>): Option<Db> {
    var moved := TransitionOrder(db, orderId, PendingPayment, Paid, System, None);
    if moved.None? then None else
      Some(MarkProcessed(SetPayment(moved.value, paymentId, PaymentStatus.Succeeded, rail), event, Some(paymentId)))
  }

  /** A failure or cancellation never overwrites a settled payment. */
  function ApplyMarkPayment(db: Db, event: nat, paymentId: nat, status: PaymentStatus): Db {
    var marked := if paymentId < |db.payments| && !db.payments[paymentId].status.Succeeded?
                  then SetPayment(db, paymentId, status, None) else db;
    MarkProcessed(marked, event, Some(paymentId))
  }

  // ----- The doors that close an unpaid order -----

  /** Cancellation guards its payment write on the status. */
  function ApplyCancel(db: Db, orderId: nat, from: OrderStatus, live: Option<nat>, actor: ActorType, reason: Option<string>): Option<Db> {
    var moved := TransitionOrder(db, orderId, from, OrderStatus.Cancelled, actor, reason);
    if moved.None? then None
    else if live.Some? && live.value < |db.payments| && !db.payments[live.value].status.Succeeded? then
      Some(SetPayment(moved.value, live.value, PaymentStatus.Cancelled, None))
    else moved
  }

  /** Expiry overwrites its payment with no guard on the status. */
  function ApplyExpiry(db: Db, orderId: nat, live: Option<nat>): Option<Db> {
    var moved := TransitionOrder(db, orderId, PendingPayment, OrderStatus.Expired, System, None);
    if moved.None? then None
    else if live.Some? then Some(SetPayment(moved.value, live.value, PaymentStatus.Cancelled, None))
    else moved
  }

  // ----- Refunds -----

  function RefundedOf(refunds: seq<Refund>, paymentId: nat): int {
    if refunds == [] then 0 else
      var r := refunds[|refunds| - 1];
      RefundedOf(refunds[..|refunds| - 1], paymentId) + if r.paymentId == paymentId then r.amountMinor else 0
  }

  /**
   Refunding behind the payment row's lock. `captured` and `from` were read before
   the lock was taken; the sum already refunded is read behind it.
   */
  function ApplyRefund(db: Db, paymentId: nat, captured: int, orderId: nat, from: OrderStatus, amountMinor: int, reason: string): Option<Db> {
    var already := RefundedOf(db.refunds, paymentId);
    if amountMinor <= 0 || amountMinor > captured - already then None else
      var written := db.(refunds := db.refunds + [Refund(paymentId, amountMinor)]);
      if already + amountMinor == captured
      then TransitionOrder(written, orderId, from, Refunded, User, Some(reason))
      else Some(written)
  }
}

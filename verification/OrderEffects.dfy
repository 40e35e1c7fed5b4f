/**
 What each request leaves in the tables and at the gateway, row by row and field by
 field, told without the functions that compute it: which rows change, what they
 become, and that nothing else does.
 */
module OrderEffects {
  import opened Wrappers
  import opened OrderState
  import opened PaymentDecision
  import opened Pricing
  import opened QueueNumber
  import opened Tables
  import opened Protocol
  import opened Invariants
  import opened Store
  import opened Services
  import Vat

  // ----- Rows as they become -----

  /** The order after one move: a new status, no deadline once it leaves PENDING_PAYMENT, and one more history row. */
  function Moved(o: Order, to: OrderStatus, actor: ActorType, reason: Option<string>): Order {
    Order(to, o.priced, o.currency, o.businessDay, o.hour, o.kioskDevice, o.orderNumber,
          if o.status == PendingPayment then None else o.expiresAt,
          o.history + [HistoryRow(Some(o.status), to, actor, reason)])
  }

  function WithStatus(p: Payment, status: PaymentStatus): Payment {
    Payment(p.orderId, p.provider, p.intentId, p.rail, status, p.amountMinor, p.currency, p.idempotencyKey)
  }

  function Stamped(e: Event, paymentId: Option<nat>): Event {
    Event(e.providerEventId, e.outcome, paymentId, true)
  }

  // ----- The inbox -----

  /** In the books an intent is behind at most one payment, so looking it up finds that one. */
  lemma FoundByIntent(c: Core, intentId: nat, p: nat)
    requires CoreInv(c) && p < |c.db.payments| && c.db.payments[p].intentId == Some(intentId)
    ensures PaymentOfIntent(c.db, intentId) == Some(p)
  {
    PaymentOfIntentIs(c.db.payments, intentId);
    assert UniqueIntents(c.db);
  }

  lemma NoneByIntent(c: Core, intentId: nat)
    requires forall p :: 0 <= p < |c.db.payments| ==> c.db.payments[p].intentId != Some(intentId)
    ensures PaymentOfIntent(c.db, intentId).None?
  {
    PaymentOfIntentIs(c.db.payments, intentId);
  }

  ghost predicate Waiting(db: Db, e: nat) {
    e < |db.events| && !db.events[e].processed
  }

  /** A matching success of an unpaid order pays it: the order, its payment with the rail it was paid by, and the event. */
  lemma SuccessPays(c: Core, e: nat, p: nat, rail: Option<PaymentMethod>)
    requires CoreInv(c) && Waiting(c.db, e) && Matches(c.db, c.db.events[e].outcome, p)
    requires c.db.orders[c.db.payments[p].orderId].status == PendingPayment
    ensures var o, row := c.db.payments[p].orderId, WithStatus(c.db.payments[p], PaymentStatus.Succeeded);
            EventStep(c.db, e, rail) ==
            Some(c.db.(orders := c.db.orders[o := Moved(c.db.orders[o], Paid, System, None)],
                       payments := c.db.payments[p := if rail.Some? then row.(rail := rail) else row],
                       events := c.db.events[e := Stamped(c.db.events[e], Some(p))]))
    ensures Acts(c.db, e)
  {
    FoundByIntent(c, c.db.events[e].outcome.intentId, p);
    assert PaymentRowOk(c.db, c.gateway, c.db.payments[p]);
  }

  /** A matching success of a PAID order is set aside: only the event changes. */
  lemma SuccessOfPaidIsSetAside(c: Core, e: nat, p: nat, rail: Option<PaymentMethod>)
    requires CoreInv(c) && Waiting(c.db, e) && Matches(c.db, c.db.events[e].outcome, p)
    requires c.db.orders[c.db.payments[p].orderId].status == Paid
    ensures EventStep(c.db, e, rail) == Some(c.db.(events := c.db.events[e := Stamped(c.db.events[e], Some(p))]))
    ensures !Acts(c.db, e)
  {
    FoundByIntent(c, c.db.events[e].outcome.intentId, p);
    assert PaymentRowOk(c.db, c.gateway, c.db.payments[p]);
  }

  /** A success is left waiting exactly when no payment agrees with it, or the one that does is for an order past paying. */
  lemma SuccessWaitsIff(c: Core, e: nat, rail: Option<PaymentMethod>)
    requires CoreInv(c) && Waiting(c.db, e) && c.db.events[e].outcome.OutcomeSucceeded?
    ensures EventStep(c.db, e, rail).None? <==>
            forall p: nat :: Matches(c.db, c.db.events[e].outcome, p) ==>
              c.db.orders[c.db.payments[p].orderId].status !in {PendingPayment, Paid}
    ensures EventStep(c.db, e, rail).None? ==> !Acts(c.db, e)
  {
    var outcome := c.db.events[e].outcome;
    if p: nat :| Matches(c.db, outcome, p) {
      FoundByIntent(c, outcome.intentId, p);
      assert PaymentRowOk(c.db, c.gateway, c.db.payments[p]);
      forall q: nat | Matches(c.db, outcome, q) ensures q == p {
        FoundByIntent(c, outcome.intentId, q);
      }
    } else {
      UnmatchedWaits(c, e, rail);
    }
  }

  lemma UnmatchedWaits(c: Core, e: nat, rail: Option<PaymentMethod>)
    requires CoreInv(c) && Waiting(c.db, e) && c.db.events[e].outcome.OutcomeSucceeded?
    requires forall p: nat :: !Matches(c.db, c.db.events[e].outcome, p)
    ensures EventStep(c.db, e, rail).None? && !Acts(c.db, e)
  {
    var outcome := c.db.events[e].outcome;
    PaymentOfIntentIs(c.db.payments, outcome.intentId);
    var found := PaymentOfIntent(c.db, outcome.intentId);
    if found.Some? {
      assert !Matches(c.db, outcome, found.value);
    }
  }

  /** What a failure or a cancellation says the payment is now. */
  function Said(outcome: GatewayOutcome): PaymentStatus
    requires outcome.OutcomeFailed? || outcome.OutcomeCancelled?
  {
    if outcome.OutcomeFailed? then PaymentStatus.Failed else PaymentStatus.Cancelled
  }

  /** A failure or a cancellation is written to its payment, is stamped if the payment says so already, and waits if the payment settled. */
  lemma FailureIsWritten(c: Core, e: nat, p: nat, rail: Option<PaymentMethod>)
    requires CoreInv(c) && Waiting(c.db, e) && (c.db.events[e].outcome.OutcomeFailed? || c.db.events[e].outcome.OutcomeCancelled?)
    requires p < |c.db.payments| && c.db.payments[p].intentId == Some(c.db.events[e].outcome.intentId)
    ensures var said, was := Said(c.db.events[e].outcome), c.db.payments[p].status;
            && EventStep(c.db, e, rail) == (if was == PaymentStatus.Succeeded then None
                                            else Some(c.db.(payments := c.db.payments[p := WithStatus(c.db.payments[p], said)],
                                                            events := c.db.events[e := Stamped(c.db.events[e], Some(p))])))
            && (Acts(c.db, e) <==> was != PaymentStatus.Succeeded && was != said)
  {
    FoundByIntent(c, c.db.events[e].outcome.intentId, p);
    var db, said := c.db, Said(c.db.events[e].outcome);
    if db.payments[p].status == said {
      assert WithStatus(db.payments[p], said) == db.payments[p];
      assert db.payments[p := db.payments[p]] == db.payments;
    }
  }

  /** One that names no payment of ours waits. */
  lemma FailureOfNoneWaits(c: Core, e: nat, rail: Option<PaymentMethod>)
    requires Waiting(c.db, e) && (c.db.events[e].outcome.OutcomeFailed? || c.db.events[e].outcome.OutcomeCancelled?)
    requires forall p :: 0 <= p < |c.db.payments| ==> c.db.payments[p].intentId != Some(c.db.events[e].outcome.intentId)
    ensures EventStep(c.db, e, rail).None? && !Acts(c.db, e)
  {
    NoneByIntent(c, c.db.events[e].outcome.intentId);
  }

  /** Any other event is stamped and nothing more. */
  lemma OtherEventIsStamped(db: Db, e: nat, rail: Option<PaymentMethod>)
    requires Waiting(db, e) && db.events[e].outcome.OutcomeIgnored?
    ensures EventStep(db, e, rail) == Some(db.(events := db.events[e := Stamped(db.events[e], db.events[e].paymentId)]))
    ensures !Acts(db, e)
  {
  }

  /** An event that is not there, or not waiting, is left alone. */
  lemma ProcessedIsLeft(db: Db, e: nat, rail: Option<PaymentMethod>)
    requires !Waiting(db, e)
    ensures EventStep(db, e, rail).None? && !Acts(db, e)
  {
  }

  /** A delivery is stored once: a new id as a waiting event, a known one not at all. */
  lemma DeliveryIsStored(db: Db, id: string, outcome: GatewayOutcome)
    ensures (exists e :: 0 <= e < |db.events| && db.events[e].providerEventId == id) ==> RecordEvent(db, id, outcome) == db
    ensures (forall e :: 0 <= e < |db.events| ==> db.events[e].providerEventId != id) ==>
              RecordEvent(db, id, outcome) == db.(events := db.events + [Event(id, outcome, None, false)])
  {
  }

  // ----- Closing an unpaid order -----

  /** Payment `p` of the order may still settle. */
  ghost predicate LiveFor(db: Db, o: nat, p: nat) {
    p < |db.payments| && db.payments[p].orderId == o && db.payments[p].status in {PaymentStatus.Pending, Processing}
  }

  ghost predicate HasLive(db: Db, o: nat) {
    exists p: nat :: LiveFor(db, o, p)
  }

  /** The live payment of an order, if it has one, is the one found. */
  lemma LiveIsFound(c: Core, o: nat, p: nat)
    requires CoreInv(c) && LiveFor(c.db, o, p)
    ensures FirstLive(c.db.payments, o) == Some(p)
  {
    FirstLiveIs(c.db.payments, o, 0);
    assert OneLive(c.db);
  }

  lemma NoLiveFound(db: Db, o: nat)
    requires !HasLive(db, o)
    ensures FirstLive(db.payments, o).None? && !HasLivePayment(db, o)
  {
    FirstLiveIs(db.payments, o, 0);
    forall p | 0 <= p < |db.payments| ensures !(db.payments[p].orderId == o && IsLive(db.payments[p].status)) {
      assert !LiveFor(db, o, p);
    }
  }

  /** An order that a door may close. */
  ghost predicate MayClose(db: Db, door: Door, o: nat, from: OrderStatus) {
    o < |db.orders| && db.orders[o].status == from && (from == PendingPayment || (from == Draft && door == CancelDoor))
  }

  function ClosedRow(o: Order, door: Door, actor: ActorType, reason: Option<string>): Order {
    if door == ExpiryDoor then Moved(o, OrderStatus.Expired, System, None) else Moved(o, OrderStatus.Cancelled, actor, reason)
  }

  /** With no live payment the gateway is not asked: the order closes and nothing else changes. */
  lemma CloseUnpaid(c: Core, door: Door, o: nat, from: OrderStatus, actor: ActorType, reason: Option<string>, reachable: bool)
    requires MayClose(c.db, door, o, from) && !HasLive(c.db, o)
    ensures Closed(c, door, o, from, actor, reason, reachable) ==
            (c.(db := c.db.(orders := c.db.orders[o := ClosedRow(c.db.orders[o], door, actor, reason)])), true)
  {
    NoLiveFound(c.db, o);
  }

  /**
   With a live payment the gateway decides. If it lets the intent go, the intent, the
   payment and the order are cancelled together and nothing else changes; if it has
   the money, or cannot be asked, nothing changes at all.
   */
  lemma CloseLive(c: Core, door: Door, o: nat, from: OrderStatus, actor: ActorType, reason: Option<string>, reachable: bool, p: nat)
    requires CoreInv(c) && MayClose(c.db, door, o, from) && LiveFor(c.db, o, p)
    ensures c.db.payments[p].intentId.Some? && c.db.payments[p].intentId.value < |c.gateway|
    ensures var i := c.db.payments[p].intentId.value;
            Closed(c, door, o, from, actor, reason, reachable) ==
            if !reachable || c.gateway[i].state.IntentSucceeded? then (c, false)
            else (Core(c.db.(orders := c.db.orders[o := ClosedRow(c.db.orders[o], door, actor, reason)],
                             payments := c.db.payments[p := WithStatus(c.db.payments[p], PaymentStatus.Cancelled)]),
                       c.gateway[i := Intent(c.gateway[i].amountMinor, c.gateway[i].currency, IntentCancelled)]), true)
  {
    LiveIsFound(c, o, p);
    assert PaymentRowOk(c.db, c.gateway, c.db.payments[p]);
  }

  /** So a closed order has no live payment left, by either door. */
  lemma ClosedHasNoLivePayment(c: Core, door: Door, o: nat, from: OrderStatus, actor: ActorType, reason: Option<string>, reachable: bool)
    requires CoreInv(c) && MayClose(c.db, door, o, from)
    ensures var (after, done) := Closed(c, door, o, from, actor, reason, reachable); done ==> !HasLive(after.db, o)
  {
    if p: nat :| LiveFor(c.db, o, p) {
      CloseLive(c, door, o, from, actor, reason, reachable, p);
      assert OneLive(c.db);
    } else {
      CloseUnpaid(c, door, o, from, actor, reason, reachable);
      var after := Closed(c, door, o, from, actor, reason, reachable).0;
      assert forall p: nat :: LiveFor(after.db, o, p) ==> LiveFor(c.db, o, p);
    }
  }

  /** Staff may cancel exactly what the order table lets become CANCELLED, and a device only its own orders of that kind. */
  lemma MayCancel(db: Db, principal: Principal, o: nat)
    ensures Cancellable(db, principal, o) <==>
            && o < |db.orders| && IsLegalTransition(db.orders[o].status, OrderStatus.Cancelled)
            && (principal.Staff? || db.orders[o].kioskDevice == Some(principal.deviceId))
  {
  }

  // ----- Paying -----

  /** The order is there for whoever asks: staff see every order, a device its own. */
  ghost predicate SeenBy(db: Db, principal: Principal, o: nat) {
    o < |db.orders| && (principal.Staff? || db.orders[o].kioskDevice == Some(principal.deviceId))
  }

  /** The order may take money: it is seen, waits for payment and has no live payment. */
  ghost predicate Payable(db: Db, principal: Principal, o: nat) {
    SeenBy(db, principal, o) && db.orders[o].status == PendingPayment && !HasLive(db, o)
  }

  /** Why an order takes no money, the first reason first. */
  lemma NotPayableBecause(c: Core, principal: Principal, o: nat)
    requires CoreInv(c)
    ensures !SeenBy(c.db, principal, o) <==> PayableNow(c.db, principal, o) == Refused(NotFound)
    ensures SeenBy(c.db, principal, o) && c.db.orders[o].status == OrderStatus.Expired <==> PayableNow(c.db, principal, o) == OrderExpired
    ensures SeenBy(c.db, principal, o) && c.db.orders[o].status !in {PendingPayment, OrderStatus.Expired} ==>
              PayableNow(c.db, principal, o) == NotPayable(c.db.orders[o].status)
    ensures forall p: nat :: SeenBy(c.db, principal, o) && c.db.orders[o].status == PendingPayment && LiveFor(c.db, o, p) ==>
              PayableNow(c.db, principal, o) == AlreadyActive(Some(p))
    ensures Payable(c.db, principal, o) <==> PayableNow(c.db, principal, o).Done?
    ensures Payable(c.db, principal, o) ==>
              PayableNow(c.db, principal, o) == Done(OrderQuote(o, c.db.orders[o].priced.totalMinor, c.db.orders[o].currency))
  {
    forall p: nat | LiveFor(c.db, o, p) ensures FirstLive(c.db.payments, o) == Some(p) {
      LiveIsFound(c, o, p);
    }
    if HasLive(c.db, o) {
      var p: nat :| LiveFor(c.db, o, p);
    } else {
      NoLiveFound(c.db, o);
    }
  }

  /** The key is given and some payment carries it. */
  ghost predicate KeySpent(db: Db, key: Option<string>) {
    key.Some? && exists p :: 0 <= p < |db.payments| && db.payments[p].idempotencyKey == key
  }

  /** Cash covering the total pays the order in one stroke: a settled payment for exactly the total, and the order PAID. */
  lemma CashPays(c: Core, principal: Principal, o: nat, tendered: int, key: Option<string>)
    requires CoreInv(c) && Payable(c.db, principal, o) && principal.Staff? && tendered >= c.db.orders[o].priced.totalMinor > 0 && !KeySpent(c.db, key)
    ensures var order := c.db.orders[o];
            CashStep(c.db, principal, o, tendered, key) ==
            Some(c.db.(orders := c.db.orders[o := Moved(order, Paid, User, None)],
                       payments := c.db.payments + [Payment(o, Cash, None, Some(CashInHand), PaymentStatus.Succeeded,
                                                            order.priced.totalMinor, order.currency, key)]))
    ensures CashAnswer(c.db, principal, o, tendered, key) == Done(|c.db.payments|)
  {
    NotPayableBecause(c, principal, o);
  }

  /** Otherwise nothing is written and the first reason is answered. */
  lemma CashRefused(c: Core, principal: Principal, o: nat, tendered: int, key: Option<string>)
    requires CoreInv(c)
    ensures !Payable(c.db, principal, o) ==>
              CashStep(c.db, principal, o, tendered, key).None? && PayableNow(c.db, principal, o) == Relabel(CashAnswer(c.db, principal, o, tendered, key))
    ensures Payable(c.db, principal, o) && principal.KioskDevice? ==>
              CashStep(c.db, principal, o, tendered, key).None? && CashAnswer(c.db, principal, o, tendered, key) == CashNotAllowed
    ensures Payable(c.db, principal, o) && principal.Staff? && tendered < c.db.orders[o].priced.totalMinor ==>
              CashStep(c.db, principal, o, tendered, key).None? && CashAnswer(c.db, principal, o, tendered, key) == CashTenderInsufficient
    ensures Payable(c.db, principal, o) && principal.Staff? && tendered >= c.db.orders[o].priced.totalMinor && c.db.orders[o].priced.totalMinor <= 0 ==>
              CashStep(c.db, principal, o, tendered, key).None? && CashAnswer(c.db, principal, o, tendered, key) == Refused(ConstraintViolated)
    ensures Payable(c.db, principal, o) && principal.Staff? && tendered >= c.db.orders[o].priced.totalMinor > 0 && KeySpent(c.db, key) ==>
              CashStep(c.db, principal, o, tendered, key).None? && CashAnswer(c.db, principal, o, tendered, key) == AlreadyActive(None)
  {
    NotPayableBecause(c, principal, o);
  }

  function NewIntent(order: Order): Intent {
    Intent(order.priced.totalMinor, order.currency, IntentOpen)
  }

  /** A gateway payment of a payable order: a new open intent for the total, and a pending payment behind it. */
  lemma GatewayOpens(c: Core, principal: Principal, o: nat, key: Option<string>)
    requires CoreInv(c) && Payable(c.db, principal, o) && c.db.orders[o].priced.totalMinor > 0 && !KeySpent(c.db, key)
    ensures var order := c.db.orders[o];
            GatewayStep(c, principal, o, key) ==
            (Core(c.db.(payments := c.db.payments + [Payment(o, Stripe, Some(|c.gateway|), None, PaymentStatus.Pending,
                                                             order.priced.totalMinor, order.currency, key)]),
                  c.gateway + [NewIntent(order)]), true)
    ensures GatewayAnswer(c, principal, o, key) == Done(|c.db.payments|)
  {
    NotPayableBecause(c, principal, o);
    NoLiveFound(c.db, o);
    IntentIsNew(c);
  }

  /** No row can name an intent the gateway has yet to make. */
  lemma IntentIsNew(c: Core)
    requires CoreInv(c)
    ensures !IntentTaken(c.db, |c.gateway|)
  {
    forall p | 0 <= p < |c.db.payments| ensures c.db.payments[p].intentId != Some(|c.gateway|) {
      assert PaymentRowOk(c.db, c.gateway, c.db.payments[p]);
    }
  }

  /** A row that cannot be inserted leaves the new intent behind; an order that is not payable leaves nothing. */
  lemma GatewayRefused(c: Core, principal: Principal, o: nat, key: Option<string>)
    requires CoreInv(c)
    ensures !Payable(c.db, principal, o) ==>
              GatewayStep(c, principal, o, key) == (c, false) && PayableNow(c.db, principal, o) == Relabel(GatewayAnswer(c, principal, o, key))
    ensures Payable(c.db, principal, o) && (c.db.orders[o].priced.totalMinor <= 0 || KeySpent(c.db, key)) ==>
              && GatewayStep(c, principal, o, key) == (c.(gateway := c.gateway + [NewIntent(c.db.orders[o])]), false)
              && GatewayAnswer(c, principal, o, key) == if c.db.orders[o].priced.totalMinor <= 0 then Refused(ConstraintViolated) else AlreadyActive(None)
  {
    NotPayableBecause(c, principal, o);
  }

  // ----- Refunding -----

  ghost predicate Returnable(db: Db, p: nat, today: int) {
    && p < |db.payments| && db.payments[p].status == PaymentStatus.Succeeded
    && db.payments[p].orderId < |db.orders| && db.orders[db.payments[p].orderId].businessDay == today
  }

  /** What is left of a payment: its amount less every refund of it. */
  function Left(db: Db, p: nat): int
    requires p < |db.payments|
  {
    db.payments[p].amountMinor - RefundedOf(db.refunds, p)
  }

  /** A refund within what is left is recorded, and the order becomes REFUNDED exactly when nothing is left afterwards. */
  lemma RefundGivesBack(db: Db, p: nat, amount: int, reason: string, today: int)
    requires Returnable(db, p, today) && 0 < amount <= Left(db, p)
    ensures var o, written := db.payments[p].orderId, db.(refunds := db.refunds + [Refund(p, amount)]);
            RefundStep(db, p, amount, reason, today) ==
            Some(if amount < Left(db, p) then written
                 else written.(orders := db.orders[o := Moved(db.orders[o], Refunded, User, Some(reason))]))
    ensures RefundAnswer(db, p, amount, today) == Done(amount == Left(db, p))
    ensures RefundedOf(db.refunds + [Refund(p, amount)], p) == RefundedOf(db.refunds, p) + amount
  {
    assert (db.refunds + [Refund(p, amount)])[..|db.refunds|] == db.refunds;
  }

  /** Any other refund writes nothing and is answered with the first reason against it. */
  lemma RefundRefused(db: Db, p: nat, amount: int, reason: string, today: int)
    requires !(Returnable(db, p, today) && 0 < amount <= Left(db, p))
    ensures RefundStep(db, p, amount, reason, today).None?
    ensures p >= |db.payments| ==> RefundAnswer(db, p, amount, today) == Refused(NotFound)
    ensures p < |db.payments| && db.payments[p].status != PaymentStatus.Succeeded ==>
              RefundAnswer(db, p, amount, today) == NotRefundable(NeverCaptured(db.payments[p].status))
    ensures p < |db.payments| && db.payments[p].status == PaymentStatus.Succeeded && db.payments[p].orderId >= |db.orders| ==>
              RefundAnswer(db, p, amount, today) == Refused(NotFound)
    ensures p < |db.payments| && db.payments[p].status == PaymentStatus.Succeeded && db.payments[p].orderId < |db.orders|
            && db.orders[db.payments[p].orderId].businessDay != today ==>
              RefundAnswer(db, p, amount, today) == NotRefundable(OtherDay(db.orders[db.payments[p].orderId].businessDay))
    ensures Returnable(db, p, today) ==>
              RefundAnswer(db, p, amount, today) == Refused(if amount > Left(db, p) then RefundExceedsRemaining(Left(db, p)) else ConstraintViolated)
  {
  }

  // ----- The kitchen -----

  /** A kitchen move is one rank up among the orders that took money, and nothing but the order changes. */
  lemma KitchenMoves(db: Db, o: nat, to: OrderStatus, actor: ActorType)
    requires o < |db.orders|
    ensures StatusStep(db, o, to, actor) ==
            if TookMoney(db.orders[o].status) && TookMoney(to) && to != Refunded && Rank(to) == Rank(db.orders[o].status) + 1
            then Some(db.(orders := db.orders[o := Moved(db.orders[o], to, actor, None)])) else None
  {
    StaffMovesUp(db.orders[o].status, to);
  }

  /** Three moves take a paid order through the kitchen to COMPLETED. */
  lemma KitchenCompletes(db: Db, o: nat, actor: ActorType)
    requires o < |db.orders| && db.orders[o].status == Paid
    ensures var first := StatusStep(db, o, InPreparation, actor);
            first.Some? &&
            var second := StatusStep(first.value, o, Ready, actor);
            second.Some? &&
            var third := StatusStep(second.value, o, Completed, actor);
            third.Some? && o < |third.value.orders| && third.value.orders[o].status == Completed
            && third.value.orders[o].history == db.orders[o].history + [HistoryRow(Some(Paid), InPreparation, actor, None),
                                                                         HistoryRow(Some(InPreparation), Ready, actor, None),
                                                                         HistoryRow(Some(Ready), Completed, actor, None)]
  {
    KitchenMoves(db, o, InPreparation, actor);
    var first := StatusStep(db, o, InPreparation, actor).value;
    KitchenMoves(first, o, Ready, actor);
    var second := StatusStep(first, o, Ready, actor).value;
    KitchenMoves(second, o, Completed, actor);
  }

  // ----- New orders -----

  /** Why a basket is refused, the first reason first. */
  lemma BasketRefusedBecause(request: OrderRequest)
    requires !Admitted(request)
    ensures QuantitiesOk(request.items) || RefusalOf(request) == BasketRefused
    ensures QuantitiesOk(request.items) && request.principal.Staff? && request.channel == Kiosk ==> RefusalOf(request) == ChannelMismatch(Counter)
    ensures QuantitiesOk(request.items) && request.principal.KioskDevice? && request.channel == Counter ==> RefusalOf(request) == ChannelMismatch(Kiosk)
    ensures QuantitiesOk(request.items) && request.principal.KioskDevice? && request.channel == Kiosk && request.draft ==> RefusalOf(request) == DraftNotAllowed
    ensures QuantitiesOk(request.items) && request.principal.KioskDevice? && request.channel == Kiosk && !request.draft && request.devicePaused ==>
              RefusalOf(request) == DevicePaused
    ensures QuantitiesOk(request.items) && ChannelFits(request) ==>
              RefusalOf(request) == if !Accepts(request.items, request.catalog) || request.expectedTotalMinor.None? then BasketRefused
                                    else PriceMismatch(request.expectedTotalMinor.value, Amount(request.items, request.catalog))
  {
  }

  /** Staff order at the counter, a device at the kiosk, and a device only at once and while it is not paused. */
  ghost predicate ChannelFits(request: OrderRequest) {
    if request.principal.Staff? then request.channel == Counter
    else request.channel == Kiosk && !request.draft && !request.devicePaused
  }

  /** The basket is admitted: 1 to 50 of each line, on its own channel, accepted by the menu, at the price that was shown. */
  lemma AdmittedWhen(request: OrderRequest)
    ensures Admitted(request) <==>
            && (forall i :: 0 <= i < |request.items| ==> 1 <= request.items[i].quantity <= 50)
            && ChannelFits(request) && Accepts(request.items, request.catalog)
            && (request.expectedTotalMinor == None || request.expectedTotalMinor == Some(Amount(request.items, request.catalog)))
  {
  }

  /** The number an order of the day gets next. */
  function NextNumber(db: Db, day: int): nat {
    (if day in db.counters then db.counters[day] else 0) + 1
  }

  /** An admitted basket becomes one new order. A draft waits without a number or a deadline; any other order has the day's next number and the deadline. */
  lemma OrderIsCreated(db: Db, request: OrderRequest)
    requires Admitted(request) && Vat.ValidRate(request.vatBasisPoints)
    ensures var device, actor := (if request.principal.Staff? then None else Some(request.principal.deviceId)), (if request.principal.Staff? then User else Device);
            var priced := Quote(request.items, request.catalog, request.vatBasisPoints);
            Tables.CreateOrder(db, request) ==
            Some(if request.draft then
                   db.(orders := db.orders + [Order(Draft, priced, request.currency, request.day, request.hour, device, None, None,
                                                    [HistoryRow(None, Draft, actor, None)])])
                 else
                   db.(orders := db.orders + [Order(PendingPayment, priced, request.currency, request.day, request.hour, device,
                                                    Some(FormatOrderNumber(NextNumber(db, request.day))), Some(request.expiresAt),
                                                    [HistoryRow(None, PendingPayment, actor, None)])],
                       counters := db.counters[request.day := NextNumber(db, request.day)]))
  {
  }

  /** Checkout moves a draft, and only a draft, and gives it the day's next number and the deadline it was given. */
  lemma DraftIsCheckedOut(db: Db, o: nat, expiresAt: int, actor: ActorType)
    ensures Tables.Checkout(db, o, expiresAt, actor) ==
            if o >= |db.orders| || db.orders[o].status != Draft then None else
              var day := db.orders[o].businessDay;
              Some(db.(orders := db.orders[o := Moved(db.orders[o], PendingPayment, actor, None)
                                                .(orderNumber := Some(FormatOrderNumber(NextNumber(db, day))), expiresAt := Some(expiresAt))],
                       counters := db.counters[day := NextNumber(db, day)]))
  {
    if o < |db.orders| && db.orders[o].status == Draft {
      var moved := Moved(db.orders[o], PendingPayment, actor, None);
      assert Tables.TransitionOrder(db, o, Draft, PendingPayment, actor, None) == Some(db.(orders := db.orders[o := moved]));
      var queued := moved.(orderNumber := Some(FormatOrderNumber(NextNumber(db, moved.businessDay))), expiresAt := Some(expiresAt));
      assert db.orders[o := moved][o := queued] == db.orders[o := queued];
    }
  }
}

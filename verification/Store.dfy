/**
 The tables as mutable state, and each transaction as the statements it runs, in
 order. A transaction that throws rolls back, so every method either commits what
 `Tables` says or leaves the store as it was.
 */
module Store {
  import opened Wrappers
  import opened OrderState
  import opened PaymentDecision
  import opened Pricing
  import opened PricingPasses
  import opened QueueNumber
  import opened Tables
  import Vat

  datatype Failure =
    | NotFound
    | InvalidTransition(current: OrderStatus, requested: OrderStatus)
    | ConstraintViolated
    | UniqueViolated
    | ChannelMismatch(channel: OrderChannel)
    | DraftNotAllowed
    | DevicePaused
    | BasketRefused
    | PriceMismatch(expected: int, actual: int)
    | RefundExceedsRemaining(remaining: int)

  /** The database after a transaction: what it committed, or what was there before. */
  function After(before: Db, committed: Option<Db>): Db {
    if committed.Some? then committed.value else before
  }

  /** Every refusal of a basket, in the order they are looked for. */
  function RefusalOf(request: OrderRequest): Failure {
    if !QuantitiesOk(request.items) then BasketRefused
    else if request.channel != ChannelOf(request.principal) then ChannelMismatch(ChannelOf(request.principal))
    else if request.principal.KioskDevice? && request.draft then DraftNotAllowed
    else if request.principal.KioskDevice? && request.devicePaused then DevicePaused
    else if !Accepts(request.items, request.catalog) || request.expectedTotalMinor.None? then BasketRefused
    else PriceMismatch(request.expectedTotalMinor.value, Amount(request.items, request.catalog))
  }

  /** The constraint that refuses a payment row: a check or a reference, or else one of the unique indexes. */
  function InsertRefusal(db: Db, payment: Payment): Failure {
    if payment.amountMinor <= 0 || payment.orderId >= |db.orders| then ConstraintViolated else UniqueViolated
  }

  function CashPayment(orderId: nat, totalMinor: int, currency: string, key: Option<string>): Payment {
    Payment(orderId, Cash, None, Some(CashInHand), PaymentStatus.Succeeded, totalMinor, currency, key)
  }

  /** Why a refund is turned down, in the order the reasons are met. */
  function RefundRefusal(db: Db, paymentId: nat, captured: int, orderId: nat, amountMinor: int): Failure {
    var remaining := captured - RefundedOf(db.refunds, paymentId);
    if amountMinor > remaining then RefundExceedsRemaining(remaining)
    else if amountMinor <= 0 then ConstraintViolated
    else MoveRefusal(db, orderId, Refunded)
  }

  /** Why a guarded move matched no row. */
  function MoveRefusal(db: Db, orderId: nat, to: OrderStatus): Failure {
    if orderId < |db.orders| then InvalidTransition(db.orders[orderId].status, to) else NotFound
  }

  class Store {
    var orders: seq<Order>
    var payments: seq<Payment>
    var refunds: seq<Refund>
    var events: seq<Event>
    var counters: map<int, nat>

    function Snapshot(): Db
      reads this
    {
      Db(orders, payments, refunds, events, counters)
    }

    constructor ()
      ensures Snapshot() == EMPTY_DB
    {
      orders, payments, refunds, events, counters := [], [], [], [], map[];
    }

    method Rollback(saved: Db)
      modifies this
      ensures Snapshot() == saved
    {
      orders, payments, refunds, events, counters := saved.orders, saved.payments, saved.refunds, saved.events, saved.counters;
    }

    // ----- Statements -----

    /** The guarded update and its history row. A move that matches no row is explained by re-reading the order. */
    method TransitionOrder(orderId: nat, from: OrderStatus, to: OrderStatus, actor: ActorType, reason: Option<string>)
        returns (r: Result<Order, Failure>)
      modifies this
      ensures var moved := Tables.TransitionOrder(old(Snapshot()), orderId, from, to, actor, reason);
              && (r.Ok? <==> moved.Some?)
              && Snapshot() == After(old(Snapshot()), moved)
      ensures r.Ok? ==> orderId < |orders| && r.value == orders[orderId]
      ensures r.Err? ==> r.error == MoveRefusal(old(Snapshot()), orderId, to)
    {
      if orderId < |orders| && orders[orderId].status == from {
        var o := orders[orderId];
        orders := orders[orderId := o.(status := to, expiresAt := if from == PendingPayment then None else o.expiresAt)];
        orders := orders[orderId := orders[orderId].(history := orders[orderId].history + [HistoryRow(Some(from), to, actor, reason)])];
        return Ok(orders[orderId]);
      }
      if orderId >= |orders| {
        return Err(NotFound);
      }
      return Err(InvalidTransition(orders[orderId].status, to));
    }

    /** One upsert: the counter starts at 1 or goes up by one. */
    method NextOrderNumber(businessDay: int) returns (number: string)
      modifies this`counters
      ensures Snapshot() == ClaimNumber(old(Snapshot()), businessDay)
      ensures number == ClaimedNumber(old(Snapshot()), businessDay)
    {
      if businessDay !in counters {
        counters := counters[businessDay := 1];
      } else {
        counters := counters[businessDay := counters[businessDay] + 1];
      }
      number := FormatOrderNumber(counters[businessDay]);
    }

    method InsertPayment(payment: Payment) returns (r: Result<nat, Failure>)
      modifies this`payments
      ensures var inserted := Tables.InsertPayment(old(Snapshot()), payment);
              && (r.Ok? <==> inserted.Some?)
              && Snapshot() == After(old(Snapshot()), inserted)
      ensures r == if Tables.InsertPayment(old(Snapshot()), payment).Some? then Ok(old(|payments|)) else Err(InsertRefusal(old(Snapshot()), payment))
    {
      if payment.amountMinor <= 0 || payment.orderId >= |orders| {
        return Err(ConstraintViolated);
      }
      for p := 0 to |payments|
        invariant forall q :: 0 <= q < p ==> !(IsLive(payment.status) && payments[q].orderId == payment.orderId && IsLive(payments[q].status))
        invariant forall q :: 0 <= q < p ==> !(payment.intentId.Some? && payments[q].intentId == payment.intentId)
        invariant forall q :: 0 <= q < p ==> !(payment.idempotencyKey.Some? && payments[q].idempotencyKey == payment.idempotencyKey)
        invariant payments == old(payments)
      {
        // one live payment per order, one row per intent, one row per key
        if IsLive(payment.status) && payments[p].orderId == payment.orderId && IsLive(payments[p].status) {
          return Err(UniqueViolated);
        }
        if payment.intentId.Some? && payments[p].intentId == payment.intentId {
          return Err(UniqueViolated);
        }
        if payment.idempotencyKey.Some? && payments[p].idempotencyKey == payment.idempotencyKey {
          return Err(UniqueViolated);
        }
      }
      payments := payments + [payment];
      return Ok(|payments| - 1);
    }

    /** Writes a payment's status, and its rail if one was resolved. */
    method UpdatePayment(paymentId: nat, status: PaymentStatus, rail: Option<PaymentMethod>)
      modifies this`payments
      ensures Snapshot() == SetPayment(old(Snapshot()), paymentId, status, rail)
    {
      if paymentId < |payments| {
        var p := payments[paymentId];
        payments := payments[paymentId := p.(status := status, rail := if rail.None? then p.rail else rail)];
      }
    }

    /** Stamps an event that has no stamp yet; to a stamped one nothing happens. */
    method StampEvent(event: nat, paymentId: Option<nat>) returns (stamped: bool)
      modifies this`events
      ensures Snapshot() == MarkProcessed(old(Snapshot()), event, paymentId)
      ensures stamped <==> event < old(|events|) && !old(events)[event].processed
    {
      stamped := event < |events| && !events[event].processed;
      if stamped {
        var e := events[event];
        events := events[event := e.(processed := true, paymentId := if paymentId.None? then e.paymentId else paymentId)];
      }
    }

    /** The inbox write; a redelivery finds its id taken and inserts nothing. */
    method RecordEvent(providerEventId: string, outcome: GatewayOutcome) returns (row: Option<nat>)
      modifies this`events
      ensures Snapshot() == Tables.RecordEvent(old(Snapshot()), providerEventId, outcome)
      ensures row == if |events| > old(|events|) then Some(old(|events|)) else None
    {
      for e := 0 to |events|
        invariant forall f :: 0 <= f < e ==> events[f].providerEventId != providerEventId
        invariant events == old(events)
      {
        if events[e].providerEventId == providerEventId {
          return None;
        }
      }
      events := events + [Event(providerEventId, outcome, None, false)];
      row := Some(|events| - 1);
    }

    // ----- Transactions -----

    /** Prices the basket with the program's own passes and writes the order, or refuses it whole. */
    method CreateOrder(request: OrderRequest) returns (r: Result<nat, Failure>)
      requires Vat.ValidRate(request.vatBasisPoints)
      modifies this
      ensures var created := Tables.CreateOrder(old(Snapshot()), request);
              && (r.Ok? <==> created.Some?)
              && Snapshot() == After(old(Snapshot()), created)
      ensures r == if Admitted(request) then Ok(old(|orders|)) else Err(RefusalOf(request))
    {
      if !QuantitiesOk(request.items) {
        return Err(BasketRefused);
      }
      var expected := ChannelOf(request.principal);
      if request.channel != expected {
        return Err(ChannelMismatch(expected));
      }
      if request.principal.KioskDevice? {
        if request.draft {
          return Err(DraftNotAllowed);
        }
        if request.devicePaused {
          return Err(DevicePaused);
        }
      }
      var priced := PriceOrder(request.items, request.catalog, request.vatBasisPoints);
      PriceDecides(request.items, request.catalog, request.vatBasisPoints);
      if priced.Err? {
        return Err(BasketRefused);
      }
      if request.expectedTotalMinor.Some? && request.expectedTotalMinor.value != priced.value.totalMinor {
        return Err(PriceMismatch(request.expectedTotalMinor.value, priced.value.totalMinor));
      }
      Persist(request, priced.value);
      return Ok(|orders| - 1);
    }

    /** Writes the order with its opening history row. */
    method Persist(request: OrderRequest, priced: PricedOrder)
      requires Vat.ValidRate(request.vatBasisPoints) && Admitted(request)
      requires priced == Quote(request.items, request.catalog, request.vatBasisPoints)
      modifies this
      ensures Some(Snapshot()) == Tables.CreateOrder(old(Snapshot()), request)
      ensures |orders| == old(|orders|) + 1
    {
      var status := if request.draft then Draft else PendingPayment;
      var window := if status == Draft then None else Some(request.expiresAt);
      var number := None;
      if status != Draft {
        var next := NextOrderNumber(request.day);
        number := Some(next);
      }
      orders := orders + [Order(status, priced, request.currency, request.day, request.hour, DeviceOf(request.principal),
                                number, window, [HistoryRow(None, status, ActorOf(request.principal), None)])];
    }

    /** The order has to move first; only then does it take a number and a deadline. */
    method Checkout(orderId: nat, expiresAt: int, actor: ActorType) returns (r: Result<Order, Failure>)
      modifies this
      ensures var queued := Tables.Checkout(old(Snapshot()), orderId, expiresAt, actor);
              && (r.Ok? <==> queued.Some?)
              && Snapshot() == After(old(Snapshot()), queued)
      ensures r.Ok? ==> orderId < |orders| && r.value == orders[orderId]
      ensures r.Err? ==> r.error == MoveRefusal(old(Snapshot()), orderId, PendingPayment)
    {
      if orderId >= |orders| {
        return Err(NotFound);
      }
      if orders[orderId].status != Draft {
        return Err(InvalidTransition(orders[orderId].status, PendingPayment));
      }
      var day := orders[orderId].businessDay;
      r := TransitionOrder(orderId, Draft, PendingPayment, actor, None);
      var number := NextOrderNumber(day);
      orders := orders[orderId := orders[orderId].(orderNumber := Some(number), expiresAt := Some(expiresAt))];
      r := Ok(orders[orderId]);
    }

    method TakeCash(orderId: nat, totalMinor: int, currency: string, key: Option<string>) returns (r: Result<nat, Failure>)
      modifies this
      ensures var taken := Tables.TakeCash(old(Snapshot()), orderId, totalMinor, currency, key);
              && (r.Ok? <==> taken.Some?)
              && Snapshot() == After(old(Snapshot()), taken)
      ensures r.Ok? ==> r.value == old(|payments|)
      ensures r.Err? ==> r.error == var payment := CashPayment(orderId, totalMinor, currency, key);
                                    if Tables.InsertPayment(old(Snapshot()), payment).None? then InsertRefusal(old(Snapshot()), payment)
                                    else MoveRefusal(old(Snapshot()), orderId, Paid)
    {
      var saved := Snapshot();
      r := InsertPayment(CashPayment(orderId, totalMinor, currency, key));
      if r.Err? {
        return;
      }
      var moved := TransitionOrder(orderId, PendingPayment, Paid, User, None);
      if moved.Err? {
        Rollback(saved);
        r := Err(moved.error);
      }
    }

    /** The success: order, payment and inbox row move together or not at all. */
    method MarkPaid(event: nat, paymentId: nat, orderId: nat, rail: Option<PaymentMethod>) returns (r: Result<(), Failure>)
      modifies this
      ensures var paid := ApplyMarkPaid(old(Snapshot()), event, paymentId, orderId, rail);
              && (r.Ok? <==> paid.Some?)
              && Snapshot() == After(old(Snapshot()), paid)
      ensures r.Err? ==> r.error == MoveRefusal(old(Snapshot()), orderId, Paid)
    {
      var moved := TransitionOrder(orderId, PendingPayment, Paid, System, None);
      if moved.Err? {
        return Err(moved.error);
      }
      UpdatePayment(paymentId, PaymentStatus.Succeeded, rail);
      var _ := StampEvent(event, Some(paymentId));
      r := Ok(());
    }

    /** A failure or cancellation, guarded so that it never overwrites a settled payment. Says whether the write and the stamp both landed. */
    method MarkPayment(event: nat, paymentId: nat, status: PaymentStatus) returns (landed: bool)
      modifies this
      ensures Snapshot() == ApplyMarkPayment(old(Snapshot()), event, paymentId, status)
      ensures landed <==> paymentId < old(|payments|) && !old(payments)[paymentId].status.Succeeded?
                          && event < old(|events|) && !old(events)[event].processed
    {
      landed := paymentId < |payments| && payments[paymentId].status != PaymentStatus.Succeeded;
      if landed {
        UpdatePayment(paymentId, status, None);
      }
      var stamped := StampEvent(event, Some(paymentId));
      landed := landed && stamped;
    }

    /** Says whether the live payment was written off with the order. */
    method Cancel(orderId: nat, from: OrderStatus, live: Option<nat>, actor: ActorType, reason: Option<string>)
        returns (r: Result<Order, Failure>, cancelledPayment: bool)
      modifies this
      ensures var cancelled := ApplyCancel(old(Snapshot()), orderId, from, live, actor, reason);
              && (r.Ok? <==> cancelled.Some?)
              && Snapshot() == After(old(Snapshot()), cancelled)
      ensures r.Ok? ==> orderId < |orders| && r.value == orders[orderId]
      ensures cancelledPayment <==> r.Ok? && live.Some? && live.value < old(|payments|) && !old(payments)[live.value].status.Succeeded?
    {
      cancelledPayment := false;
      r := TransitionOrder(orderId, from, OrderStatus.Cancelled, actor, reason);
      if r.Ok? && live.Some? && live.value < |payments| && payments[live.value].status != PaymentStatus.Succeeded {
        UpdatePayment(live.value, PaymentStatus.Cancelled, None);
        cancelledPayment := true;
      }
    }

    method Expire(orderId: nat, live: Option<nat>) returns (r: Result<Order, Failure>)
      modifies this
      ensures var expired := ApplyExpiry(old(Snapshot()), orderId, live);
              && (r.Ok? <==> expired.Some?)
              && Snapshot() == After(old(Snapshot()), expired)
      ensures r.Ok? ==> orderId < |orders| && r.value == orders[orderId]
      ensures r.Err? ==> r.error == MoveRefusal(old(Snapshot()), orderId, OrderStatus.Expired)
    {
      r := TransitionOrder(orderId, PendingPayment, OrderStatus.Expired, System, None);
      if r.Ok? && live.Some? {
        UpdatePayment(live.value, PaymentStatus.Cancelled, None);
      }
    }

    /** What has been given back of a payment so far, read behind its lock. */
    method SumRefunds(paymentId: nat) returns (already: int)
      ensures already == RefundedOf(refunds, paymentId)
    {
      already := 0;
      for i := 0 to |refunds|
        invariant already == RefundedOf(refunds[..i], paymentId)
      {
        assert refunds[..i + 1][..i] == refunds[..i];
        if refunds[i].paymentId == paymentId {
          already := already + refunds[i].amountMinor;
        }
      }
      assert refunds[..|refunds|] == refunds;
    }

    /** `captured` and `from` were read before the lock; what has been refunded is read behind it. */
    method GiveBack(paymentId: nat, captured: int, orderId: nat, from: OrderStatus, amountMinor: int, reason: string)
        returns (r: Result<bool, Failure>)
      modifies this
      ensures var refunded := ApplyRefund(old(Snapshot()), paymentId, captured, orderId, from, amountMinor, reason);
              && (r.Ok? <==> refunded.Some?)
              && Snapshot() == After(old(Snapshot()), refunded)
      ensures r.Ok? ==> r.value == (RefundedOf(refunds, paymentId) == captured)
      ensures r.Ok? ==> r.value == (amountMinor == captured - RefundedOf(old(refunds), paymentId))
      ensures r.Err? ==> r.error == RefundRefusal(old(Snapshot()), paymentId, captured, orderId, amountMinor)
    {
      var saved := Snapshot();
      var already := SumRefunds(paymentId);
      var remaining := captured - already;
      if amountMinor > remaining {
        return Err(RefundExceedsRemaining(remaining));
      }
      if amountMinor <= 0 {
        return Err(ConstraintViolated);
      }
      RecordRefund(paymentId, amountMinor);
      var fullyRefunded := already + amountMinor == captured;
      if fullyRefunded {
        var moved := TransitionOrder(orderId, from, Refunded, User, Some(reason));
        if moved.Err? {
          Rollback(saved);
          return Err(moved.error);
        }
      }
      return Ok(fullyRefunded);
    }

    method RecordRefund(paymentId: nat, amountMinor: int)
      modifies this`refunds
      ensures refunds == old(refunds) + [Refund(paymentId, amountMinor)]
      ensures RefundedOf(refunds, paymentId) == RefundedOf(old(refunds), paymentId) + amountMinor
    {
      ghost var before := refunds;
      refunds := refunds + [Refund(paymentId, amountMinor)];
      assert refunds[..|refunds| - 1] == before;
    }
  }
}

/** What every reachable state of the protocol satisfies, and what never changes along a run. */
module Invariants {
  import opened Wrappers
  import opened OrderState
  import opened PaymentDecision
  import opened Pricing
  import opened QueueNumber
  import opened Tables
  import opened Protocol

  // ----- The gateway -----

  ghost predicate Captured(gateway: Gateway, i: nat, amount: int, currency: string) {
    i < |gateway| && gateway[i].state == IntentSucceeded(amount) && gateway[i].currency == currency
  }

  ghost predicate Voided(gateway: Gateway, i: nat) {
    i < |gateway| && gateway[i].state == IntentCancelled
  }

  // ----- Orders -----

  ghost predicate WasQueued(history: seq<HistoryRow>) {
    exists i :: 0 <= i < |history| && history[i].to.PendingPayment?
  }

  /** An order row on its own: its money adds up, its trail ends at its status, and it holds a number and a deadline exactly when it should. */
  ghost predicate OrderRowOk(o: Order) {
    && MoneyConsistent(o.priced)
    && Trail(o.history, o.status)
    && (o.expiresAt.Some? <==> o.status.PendingPayment?)
    && (o.orderNumber.Some? <==> WasQueued(o.history))
  }

  ghost predicate OrdersOk(db: Db) {
    forall o :: 0 <= o < |db.orders| ==> OrderRowOk(db.orders[o])
  }

  // ----- Payments -----

  ghost predicate PaymentRowOk(db: Db, gateway: Gateway, p: Payment) {
    && p.orderId < |db.orders|
    && p.amountMinor > 0
    && p.amountMinor == Total(db.orders[p.orderId])
    && p.currency == db.orders[p.orderId].currency
    && (p.provider.Stripe? <==> p.intentId.Some?)
    && (p.provider.Cash? ==> p.status.Succeeded?)
    && (p.intentId.Some? ==> p.intentId.value < |gateway|)
    && (p.status.Succeeded? ==> TookMoney(db.orders[p.orderId].status))
    && (p.status.Succeeded? && p.intentId.Some? ==> Captured(gateway, p.intentId.value, p.amountMinor, p.currency))
    && (p.status.Cancelled? ==> p.intentId.Some? && Voided(gateway, p.intentId.value))
  }

  ghost predicate PaymentsOk(c: Core) {
    forall p :: 0 <= p < |c.db.payments| ==> PaymentRowOk(c.db, c.gateway, c.db.payments[p])
  }

  /** Payment `p` is the money order `o` took. */
  ghost predicate Settles(db: Db, p: nat, o: nat) {
    p < |db.payments| && db.payments[p].orderId == o && db.payments[p].status.Succeeded?
  }

  ghost predicate OneSuccess(db: Db) {
    forall p: nat, q: nat, o :: Settles(db, p, o) && Settles(db, q, o) ==> p == q
  }

  ghost predicate PaidHavePayment(db: Db) {
    forall o :: 0 <= o < |db.orders| && TookMoney(db.orders[o].status) ==> HasSettlement(db, o)
  }

  ghost predicate HasSettlement(db: Db, o: nat) {
    exists p: nat :: p < |db.payments| && Settles(db, p, o)
  }

  ghost predicate OneLive(db: Db) {
    forall p, q :: 0 <= p < q < |db.payments| && db.payments[p].orderId == db.payments[q].orderId ==>
      !(IsLive(db.payments[p].status) && IsLive(db.payments[q].status))
  }

  ghost predicate UniqueIntents(db: Db) {
    forall p, q :: 0 <= p < q < |db.payments| && db.payments[p].intentId.Some? ==>
      db.payments[p].intentId != db.payments[q].intentId
  }

  // ----- Refunds -----

  ghost predicate RefundRowOk(db: Db, r: Refund) {
    r.paymentId < |db.payments| && db.payments[r.paymentId].status.Succeeded? && r.amountMinor > 0
  }

  /** Never more back than was taken; and REFUNDED means all of it. */
  ghost predicate RefundsWithin(db: Db, p: nat)
    requires p < |db.payments|
  {
    && RefundedOf(db.refunds, p) <= db.payments[p].amountMinor
    && (db.payments[p].status.Succeeded? && db.payments[p].orderId < |db.orders| ==>
          (db.orders[db.payments[p].orderId].status.Refunded? <==> RefundedOf(db.refunds, p) == db.payments[p].amountMinor))
  }

  ghost predicate RefundsOk(db: Db) {
    && (forall r :: 0 <= r < |db.refunds| ==> RefundRowOk(db, db.refunds[r]))
    && (forall p: nat :: p < |db.payments| ==> RefundsWithin(db, p))
  }

  // ----- The inbox -----

  /** A stored success that was acted on names a payment row it agrees with. */
  ghost predicate Matches(db: Db, outcome: GatewayOutcome, p: nat) {
    && p < |db.payments|
    && outcome.OutcomeSucceeded?
    && db.payments[p].intentId == Some(outcome.intentId)
    && db.payments[p].amountMinor == outcome.amountMinor
    && db.payments[p].currency == outcome.currency
  }

  /** The stored success agrees with a payment whose order took money, by that payment or by another. */
  ghost predicate Matched(db: Db, outcome: GatewayOutcome) {
    exists p: nat :: p < |db.payments| && MatchesPaid(db, outcome, p)
  }

  ghost predicate MatchesPaid(db: Db, outcome: GatewayOutcome, p: nat) {
    && Matches(db, outcome, p)
    && db.payments[p].orderId < |db.orders|
    && TookMoney(db.orders[db.payments[p].orderId].status)
  }

  ghost predicate EventsOk(c: Core) {
    forall e :: 0 <= e < |c.db.events| ==>
      && Truthful(c.gateway, c.db.events[e].outcome)
      && (c.db.events[e].processed && c.db.events[e].outcome.OutcomeSucceeded? ==> Matched(c.db, c.db.events[e].outcome))
  }

  // ----- Queue numbers -----

  ghost predicate HoldsNumber(db: Db, o: nat, day: int, k: nat) {
    o < |db.orders| && db.orders[o].businessDay == day && db.orders[o].orderNumber == Some(FormatOrderNumber(k))
  }

  ghost predicate NumberInRange(db: Db, o: Order) {
    o.orderNumber.Some? ==> exists k: nat :: 1 <= k <= CounterOf(db, o.businessDay) && o.orderNumber.value == FormatOrderNumber(k)
  }

  ghost predicate NumberAssigned(db: Db, day: int, k: nat) {
    exists o: nat :: o < |db.orders| && HoldsNumber(db, o, day, k)
  }

  /** Each day's numbers are exactly one to the counter, each held by one order. */
  ghost predicate QueueOk(db: Db) {
    && (forall o :: 0 <= o < |db.orders| ==> NumberInRange(db, db.orders[o]))
    && (forall day, k: nat :: 1 <= k <= CounterOf(db, day) ==> NumberAssigned(db, day, k))
    && (forall a, b :: 0 <= a < b < |db.orders| && db.orders[a].businessDay == db.orders[b].businessDay && db.orders[a].orderNumber.Some? ==>
          db.orders[a].orderNumber != db.orders[b].orderNumber)
  }

  // ----- The whole -----

  ghost predicate PaymentTablesOk(c: Core) {
    && PaymentsOk(c)
    && OneSuccess(c.db)
    && PaidHavePayment(c.db)
    && OneLive(c.db)
    && UniqueIntents(c.db)
  }

  ghost predicate CoreInv(c: Core) {
    && OrdersOk(c.db)
    && PaymentTablesOk(c)
    && RefundsOk(c.db)
    && EventsOk(c)
    && QueueOk(c.db)
  }

  // ----- What never changes -----

  ghost predicate SameOrder(a: Order, b: Order) {
    && a.priced == b.priced && a.currency == b.currency && a.businessDay == b.businessDay && a.hour == b.hour && a.kioskDevice == b.kioskDevice
    && a.history <= b.history
    && (a.orderNumber.Some? ==> a.orderNumber == b.orderNumber)
    && (TookMoney(a.status) ==> TookMoney(b.status))
  }

  /** A settled payment is final, down to the rail it was paid by. */
  ghost predicate SamePayment(a: Payment, b: Payment) {
    && a.orderId == b.orderId && a.provider == b.provider && a.intentId == b.intentId
    && a.amountMinor == b.amountMinor && a.currency == b.currency
    && (a.status.Succeeded? ==> a == b)
  }

  ghost predicate SameIntent(a: Intent, b: Intent) {
    && a.amountMinor == b.amountMinor && a.currency == b.currency
    && (!a.state.IntentOpen? ==> a.state == b.state)
  }

  ghost predicate SameEvent(a: Event, b: Event) {
    a.providerEventId == b.providerEventId && a.outcome == b.outcome && (a.processed ==> b.processed)
  }

  /** Rows are never removed, and what they settled stays settled. */
  ghost predicate Grows(a: Core, b: Core) {
    && |a.db.orders| <= |b.db.orders|
    && (forall o :: 0 <= o < |a.db.orders| ==> SameOrder(a.db.orders[o], b.db.orders[o]))
    && |a.db.payments| <= |b.db.payments|
    && (forall p :: 0 <= p < |a.db.payments| ==> SamePayment(a.db.payments[p], b.db.payments[p]))
    && |a.gateway| <= |b.gateway|
    && (forall i :: 0 <= i < |a.gateway| ==> SameIntent(a.gateway[i], b.gateway[i]))
    && |a.db.events| <= |b.db.events|
    && (forall e :: 0 <= e < |a.db.events| ==> SameEvent(a.db.events[e], b.db.events[e]))
    && a.db.refunds <= b.db.refunds
  }

  lemma GrowsTransitive(a: Core, b: Core, c: Core)
    requires Grows(a, b) && Grows(b, c)
    ensures Grows(a, c)
  {
    forall o | 0 <= o < |a.db.orders| ensures SameOrder(a.db.orders[o], c.db.orders[o]) {
      assert SameOrder(a.db.orders[o], b.db.orders[o]);
      assert SameOrder(b.db.orders[o], c.db.orders[o]);
    }
    forall p | 0 <= p < |a.db.payments| ensures SamePayment(a.db.payments[p], c.db.payments[p]) {
      assert SamePayment(a.db.payments[p], b.db.payments[p]);
      assert SamePayment(b.db.payments[p], c.db.payments[p]);
    }
    forall i | 0 <= i < |a.gateway| ensures SameIntent(a.gateway[i], c.gateway[i]) {
      assert SameIntent(a.gateway[i], b.gateway[i]);
      assert SameIntent(b.gateway[i], c.gateway[i]);
    }
    forall e | 0 <= e < |a.db.events| ensures SameEvent(a.db.events[e], c.db.events[e]) {
      assert SameEvent(a.db.events[e], b.db.events[e]);
      assert SameEvent(b.db.events[e], c.db.events[e]);
    }
  }

  // ----- What a process may rely on -----

  /** The order snapshot still names the order's price. */
  ghost predicate QuoteOk(c: Core, q: OrderQuote) {
    q.id < |c.db.orders| && q.totalMinor == Total(c.db.orders[q.id]) && q.currency == c.db.orders[q.id].currency
  }

  /** The payment snapshot agrees with its row on everything but, perhaps, the status. */
  ghost predicate RecordOk(c: Core, outcome: GatewayOutcome, r: PaymentRecord) {
    && r.id < |c.db.payments|
    && !outcome.OutcomeIgnored?
    && var p := c.db.payments[r.id];
       && p.intentId == Some(outcome.intentId) && p.orderId == r.orderId
       && p.amountMinor == r.amountMinor && p.currency == r.currency
  }

  /** A decision rests on something final at the gateway. */
  ghost predicate DecisionOk(c: Core, event: nat, d: Decision) {
    match d
    case MarkPaid(p, o) =>
      && p < |c.db.payments| && c.db.payments[p].orderId == o
      && event < |c.db.events| && Matches(c.db, c.db.events[event].outcome, p)
    case MarkPayment(p, status) =>
      && p < |c.db.payments| && (status.Failed? || status.Cancelled?)
      && event < |c.db.events| && !c.db.events[event].outcome.OutcomeSucceeded?
      && (status.Cancelled? ==> c.db.payments[p].intentId.Some? && Voided(c.gateway, c.db.payments[p].intentId.value))
      && c.db.payments[p].provider.Stripe?
    case Skip =>
      && event < |c.db.events|
      && (c.db.events[event].outcome.OutcomeSucceeded? ==> Matched(c.db, c.db.events[event].outcome))
    case Refuse(_) => true
  }

  /** The live payment a closing request read: its intent, once cleared, is cancelled for good. */
  ghost predicate LiveOk(c: Core, live: Option<LivePayment>, cleared: bool) {
    live.Some? ==>
      && live.value.id < |c.db.payments|
      && live.value.intentId.Some?
      && c.db.payments[live.value.id].intentId == live.value.intentId
      && (cleared ==> Voided(c.gateway, live.value.intentId.value))
  }

  ghost predicate ProcessOk(c: Core, p: Process) {
    match p
    case SawEvent(e, outcome) => e < |c.db.events| && c.db.events[e].outcome == outcome
    case SawEventPayment(e, outcome, payment) =>
      && e < |c.db.events| && c.db.events[e].outcome == outcome
      && (payment.Some? ==> RecordOk(c, outcome, payment.value))
    case Decided(e, d, _) => DecisionOk(c, e, d)
    case SawPayable(q) => QuoteOk(c, q)
    case Payable(q) => QuoteOk(c, q)
    case IntentOpened(q, i) => QuoteOk(c, q) && i < |c.gateway|
    case Closing(door, o, from) => from.Draft? || from.PendingPayment?
    case ClosingLive(door, o, from, live) => (from.Draft? || from.PendingPayment?) && LiveOk(c, live, false)
    case Cleared(door, o, from, live) => (from.Draft? || from.PendingPayment?) && LiveOk(c, live, true)
    case SawRefundable(p, o, captured) => Settles(c.db, p, o) && captured == c.db.payments[p].amountMinor
    case Refundable(p, captured, o, from) =>
      Settles(c.db, p, o) && captured == c.db.payments[p].amountMinor && TookMoney(from)
    case Moving(o, from, to) => IsStaffTransition(from, to)
  }

  ghost predicate Inv(s: Sys) {
    && CoreInv(s.core)
    && forall pid :: pid in s.procs ==> ProcessOk(s.core, s.procs[pid])
  }

  lemma MatchedGrows(a: Core, b: Core, outcome: GatewayOutcome)
    requires Grows(a, b) && Matched(a.db, outcome)
    ensures Matched(b.db, outcome)
  {
    var p: nat :| p < |a.db.payments| && MatchesPaid(a.db, outcome, p);
    assert SamePayment(a.db.payments[p], b.db.payments[p]);
    assert SameOrder(a.db.orders[a.db.payments[p].orderId], b.db.orders[a.db.payments[p].orderId]);
    assert MatchesPaid(b.db, outcome, p);
  }

  /** Snapshots outlive whatever other requests do: everything a process relies on is final. */
  lemma ProcessStable(a: Core, b: Core, p: Process)
    requires Grows(a, b) && ProcessOk(a, p)
    ensures ProcessOk(b, p)
  {
    match p
    case Decided(e, d, _) =>
      if d.Skip? && a.db.events[e].outcome.OutcomeSucceeded? {
        MatchedGrows(a, b, a.db.events[e].outcome);
      }
      if d.Skip? {
        assert SameEvent(a.db.events[e], b.db.events[e]);
      }
      if d.MarkPaid? || d.MarkPayment? {
        assert SamePayment(a.db.payments[d.paymentId], b.db.payments[d.paymentId]);
        assert SameEvent(a.db.events[e], b.db.events[e]);
      }
    case SawEventPayment(e, outcome, payment) =>
      if payment.Some? {
        assert SamePayment(a.db.payments[payment.value.id], b.db.payments[payment.value.id]);
      }
    case ClosingLive(door, o, from, live) =>
      if live.Some? {
        assert SamePayment(a.db.payments[live.value.id], b.db.payments[live.value.id]);
      }
    case Cleared(door, o, from, live) =>
      if live.Some? {
        assert SamePayment(a.db.payments[live.value.id], b.db.payments[live.value.id]);
        assert SameIntent(a.gateway[live.value.intentId.value], b.gateway[live.value.intentId.value]);
      }
    case SawRefundable(q, o, captured) => assert SamePayment(a.db.payments[q], b.db.payments[q]);
    case Refundable(q, captured, o, from) => assert SamePayment(a.db.payments[q], b.db.payments[q]);
    case _ =>
  }
}

/** Each transaction and each gateway move keeps the invariant and only grows the state. */
module Preservation {
  import opened Wrappers
  import opened OrderState
  import opened PaymentDecision
  import opened Pricing
  import opened QueueNumber
  import opened Tables
  import opened Protocol
  import opened Invariants
  import Vat

  // ----- What carries over along growth -----

  lemma PaymentRowGrows(a: Core, b: Core, row: Payment)
    requires Grows(a, b) && PaymentRowOk(a.db, a.gateway, row)
    ensures PaymentRowOk(b.db, b.gateway, row)
  {
    assert SameOrder(a.db.orders[row.orderId], b.db.orders[row.orderId]);
    if row.intentId.Some? {
      assert SameIntent(a.gateway[row.intentId.value], b.gateway[row.intentId.value]);
    }
  }

  lemma SettlementGrows(a: Core, b: Core, o: nat)
    requires Grows(a, b) && HasSettlement(a.db, o)
    ensures HasSettlement(b.db, o)
  {
    var p: nat :| p < |a.db.payments| && Settles(a.db, p, o);
    assert SamePayment(a.db.payments[p], b.db.payments[p]);
    assert Settles(b.db, p, o);
  }

  /** A payment row that kept its status, or fell to FAILED or, its intent being cancelled, to CANCELLED. */
  ghost predicate Demoted(gateway: Gateway, a: Payment, b: Payment) {
    a == b ||
    ( && !a.status.Succeeded? && a.provider.Stripe?
      && (b.status.Failed? || b.status.Cancelled?)
      && b == a.(status := b.status)
      && (b.status.Cancelled? ==> a.intentId.Some? && Voided(gateway, a.intentId.value)))
  }

  /** No payment newly succeeded and no order newly took money. */
  ghost predicate NoNewMoney(a: Core, b: Core) {
    && |b.db.payments| == |a.db.payments|
    && (forall p :: 0 <= p < |a.db.payments| ==> Demoted(b.gateway, a.db.payments[p], b.db.payments[p]))
    && (forall o :: 0 <= o < |b.db.orders| && TookMoney(b.db.orders[o].status) ==>
          o < |a.db.orders| && TookMoney(a.db.orders[o].status))
  }

  lemma PaymentsSurvive(a: Core, b: Core)
    requires PaymentTablesOk(a) && Grows(a, b) && NoNewMoney(a, b)
    ensures PaymentTablesOk(b)
  {
    forall p | 0 <= p < |b.db.payments| ensures PaymentRowOk(b.db, b.gateway, b.db.payments[p]) {
      assert Demoted(b.gateway, a.db.payments[p], b.db.payments[p]);
      PaymentRowGrows(a, b, a.db.payments[p]);
    }
    forall o | 0 <= o < |b.db.orders| && TookMoney(b.db.orders[o].status) ensures HasSettlement(b.db, o) {
      assert HasSettlement(a.db, o);
      SettlementGrows(a, b, o);
    }
    forall p: nat, q: nat, o | Settles(b.db, p, o) && Settles(b.db, q, o) ensures p == q {
      assert Demoted(b.gateway, a.db.payments[p], b.db.payments[p]);
      assert Demoted(b.gateway, a.db.payments[q], b.db.payments[q]);
      assert Settles(a.db, p, o) && Settles(a.db, q, o);
    }
    IndexesSurvive(a, b);
  }

  lemma IndexesSurvive(a: Core, b: Core)
    requires OneLive(a.db) && UniqueIntents(a.db) && Grows(a, b) && |b.db.payments| == |a.db.payments|
    requires forall p :: 0 <= p < |a.db.payments| ==> IsLive(b.db.payments[p].status) ==> IsLive(a.db.payments[p].status)
    ensures OneLive(b.db) && UniqueIntents(b.db)
  {
    forall p, q | 0 <= p < q < |b.db.payments|
      ensures b.db.payments[p].orderId == b.db.payments[q].orderId ==> !(IsLive(b.db.payments[p].status) && IsLive(b.db.payments[q].status))
      ensures b.db.payments[p].intentId.Some? ==> b.db.payments[p].intentId != b.db.payments[q].intentId
    {
      assert SamePayment(a.db.payments[p], b.db.payments[p]);
      assert SamePayment(a.db.payments[q], b.db.payments[q]);
    }
  }

  lemma {:induction false} NoRefundsOf(refunds: seq<Refund>, p: nat)
    requires forall r :: 0 <= r < |refunds| ==> refunds[r].paymentId != p
    ensures RefundedOf(refunds, p) == 0
  {
    if refunds != [] {
      NoRefundsOf(refunds[..|refunds| - 1], p);
    }
  }

  /** Refunds are untouched, and the same old orders are REFUNDED. */
  ghost predicate SameRefunded(a: Db, b: Db) {
    && a.refunds == b.refunds
    && (forall o :: 0 <= o < |a.orders| && o < |b.orders| ==> (a.orders[o].status.Refunded? <==> b.orders[o].status.Refunded?))
  }

  lemma RefundsSurvive(a: Core, b: Core)
    requires RefundsOk(a.db) && PaymentsOk(a) && PaymentsOk(b) && Grows(a, b) && SameRefunded(a.db, b.db)
    // a payment that newly settled belongs to an order that is not REFUNDED
    requires forall p :: 0 <= p < |b.db.payments| && b.db.payments[p].status.Succeeded? ==>
               (p < |a.db.payments| && a.db.payments[p].status.Succeeded?) || !b.db.orders[b.db.payments[p].orderId].status.Refunded?
    ensures RefundsOk(b.db)
  {
    forall r | 0 <= r < |b.db.refunds| ensures RefundRowOk(b.db, b.db.refunds[r]) {
      assert RefundRowOk(a.db, a.db.refunds[r]);
      assert SamePayment(a.db.payments[a.db.refunds[r].paymentId], b.db.payments[a.db.refunds[r].paymentId]);
    }
    forall p: nat | p < |b.db.payments| ensures RefundsWithin(b.db, p) {
      assert PaymentRowOk(b.db, b.gateway, b.db.payments[p]);
      if p < |a.db.payments| && a.db.payments[p].status.Succeeded? {
        assert SamePayment(a.db.payments[p], b.db.payments[p]);
        assert PaymentRowOk(a.db, a.gateway, a.db.payments[p]);
        assert RefundsWithin(a.db, p);
      } else {
        assert forall r :: 0 <= r < |a.db.refunds| ==> RefundRowOk(a.db, a.db.refunds[r]);
        NoRefundsOf(b.db.refunds, p);
      }
    }
  }

  lemma EventsSurvive(a: Core, b: Core)
    requires EventsOk(a) && Grows(a, b) && |a.db.events| == |b.db.events|
    requires forall e :: 0 <= e < |a.db.events| && b.db.events[e].processed && !a.db.events[e].processed && b.db.events[e].outcome.OutcomeSucceeded? ==>
               Matched(a.db, b.db.events[e].outcome)
    ensures EventsOk(b)
  {
    forall e | 0 <= e < |b.db.events|
      ensures Truthful(b.gateway, b.db.events[e].outcome)
      ensures b.db.events[e].processed && b.db.events[e].outcome.OutcomeSucceeded? ==> Matched(b.db, b.db.events[e].outcome)
    {
      var outcome := a.db.events[e].outcome;
      assert SameEvent(a.db.events[e], b.db.events[e]);
      TruthStays(a, b, outcome);
      if b.db.events[e].processed && outcome.OutcomeSucceeded? {
        MatchedGrows(a, b, outcome);
      }
    }
  }

  lemma TruthStays(a: Core, b: Core, outcome: GatewayOutcome)
    requires Grows(a, b) && Truthful(a.gateway, outcome)
    ensures Truthful(b.gateway, outcome)
  {
    if !outcome.OutcomeIgnored? {
      assert SameIntent(a.gateway[outcome.intentId], b.gateway[outcome.intentId]);
    }
  }

  lemma QueueSurvives(a: Db, b: Db)
    requires QueueOk(a) && a.counters == b.counters && |a.orders| == |b.orders|
    requires forall o :: 0 <= o < |a.orders| ==>
               a.orders[o].businessDay == b.orders[o].businessDay && a.orders[o].orderNumber == b.orders[o].orderNumber
    ensures QueueOk(b)
  {
    forall o | 0 <= o < |b.orders| ensures NumberInRange(b, b.orders[o]) {
      assert NumberInRange(a, a.orders[o]);
      if b.orders[o].orderNumber.Some? {
        var k: nat :| 1 <= k <= CounterOf(a, a.orders[o].businessDay) && a.orders[o].orderNumber.value == FormatOrderNumber(k);
        assert 1 <= k <= CounterOf(b, b.orders[o].businessDay);
      }
    }
    forall day, k: nat | 1 <= k <= CounterOf(b, day) ensures NumberAssigned(b, day, k) {
      assert CounterOf(a, day) == CounterOf(b, day);
      assert NumberAssigned(a, day, k);
      var o: nat :| o < |a.orders| && HoldsNumber(a, o, day, k);
      assert HoldsNumber(b, o, day, k);
    }
  }

  /** Where no money newly moved and the inbox was left alone, everything about payments, refunds and events carries over. */
  lemma RestSurvives(a: Core, b: Core)
    requires PaymentTablesOk(a) && RefundsOk(a.db) && EventsOk(a)
    requires Grows(a, b) && NoNewMoney(a, b) && SameRefunded(a.db, b.db) && b.db.events == a.db.events
    ensures PaymentTablesOk(b) && RefundsOk(b.db) && EventsOk(b)
  {
    PaymentsSurvive(a, b);
    NothingNewlySettled(a, b);
    RefundsSurvive(a, b);
    EventsSurvive(a, b);
  }

  lemma NothingNewlySettled(a: Core, b: Core)
    requires NoNewMoney(a, b)
    ensures forall p :: 0 <= p < |b.db.payments| && b.db.payments[p].status.Succeeded? ==> a.db.payments[p].status.Succeeded?
  {
    forall p | 0 <= p < |b.db.payments| && b.db.payments[p].status.Succeeded? ensures a.db.payments[p].status.Succeeded? {
      assert Demoted(b.gateway, a.db.payments[p], b.db.payments[p]);
    }
  }

  // ----- The guarded move -----

  lemma QueuedStays(h: seq<HistoryRow>, row: HistoryRow)
    ensures WasQueued(h + [row]) <==> WasQueued(h) || row.to.PendingPayment?
  {
    if WasQueued(h) {
      var i :| 0 <= i < |h| && h[i].to.PendingPayment?;
      assert (h + [row])[i].to.PendingPayment?;
    }
    if row.to.PendingPayment? {
      assert (h + [row])[|h|].to.PendingPayment?;
    }
  }

  /** A legal guarded move keeps every order row in order, and leaves the queue alone. */
  lemma MoveKeepsOrders(c: Core, o: nat, from: OrderStatus, to: OrderStatus, actor: ActorType, reason: Option<string>, db: Db)
    requires OrdersOk(c.db) && QueueOk(c.db)
    requires IsLegalTransition(from, to) && !to.PendingPayment?
    requires TransitionOrder(c.db, o, from, to, actor, reason) == Some(db)
    ensures OrdersOk(db) && QueueOk(db) && Grows(c, c.(db := db))
  {
    var row := HistoryRow(Some(from), to, actor, reason);
    var before, after := c.db.orders[o], db.orders[o];
    assert OrderRowOk(before);
    TrailExtends(before.history, from, row);
    QueuedStays(before.history, row);
    assert OrderRowOk(after);
    assert before.history <= after.history;
    QueueSurvives(c.db, db);
  }

  /** Any legal move that neither settles nor refunds an order keeps the invariant. */
  lemma MoveKeeps(c: Core, o: nat, from: OrderStatus, to: OrderStatus, actor: ActorType, reason: Option<string>, db: Db)
    requires CoreInv(c)
    requires IsLegalTransition(from, to) && !to.PendingPayment? && !to.Paid? && !to.Refunded?
    requires TransitionOrder(c.db, o, from, to, actor, reason) == Some(db)
    ensures CoreInv(c.(db := db)) && Grows(c, c.(db := db))
  {
    var b := c.(db := db);
    MoveKeepsOrders(c, o, from, to, actor, reason, db);
    RestSurvives(c, b);
  }

  // ----- Writes to a payment that has not settled -----

  lemma DemoteKeeps(c: Core, p: nat, status: PaymentStatus)
    requires CoreInv(c) && p < |c.db.payments|
    requires Demoted(c.gateway, c.db.payments[p], c.db.payments[p].(status := status))
    ensures var b := c.(db := SetPayment(c.db, p, status, None));
            CoreInv(b) && Grows(c, b)
  {
    var b := c.(db := SetPayment(c.db, p, status, None));
    assert Grows(c, b);
    RestSurvives(c, b);
    QueueSurvives(c.db, b.db);
  }

  lemma ProcessedKeeps(c: Core, event: nat, p: Option<nat>)
    requires CoreInv(c) && event < |c.db.events|
    requires c.db.events[event].outcome.OutcomeSucceeded? ==> Matched(c.db, c.db.events[event].outcome)
    ensures var b := c.(db := MarkProcessed(c.db, event, p));
            CoreInv(b) && Grows(c, b)
  {
    var b := c.(db := MarkProcessed(c.db, event, p));
    assert Grows(c, b);
    PaymentsSurvive(c, b);
    RefundsSurvive(c, b);
    EventsSurvive(c, b);
    QueueSurvives(c.db, b.db);
  }

  // ----- The inbox processor -----

  lemma MarkPaymentKeeps(c: Core, event: nat, p: nat, status: PaymentStatus)
    requires CoreInv(c) && DecisionOk(c, event, MarkPayment(p, status))
    ensures var b := c.(db := ApplyMarkPayment(c.db, event, p, status));
            CoreInv(b) && Grows(c, b)
  {
    if c.db.payments[p].status.Succeeded? {
      ProcessedKeeps(c, event, Some(p));
    } else {
      var marked := c.(db := SetPayment(c.db, p, status, None));
      DemoteKeeps(c, p, status);
      ProcessedKeeps(marked, event, Some(p));
      GrowsTransitive(c, marked, marked.(db := MarkProcessed(marked.db, event, Some(p))));
    }
  }

  lemma SettleGrows(c: Core, p: nat, o: nat, rail: Option<PaymentMethod>, moved: Db)
    requires OrdersOk(c.db) && QueueOk(c.db) && p < |c.db.payments| && !c.db.payments[p].status.Succeeded?
    requires TransitionOrder(c.db, o, PendingPayment, Paid, System, None) == Some(moved)
    ensures var settled := c.(db := SetPayment(moved, p, PaymentStatus.Succeeded, rail));
            OrdersOk(settled.db) && QueueOk(settled.db) && Grows(c, settled)
  {
    MoveKeepsOrders(c, o, PendingPayment, Paid, System, None, moved);
    QueueSurvives(moved, SetPayment(moved, p, PaymentStatus.Succeeded, rail));
  }

  /** The one way a gateway payment settles: its intent captured exactly its amount, and its order was still unpaid. */
  lemma SettleKeeps(c: Core, event: nat, p: nat, o: nat, rail: Option<PaymentMethod>, moved: Db)
    requires CoreInv(c) && DecisionOk(c, event, MarkPaid(p, o))
    requires TransitionOrder(c.db, o, PendingPayment, Paid, System, None) == Some(moved)
    ensures var settled := c.(db := SetPayment(moved, p, PaymentStatus.Succeeded, rail));
            CoreInv(settled) && Grows(c, settled) && Matched(settled.db, c.db.events[event].outcome)
  {
    var settled := c.(db := SetPayment(moved, p, PaymentStatus.Succeeded, rail));
    assert PaymentRowOk(c.db, c.gateway, c.db.payments[p]);
    SettleGrows(c, p, o, rail, moved);
    NewSuccessKeeps(c, settled, p, o);
    RefundsSurvive(c, settled);
    EventsSurvive(c, settled);
    MatchedHere(settled, event, p);
  }

  lemma MarkPaidKeeps(c: Core, event: nat, p: nat, o: nat, rail: Option<PaymentMethod>, db: Db)
    requires CoreInv(c) && DecisionOk(c, event, MarkPaid(p, o))
    requires ApplyMarkPaid(c.db, event, p, o, rail) == Some(db)
    ensures CoreInv(c.(db := db)) && Grows(c, c.(db := db))
  {
    var moved := TransitionOrder(c.db, o, PendingPayment, Paid, System, None).value;
    var settled := c.(db := SetPayment(moved, p, PaymentStatus.Succeeded, rail));
    SettleKeeps(c, event, p, o, rail, moved);
    ProcessedKeeps(settled, event, Some(p));
    GrowsTransitive(c, settled, c.(db := db));
  }

  lemma MatchedHere(c: Core, event: nat, p: nat)
    requires event < |c.db.events| && MatchesPaid(c.db, c.db.events[event].outcome, p)
    ensures Matched(c.db, c.db.events[event].outcome)
  {
  }

  /** Exactly payment `p` of order `o` newly settles, in a state where `o` was unpaid. */
  lemma NewSuccessKeeps(a: Core, b: Core, p: nat, o: nat)
    requires PaymentTablesOk(a) && Grows(a, b) && o < |a.db.orders| && !TookMoney(a.db.orders[o].status)
    requires |b.db.payments| == |a.db.payments| && b.db.orders[o].status.Paid?
    requires forall x :: 0 <= x < |b.db.orders| && x != o && TookMoney(b.db.orders[x].status) ==> x < |a.db.orders| && TookMoney(a.db.orders[x].status)
    requires p < |a.db.payments| && a.db.payments[p].orderId == o && a.db.payments[p].intentId.Some?
    requires Captured(a.gateway, a.db.payments[p].intentId.value, a.db.payments[p].amountMinor, a.db.payments[p].currency)
    requires b.db.payments[p].status.Succeeded?
    requires forall x :: 0 <= x < |a.db.payments| && x != p ==> b.db.payments[x] == a.db.payments[x]
    ensures PaymentTablesOk(b)
  {
    forall x | 0 <= x < |b.db.payments| ensures PaymentRowOk(b.db, b.gateway, b.db.payments[x]) {
      assert PaymentRowOk(a.db, a.gateway, a.db.payments[x]);
      PaymentRowGrows(a, b, a.db.payments[x]);
      if x == p {
        assert SamePayment(a.db.payments[p], b.db.payments[p]);
      }
    }
    assert Settles(b.db, p, o);
    forall x | 0 <= x < |b.db.orders| && TookMoney(b.db.orders[x].status) ensures HasSettlement(b.db, x) {
      if x != o {
        assert HasSettlement(a.db, x);
        SettlementGrows(a, b, x);
      }
    }
    forall x: nat, y: nat, z | Settles(b.db, x, z) && Settles(b.db, y, z) ensures x == y {
      assert SamePayment(a.db.payments[x], b.db.payments[x]);
      assert SamePayment(a.db.payments[y], b.db.payments[y]);
      assert PaymentRowOk(a.db, a.gateway, a.db.payments[x]);
      assert PaymentRowOk(a.db, a.gateway, a.db.payments[y]);
      if x != p && y != p {
        assert Settles(a.db, x, z) && Settles(a.db, y, z);
      }
    }
    IndexesSurvive(a, b);
  }

  // ----- Paying -----

  ghost predicate Appended(a: Core, b: Core, row: Payment) {
    b.db.payments == a.db.payments + [row]
  }

  /** A gateway payment joins the table: its intent is its own and its order holds no other live payment. */
  lemma OpenGatewayKeeps(c: Core, q: OrderQuote, i: nat, key: Option<string>, db: Db)
    requires CoreInv(c) && QuoteOk(c, q) && i < |c.gateway|
    requires OpenGatewayPayment(c.db, q.id, q.totalMinor, q.currency, i, key) == Some(db)
    ensures CoreInv(c.(db := db)) && Grows(c, c.(db := db))
  {
    var b := c.(db := db);
    var row := Payment(q.id, Stripe, Some(i), None, PaymentStatus.Pending, q.totalMinor, q.currency, key);
    assert Grows(c, b);
    LivePaymentKeeps(c, b, row);
    RefundsSurvive(c, b);
    EventsSurvive(c, b);
    QueueSurvives(c.db, db);
  }

  lemma LivePaymentKeeps(a: Core, b: Core, row: Payment)
    requires PaymentTablesOk(a) && Grows(a, b) && Appended(a, b, row) && b.db.orders == a.db.orders
    requires PaymentRowOk(b.db, b.gateway, row) && row.status.Pending? && row.intentId.Some?
    requires !HasLivePayment(a.db, row.orderId) && !IntentTaken(a.db, row.intentId.value)
    ensures PaymentTablesOk(b)
  {
    forall x | 0 <= x < |b.db.payments| ensures PaymentRowOk(b.db, b.gateway, b.db.payments[x]) {
      if x < |a.db.payments| {
        PaymentRowGrows(a, b, a.db.payments[x]);
      }
    }
    forall o | 0 <= o < |b.db.orders| && TookMoney(b.db.orders[o].status) ensures HasSettlement(b.db, o) {
      assert HasSettlement(a.db, o);
      SettlementGrows(a, b, o);
    }
    forall x: nat, y: nat, z | Settles(b.db, x, z) && Settles(b.db, y, z) ensures x == y {
      assert Settles(a.db, x, z) && Settles(a.db, y, z);
    }
  }

  /** Cash settles an order that was still unpaid, beside whatever gateway attempts it has. */
  lemma TakeCashKeeps(c: Core, q: OrderQuote, key: Option<string>, db: Db)
    requires CoreInv(c) && QuoteOk(c, q)
    requires TakeCash(c.db, q.id, q.totalMinor, q.currency, key) == Some(db)
    ensures CoreInv(c.(db := db)) && Grows(c, c.(db := db))
  {
    var b, o := c.(db := db), q.id;
    var row := Payment(o, Cash, None, Some(CashInHand), PaymentStatus.Succeeded, q.totalMinor, q.currency, key);
    var moved := TransitionOrder(c.db, o, PendingPayment, Paid, User, None).value;
    MoveKeepsOrders(c, o, PendingPayment, Paid, User, None, moved);
    assert db == moved.(payments := c.db.payments + [row]);
    assert Grows(c, b);
    QueueSurvives(moved, db);
    CashPaymentKeeps(c, b, o, row);
    RefundsSurvive(c, b);
    EventsSurvive(c, b);
  }

  lemma CashPaymentKeeps(a: Core, b: Core, o: nat, row: Payment)
    requires PaymentTablesOk(a) && Grows(a, b) && o < |a.db.orders| && !TookMoney(a.db.orders[o].status)
    requires Appended(a, b, row) && PaymentRowOk(b.db, b.gateway, row)
    requires row.orderId == o && row.status.Succeeded? && row.intentId.None?
    requires forall x :: 0 <= x < |b.db.orders| && x != o && TookMoney(b.db.orders[x].status) ==> x < |a.db.orders| && TookMoney(a.db.orders[x].status)
    ensures PaymentTablesOk(b)
  {
    var n := |a.db.payments|;
    forall x | 0 <= x < |b.db.payments| ensures PaymentRowOk(b.db, b.gateway, b.db.payments[x]) {
      if x < n {
        PaymentRowGrows(a, b, a.db.payments[x]);
      }
    }
    assert Settles(b.db, n, o);
    forall x | 0 <= x < |b.db.orders| && TookMoney(b.db.orders[x].status) ensures HasSettlement(b.db, x) {
      if x != o {
        assert HasSettlement(a.db, x);
        SettlementGrows(a, b, x);
      }
    }
    CashSettlesOnce(a, b, o, row);
  }

  lemma CashSettlesOnce(a: Core, b: Core, o: nat, row: Payment)
    requires PaymentsOk(a) && OneSuccess(a.db) && o < |a.db.orders| && !TookMoney(a.db.orders[o].status)
    requires Appended(a, b, row) && row.orderId == o
    ensures OneSuccess(b.db)
  {
    var n := |a.db.payments|;
    forall x: nat | x < n ensures !Settles(a.db, x, o) {
      assert PaymentRowOk(a.db, a.gateway, a.db.payments[x]);
    }
    forall x: nat, y: nat, z | Settles(b.db, x, z) && Settles(b.db, y, z) ensures x == y {
      assert x < n ==> Settles(a.db, x, z);
      assert y < n ==> Settles(a.db, y, z);
    }
  }

  // ----- Closing an unpaid order -----

  /** Both doors: the order moves, then the payment whose intent is already cancelled is written off. */
  lemma CloseKeeps(c: Core, o: nat, from: OrderStatus, to: OrderStatus, live: Option<LivePayment>, actor: ActorType, reason: Option<string>, moved: Db)
    requires CoreInv(c) && LiveOk(c, live, true)
    requires (from.Draft? && to == OrderStatus.Cancelled) || (from.PendingPayment? && (to == OrderStatus.Cancelled || to == OrderStatus.Expired))
    requires TransitionOrder(c.db, o, from, to, actor, reason) == Some(moved)
    ensures var b := c.(db := if live.Some? then SetPayment(moved, live.value.id, PaymentStatus.Cancelled, None) else moved);
            CoreInv(b) && Grows(c, b)
    // the unguarded write is safe: a payment whose intent is cancelled never settled
    ensures live.Some? ==> !c.db.payments[live.value.id].status.Succeeded?
  {
    MoveKeeps(c, o, from, to, actor, reason, moved);
    if live.Some? {
      var m := c.(db := moved);
      assert PaymentRowOk(c.db, c.gateway, c.db.payments[live.value.id]);
      DemoteKeeps(m, live.value.id, PaymentStatus.Cancelled);
      GrowsTransitive(c, m, c.(db := SetPayment(moved, live.value.id, PaymentStatus.Cancelled, None)));
    }
  }

  // ----- Refunding -----

  lemma RefundAppended(refunds: seq<Refund>, r: Refund, p: nat)
    ensures RefundedOf(refunds + [r], p) == RefundedOf(refunds, p) + if r.paymentId == p then r.amountMinor else 0
  {
    assert (refunds + [r])[..|refunds|] == refunds;
  }

  lemma PartialRefundKeeps(c: Core, p: nat, o: nat, r: Refund)
    requires CoreInv(c) && Settles(c.db, p, o) && r.paymentId == p && r.amountMinor > 0
    requires RefundedOf(c.db.refunds, p) + r.amountMinor < c.db.payments[p].amountMinor
    ensures var b := c.(db := c.db.(refunds := c.db.refunds + [r]));
            CoreInv(b) && Grows(c, b)
  {
    var b := c.(db := c.db.(refunds := c.db.refunds + [r]));
    assert PaymentRowOk(c.db, c.gateway, c.db.payments[p]);
    assert RefundsWithin(c.db, p);
    RefundAppended(c.db.refunds, r, p);
    OnlyRefundsAdded(c, r);
    NewRefundKeeps(c, b, p, o, r);
  }

  lemma OnlyRefundsAdded(c: Core, r: Refund)
    requires CoreInv(c)
    ensures var b := c.(db := c.db.(refunds := c.db.refunds + [r]));
            OrdersOk(b.db) && PaymentTablesOk(b) && EventsOk(b) && QueueOk(b.db) && Grows(c, b)
  {
    var b := c.(db := c.db.(refunds := c.db.refunds + [r]));
    QueueSurvives(c.db, b.db);
    assert Grows(c, b);
    PaymentsSurvive(c, b);
    EventsSurvive(c, b);
  }

  /** A refund that leaves nothing: something was left before it, so the order had not moved to REFUNDED and may move there. */
  lemma FullRefundKeeps(c: Core, p: nat, o: nat, from: OrderStatus, r: Refund, why: string, db: Db)
    requires CoreInv(c) && Settles(c.db, p, o) && TookMoney(from) && r.paymentId == p && r.amountMinor > 0
    requires RefundedOf(c.db.refunds, p) + r.amountMinor == c.db.payments[p].amountMinor
    requires TransitionOrder(c.db.(refunds := c.db.refunds + [r]), o, from, Refunded, User, Some(why)) == Some(db)
    ensures CoreInv(c.(db := db)) && Grows(c, c.(db := db))
  {
    var b := c.(db := db);
    assert PaymentRowOk(c.db, c.gateway, c.db.payments[p]);
    assert RefundsWithin(c.db, p);
    assert !from.Refunded?;
    RefundMoves(c, o, from, r, why, db);
    RefundAppended(c.db.refunds, r, p);
    NewRefundKeeps(c, b, p, o, r);
  }

  lemma RefundMoves(c: Core, o: nat, from: OrderStatus, r: Refund, why: string, db: Db)
    requires CoreInv(c) && TookMoney(from) && !from.Refunded?
    requires TransitionOrder(c.db.(refunds := c.db.refunds + [r]), o, from, Refunded, User, Some(why)) == Some(db)
    ensures var b := c.(db := db);
            OrdersOk(db) && PaymentTablesOk(b) && EventsOk(b) && QueueOk(db) && Grows(c, b)
  {
    var b := c.(db := db);
    var moved := TransitionOrder(c.db, o, from, Refunded, User, Some(why)).value;
    MoveKeepsOrders(c, o, from, Refunded, User, Some(why), moved);
    assert db == moved.(refunds := c.db.refunds + [r]);
    QueueSurvives(moved, db);
    assert Grows(c, b);
    PaymentsSurvive(c, b);
    EventsSurvive(c, b);
  }

  lemma RefundKeeps(c: Core, p: nat, captured: int, o: nat, from: OrderStatus, amount: int, why: string, db: Db)
    requires CoreInv(c) && ProcessOk(c, Refundable(p, captured, o, from))
    requires ApplyRefund(c.db, p, captured, o, from, amount, why) == Some(db)
    ensures CoreInv(c.(db := db)) && Grows(c, c.(db := db))
  {
    if RefundedOf(c.db.refunds, p) + amount == captured {
      FullRefundKeeps(c, p, o, from, Refund(p, amount), why, db);
    } else {
      PartialRefundKeeps(c, p, o, Refund(p, amount));
    }
  }

  lemma NewRefundKeeps(a: Core, b: Core, p: nat, o: nat, r: Refund)
    requires RefundsOk(a.db) && PaymentTablesOk(a) && PaymentTablesOk(b) && Grows(a, b)
    requires b.db.payments == a.db.payments && |b.db.orders| == |a.db.orders|
    requires Settles(a.db, p, o) && r.paymentId == p && r.amountMinor > 0
    requires b.db.refunds == a.db.refunds + [r]
    requires RefundedOf(b.db.refunds, p) <= a.db.payments[p].amountMinor
    requires forall x :: 0 <= x < |a.db.orders| && x != o ==> (a.db.orders[x].status.Refunded? <==> b.db.orders[x].status.Refunded?)
    requires o < |b.db.orders| && (b.db.orders[o].status.Refunded? <==> RefundedOf(b.db.refunds, p) == a.db.payments[p].amountMinor)
    ensures RefundsOk(b.db)
  {
    forall x | 0 <= x < |b.db.refunds| ensures RefundRowOk(b.db, b.db.refunds[x]) {
      if x < |a.db.refunds| {
        assert RefundRowOk(a.db, a.db.refunds[x]);
      }
    }
    forall q: nat | q < |b.db.payments| ensures RefundsWithin(b.db, q) {
      assert RefundsWithin(a.db, q);
      RefundAppended(a.db.refunds, r, q);
      if q != p && b.db.payments[q].status.Succeeded? && b.db.payments[q].orderId == o {
        assert Settles(a.db, q, o);
      }
    }
  }

  // ----- Creating orders and joining the queue -----

  lemma TrailStarts(status: OrderStatus, actor: ActorType)
    requires status.Draft? || status.PendingPayment?
    ensures var h := [HistoryRow(None, status, actor, None)];
            Trail(h, status) && (WasQueued(h) <==> status.PendingPayment?)
  {
    var h := [HistoryRow(None, status, actor, None)];
    if status.PendingPayment? {
      assert h[0].to.PendingPayment?;
    }
  }

  /** The next number is new: every number of the day so far is at most the counter. */
  lemma ClaimIsFresh(db: Db, day: int, o: nat)
    requires QueueOk(db) && o < |db.orders| && db.orders[o].businessDay == day
    ensures db.orders[o].orderNumber != Some(ClaimedNumber(db, day))
  {
    assert NumberInRange(db, db.orders[o]);
    if db.orders[o].orderNumber.Some? {
      var k: nat :| 1 <= k <= CounterOf(db, day) && db.orders[o].orderNumber.value == FormatOrderNumber(k);
      if db.orders[o].orderNumber == Some(ClaimedNumber(db, day)) {
        FormatInjective(k, CounterOf(db, day) + 1);
      }
    }
  }

  /** Order `o`, numberless until now or new, takes the next number of its day. */
  lemma ClaimKeepsQueue(a: Db, b: Db, o: nat)
    requires QueueOk(a) && o < |b.orders| && |a.orders| <= |b.orders| <= |a.orders| + 1 && (|b.orders| > |a.orders| ==> o == |a.orders|)
    requires forall x :: 0 <= x < |a.orders| && x != o ==> a.orders[x].businessDay == b.orders[x].businessDay && a.orders[x].orderNumber == b.orders[x].orderNumber
    requires o < |a.orders| ==> a.orders[o].orderNumber.None? && a.orders[o].businessDay == b.orders[o].businessDay
    requires b.orders[o].orderNumber == Some(ClaimedNumber(a, b.orders[o].businessDay))
    requires b.counters == ClaimNumber(a, b.orders[o].businessDay).counters
    ensures QueueOk(b)
  {
    var day := b.orders[o].businessDay;
    var top := CounterOf(b, day);
    forall x | 0 <= x < |b.orders| ensures NumberInRange(b, b.orders[x]) {
      if x == o {
        assert 1 <= top && b.orders[o].orderNumber.value == FormatOrderNumber(top);
      } else {
        assert NumberInRange(a, a.orders[x]);
        if b.orders[x].orderNumber.Some? {
          var k: nat :| 1 <= k <= CounterOf(a, a.orders[x].businessDay) && a.orders[x].orderNumber.value == FormatOrderNumber(k);
          assert 1 <= k <= CounterOf(b, b.orders[x].businessDay) && b.orders[x].orderNumber.value == FormatOrderNumber(k);
        }
      }
    }
    forall d, k: nat | 1 <= k <= CounterOf(b, d) ensures NumberAssigned(b, d, k) {
      if d == day && k == top {
        assert HoldsNumber(b, o, d, k);
      } else {
        assert NumberAssigned(a, d, k);
        var x: nat :| x < |a.orders| && HoldsNumber(a, x, d, k);
        assert HoldsNumber(b, x, d, k);
      }
    }
    forall x, y | 0 <= x < y < |b.orders| && b.orders[x].businessDay == b.orders[y].businessDay && b.orders[x].orderNumber.Some?
      ensures b.orders[x].orderNumber != b.orders[y].orderNumber
    {
      if x == o {
        ClaimIsFresh(a, day, y);
      } else if y == o && b.orders[x].businessDay == day {
        ClaimIsFresh(a, day, x);
      }
    }
  }

  lemma CreateOrderGrows(c: Core, request: OrderRequest, db: Db)
    requires OrdersOk(c.db) && Vat.ValidRate(request.vatBasisPoints) && Tables.CreateOrder(c.db, request) == Some(db)
    ensures OrdersOk(db) && Grows(c, c.(db := db)) && NoNewMoney(c, c.(db := db)) && SameRefunded(c.db, db)
  {
    QuoteIsConsistent(request.items, request.catalog, request.vatBasisPoints);
    TrailStarts(if request.draft then Draft else PendingPayment, ActorOf(request.principal));
    assert OrderRowOk(db.orders[|c.db.orders|]);
  }

  lemma CreateOrderKeeps(c: Core, request: OrderRequest, db: Db)
    requires CoreInv(c) && Vat.ValidRate(request.vatBasisPoints) && Tables.CreateOrder(c.db, request) == Some(db)
    ensures CoreInv(c.(db := db)) && Grows(c, c.(db := db))
  {
    CreateOrderGrows(c, request, db);
    RestSurvives(c, c.(db := db));
    if request.draft {
      DraftKeepsQueue(c.db, db);
    } else {
      ClaimKeepsQueue(c.db, db, |c.db.orders|);
    }
  }

  lemma DraftKeepsQueue(a: Db, b: Db)
    requires QueueOk(a) && a.counters == b.counters && |b.orders| == |a.orders| + 1 && b.orders[..|a.orders|] == a.orders
    requires b.orders[|a.orders|].orderNumber.None?
    ensures QueueOk(b)
  {
    assert forall x :: 0 <= x < |a.orders| ==> b.orders[x] == a.orders[x];
    forall x | 0 <= x < |b.orders| ensures NumberInRange(b, b.orders[x]) {
      if x < |a.orders| {
        assert NumberInRange(a, a.orders[x]);
      }
    }
    forall d, k: nat | 1 <= k <= CounterOf(b, d) ensures NumberAssigned(b, d, k) {
      assert CounterOf(a, d) == CounterOf(b, d);
      assert NumberAssigned(a, d, k);
      var x: nat :| x < |a.orders| && HoldsNumber(a, x, d, k);
      assert HoldsNumber(b, x, d, k);
    }
  }

  lemma CheckoutGrows(c: Core, o: nat, expiresAt: int, actor: ActorType, db: Db)
    requires OrdersOk(c.db) && Tables.Checkout(c.db, o, expiresAt, actor) == Some(db)
    ensures OrdersOk(db) && Grows(c, c.(db := db)) && NoNewMoney(c, c.(db := db)) && SameRefunded(c.db, db)
    ensures c.db.orders[o].orderNumber.None?
  {
    assert OrderRowOk(c.db.orders[o]);
    QueuedRowOk(c.db.orders[o], db.orders[o], actor);
  }

  lemma CheckoutClaims(db: Db, o: nat, expiresAt: int, actor: ActorType, after: Db)
    requires QueueOk(db) && Tables.Checkout(db, o, expiresAt, actor) == Some(after) && db.orders[o].orderNumber.None?
    ensures QueueOk(after)
  {
    ClaimKeepsQueue(db, after, o);
  }

  lemma CheckoutKeeps(c: Core, o: nat, expiresAt: int, actor: ActorType, db: Db)
    requires CoreInv(c)
    requires Tables.Checkout(c.db, o, expiresAt, actor) == Some(db)
    ensures CoreInv(c.(db := db)) && Grows(c, c.(db := db))
  {
    CheckoutGrows(c, o, expiresAt, actor, db);
    RestSurvives(c, c.(db := db));
    CheckoutClaims(c.db, o, expiresAt, actor, db);
  }

  /** A draft that joins the queue has its number and its deadline from then on. */
  lemma QueuedRowOk(before: Order, after: Order, actor: ActorType)
    requires OrderRowOk(before) && before.status.Draft?
    requires after == before.(status := PendingPayment, history := before.history + [HistoryRow(Some(Draft), PendingPayment, actor, None)],
                              orderNumber := after.orderNumber, expiresAt := after.expiresAt)
    requires after.orderNumber.Some? && after.expiresAt.Some?
    ensures OrderRowOk(after) && before.orderNumber.None?
  {
    var row := HistoryRow(Some(Draft), PendingPayment, actor, None);
    TrailExtends(before.history, Draft, row);
    QueuedStays(before.history, row);
    DraftNeverQueued(before.history);
  }

  /** A draft has only ever been a draft. */
  lemma {:induction false} DraftNeverQueued(h: seq<HistoryRow>)
    requires Trail(h, Draft)
    ensures !WasQueued(h)
  {
    TrailClimbs(h, Draft);
    assert |h| == 1;
  }

  // ----- The gateway and the inbox -----

  lemma GatewayMoves(c: Core, gateway: Gateway)
    requires CoreInv(c) && Grows(c, c.(gateway := gateway))
    ensures CoreInv(c.(gateway := gateway))
  {
    var b := c.(gateway := gateway);
    PaymentsSurvive(c, b);
    EventsSurvive(c, b);
  }

  lemma IntentSettles(c: Core, i: nat, state: IntentState)
    requires CoreInv(c) && i < |c.gateway| && (c.gateway[i].state.IntentOpen? || c.gateway[i].state == state)
    ensures var b := c.(gateway := SetIntent(c.gateway, i, state));
            CoreInv(b) && Grows(c, b)
  {
    assert Grows(c, c.(gateway := SetIntent(c.gateway, i, state)));
    GatewayMoves(c, SetIntent(c.gateway, i, state));
  }

  lemma IntentOpens(c: Core, intent: Intent)
    requires CoreInv(c)
    ensures var b := c.(gateway := c.gateway + [intent]);
            CoreInv(b) && Grows(c, b)
  {
    assert Grows(c, c.(gateway := c.gateway + [intent]));
    GatewayMoves(c, c.gateway + [intent]);
  }

  lemma DeliveryKeeps(c: Core, id: string, outcome: GatewayOutcome)
    requires CoreInv(c) && Truthful(c.gateway, outcome)
    ensures var b := c.(db := RecordEvent(c.db, id, outcome));
            CoreInv(b) && Grows(c, b)
  {
    var b := c.(db := RecordEvent(c.db, id, outcome));
    assert Grows(c, b);
    PaymentsSurvive(c, b);
    RefundsSurvive(c, b);
    QueueSurvives(c.db, b.db);
    DeliveredEventsOk(c, b, outcome);
  }

  lemma DeliveredEventsOk(a: Core, b: Core, outcome: GatewayOutcome)
    requires EventsOk(a) && Grows(a, b) && a.gateway == b.gateway && Truthful(a.gateway, outcome)
    requires b.db.events == a.db.events || (exists id :: b.db.events == a.db.events + [Event(id, outcome, None, false)])
    ensures EventsOk(b)
  {
    forall e | 0 <= e < |b.db.events| && b.db.events[e].processed && b.db.events[e].outcome.OutcomeSucceeded?
      ensures Matched(b.db, b.db.events[e].outcome)
    {
      assert Matched(a.db, a.db.events[e].outcome);
      MatchedGrows(a, b, a.db.events[e].outcome);
    }
  }
}

/**
 The services that drive the store and the gateway, as the program runs them when
 nothing else interleaves. Each is proved to do exactly what its specification
 function says, and each specification is proved to be a run of the protocol, so
 everything proved of runs holds of them.
 */
module Services {
  import opened Wrappers
  import opened OrderState
  import opened PaymentDecision
  import opened Sums
  import opened Queries
  import opened Tables
  import opened Protocol
  import opened Store

  // ----- The gateway -----

  datatype CancelOutcome = INTENT_CANCELLED | ALREADY_SUCCEEDED | UNREACHABLE

  class Provider {
    var intents: seq<Intent>

    constructor ()
      ensures intents == []
    {
      intents := [];
    }

    /** Cancels an intent unless its money was taken first; cancelling twice is harmless. */
    method CancelIntent(i: nat, reachable: bool) returns (outcome: CancelOutcome)
      modifies this
      ensures outcome == UNREACHABLE <==> !reachable || i >= old(|intents|)
      ensures outcome == ALREADY_SUCCEEDED <==> reachable && i < old(|intents|) && old(intents)[i].state.IntentSucceeded?
      ensures intents == if outcome == INTENT_CANCELLED then SetIntent(old(intents), i, IntentCancelled) else old(intents)
    {
      if !reachable || i >= |intents| {
        return UNREACHABLE;
      }
      if intents[i].state.IntentSucceeded? {
        return ALREADY_SUCCEEDED;
      }
      intents := intents[i := intents[i].(state := IntentCancelled)];
      return INTENT_CANCELLED;
    }

    method CreateIntent(amountMinor: int, currency: string) returns (i: nat)
      modifies this
      ensures intents == old(intents) + [Intent(amountMinor, currency, IntentOpen)] && i == old(|intents|)
    {
      i := |intents|;
      intents := intents + [Intent(amountMinor, currency, IntentOpen)];
    }
  }

  // ----- Specifications -----

  /** The first live payment of an order. */
  function FirstLive(payments: seq<Payment>, orderId: nat): Option<nat> {
    FirstLiveFrom(payments, orderId, 0)
  }

  function FirstLiveFrom(payments: seq<Payment>, orderId: nat, p: nat): Option<nat>
    decreases |payments| - p
  {
    if p >= |payments| then None
    else if payments[p].orderId == orderId && IsLive(payments[p].status) then Some(p)
    else FirstLiveFrom(payments, orderId, p + 1)
  }

  lemma {:induction false} FirstLiveIs(payments: seq<Payment>, orderId: nat, p: nat)
    ensures match FirstLiveFrom(payments, orderId, p)
            case None => forall q :: p <= q < |payments| ==> !(payments[q].orderId == orderId && IsLive(payments[q].status))
            case Some(q) => p <= q < |payments| && payments[q].orderId == orderId && IsLive(payments[q].status)
    decreases |payments| - p
  {
    if p < |payments| {
      FirstLiveIs(payments, orderId, p + 1);
    }
  }

  /** What the processor does with one event, and whether it acted. */
  function EventStep(db: Db, event: nat, rail: Option<PaymentMethod>): Option<Db> {
    if event < |db.events| && !db.events[event].processed then
      var outcome := db.events[event].outcome;
      var payment := ReadPaymentFor(db, outcome);
      CommitDecision(db, event, Decide(outcome, payment, ReadOrderFor(db, payment)), SeenBy(payment), rail)
    else None
  }

  function SeenBy(payment: Option<PaymentRecord>): Option<nat> {
    if payment.Some? then Some(payment.value.id) else None
  }

  predicate Acts(db: Db, event: nat) {
    event < |db.events| && !db.events[event].processed
    && var payment := ReadPaymentFor(db, db.events[event].outcome);
       var d := Decide(db.events[event].outcome, payment, ReadOrderFor(db, payment));
       d.MarkPaid? || d.MarkPayment?
  }

  /** The inbox after a batch of events, each processed in turn. */
  function Drained(db: Db, batch: seq<nat>, rails: nat -> Option<PaymentMethod>): Db {
    if batch == [] then db else
      var before, e := Drained(db, batch[..|batch| - 1], rails), batch[|batch| - 1];
      After(before, EventStep(before, e, rails(e)))
  }

  function ActedOn(db: Db, batch: seq<nat>, rails: nat -> Option<PaymentMethod>): nat {
    if batch == [] then 0 else
      var init, e := batch[..|batch| - 1], batch[|batch| - 1];
      ActedOn(db, init, rails) + if Acts(Drained(db, init, rails), e) then 1 else 0
  }

  lemma DrainOneMore(db: Db, batch: seq<nat>, k: nat, rails: nat -> Option<PaymentMethod>)
    requires k < |batch|
    ensures var before, e := Drained(db, batch[..k], rails), batch[k];
            && Drained(db, batch[..k + 1], rails) == After(before, EventStep(before, e, rails(e)))
            && ActedOn(db, batch[..k + 1], rails) == ActedOn(db, batch[..k], rails) + if Acts(before, e) then 1 else 0
  {
    assert batch[..k + 1][..k] == batch[..k];
  }

  /** Closing an unpaid order, by either door. The gateway is asked to let the live intent go; unless it does, nothing is written. */
  function Closed(c: Core, door: Door, orderId: nat, from: OrderStatus, actor: ActorType, reason: Option<string>, reachable: bool): (Core, bool) {
    FirstLiveIs(c.db.payments, orderId, 0);
    var live := FirstLive(c.db.payments, orderId);
    if live.Some? && c.db.payments[live.value].intentId.Some? then
      var i := c.db.payments[live.value].intentId.value;
      if !reachable || i >= |c.gateway| || c.gateway[i].state.IntentSucceeded? then (c, false)
      else Committed(c.(gateway := SetIntent(c.gateway, i, IntentCancelled)), CloseCommit(c.db, door, orderId, from, live, actor, reason))
    else Committed(c, CloseCommit(c.db, door, orderId, from, live, actor, reason))
  }

  function CloseCommit(db: Db, door: Door, orderId: nat, from: OrderStatus, live: Option<nat>, actor: ActorType, reason: Option<string>): Option<Db> {
    if door.ExpiryDoor? then ApplyExpiry(db, orderId, live) else ApplyCancel(db, orderId, from, live, actor, reason)
  }

  function Committed(c: Core, db: Option<Db>): (Core, bool) {
    (c.(db := After(c.db, db)), db.Some?)
  }

  /** One order of a sweep, and one more in the count if it expired. */
  function SweepStep(before: (Core, nat), o: nat, reachable: bool): (Core, nat) {
    var (after, expired) := Closed(before.0, ExpiryDoor, o, PendingPayment, System, None, reachable);
    (after, before.1 + if expired then 1 else 0)
  }

  /** The store and the gateway after a sweep over the given orders, and how many it expired. */
  function Swept(c: Core, batch: seq<nat>, reachable: nat -> bool): (Core, nat) {
    if batch == [] then (c, 0) else
      var o := batch[|batch| - 1];
      SweepStep(Swept(c, batch[..|batch| - 1], reachable), o, reachable(o))
  }

  lemma SweepOneMore(c: Core, batch: seq<nat>, k: nat, reachable: nat -> bool)
    requires k < |batch|
    ensures Swept(c, batch[..k + 1], reachable) == SweepStep(Swept(c, batch[..k], reachable), batch[k], reachable(batch[k]))
  {
    assert batch[..k + 1][..k] == batch[..k];
  }

  predicate Overdue(db: Db, o: nat, now: int) {
    o < |db.orders| && db.orders[o].status.PendingPayment? && db.orders[o].expiresAt.Some? && db.orders[o].expiresAt.value < now
  }

  function OverdueAt(db: Db, now: int): nat -> bool {
    (o: nat) => Overdue(db, o, now)
  }

  const MAX_EVENTS_PER_TICK: nat := 100
  const MAX_ORDERS_PER_TICK: nat := 200

  /** What a query for rows `where` holds may return under a limit that is given no order: as many as there are, up to the limit. */
  ghost predicate IsBatch(n: nat, where: nat -> bool, limit: nat, ids: seq<nat>) {
    && Unique(ids) && (forall i :: 0 <= i < |ids| ==> ids[i] < n && where(ids[i]))
    && |ids| == if |Select(n, where)| <= limit then |Select(n, where)| else limit
  }

  /** There always is such an answer. */
  lemma FirstRowsAreABatch(n: nat, where: nat -> bool, limit: nat)
    ensures var all := Select(n, where); IsBatch(n, where, limit, if |all| <= limit then all else all[..limit])
  {
    SelectIs(n, where);
  }

  // ----- Services -----

  datatype WhyNot = NeverCaptured(status: PaymentStatus) | OtherDay(businessDay: int)

  datatype Outcome<T> =
    | Done(value: T)
    | Refused(failure: Failure)
    | AlreadyPaid
    | Unavailable
    | OrderExpired
    | NotPayable(status: OrderStatus)
    | AlreadyActive(winner: Option<nat>)
    | CashNotAllowed
    | CashTenderInsufficient
    | NotRefundable(why: WhyNot)

  function Relabel<S, T>(o: Outcome<S>): Outcome<T>
    requires !o.Done?
  {
    match o
    case Refused(f) => Refused(f)
    case AlreadyPaid => AlreadyPaid
    case Unavailable => Unavailable
    case OrderExpired => OrderExpired
    case NotPayable(status) => NotPayable(status)
    case AlreadyActive(p) => AlreadyActive(p)
    case CashNotAllowed => CashNotAllowed
    case CashTenderInsufficient => CashTenderInsufficient
    case NotRefundable(why) => NotRefundable(why)
  }

  /** A device sees its own orders and no others; to it the rest do not exist. */
  predicate Visible(db: Db, principal: Principal, orderId: nat) {
    orderId < |db.orders| && (principal.KioskDevice? ==> db.orders[orderId].kioskDevice == Some(principal.deviceId))
  }

  /** Why an order cannot take money, or its price. */
  function PayableNow(db: Db, principal: Principal, orderId: nat): Outcome<OrderQuote> {
    if !Visible(db, principal, orderId) then Refused(NotFound) else
      var o, live := db.orders[orderId], FirstLive(db.payments, orderId);
      if o.status.Expired? then OrderExpired
      else if !o.status.PendingPayment? then NotPayable(o.status)
      else if live.Some? then AlreadyActive(live)
      else Done(OrderQuote(orderId, Total(o), o.currency))
  }

  predicate Cancellable(db: Db, principal: Principal, orderId: nat) {
    Visible(db, principal, orderId) && (db.orders[orderId].status.Draft? || db.orders[orderId].status.PendingPayment?)
  }

  /** What a cash payment commits, if it may be taken at all. */
  function CashStep(db: Db, principal: Principal, orderId: nat, tenderedMinor: int, key: Option<string>): Option<Db> {
    var quote := PayableNow(db, principal, orderId);
    if quote.Done? && principal.Staff? && tenderedMinor >= quote.value.totalMinor
    then TakeCash(db, orderId, quote.value.totalMinor, quote.value.currency, key) else None
  }

  /** A payment insert: a row that a unique index refuses is answered with the payment that is live, if one is. */
  function InsertAnswer(db: Db, payment: Payment): Outcome<nat> {
    if InsertPayment(db, payment).Some? then Done(|db.payments|)
    else if InsertRefusal(db, payment).UniqueViolated? then AlreadyActive(FirstLive(db.payments, payment.orderId))
    else Refused(InsertRefusal(db, payment))
  }

  /** What a cash payment is answered, the first reason against it first. */
  function CashAnswer(db: Db, principal: Principal, orderId: nat, tenderedMinor: int, key: Option<string>): Outcome<nat> {
    var quote := PayableNow(db, principal, orderId);
    if !quote.Done? then Relabel(quote)
    else if principal.KioskDevice? then CashNotAllowed
    else if tenderedMinor < quote.value.totalMinor then CashTenderInsufficient
    else InsertAnswer(db, CashPayment(orderId, quote.value.totalMinor, quote.value.currency, key))
  }

  function GatewayPayment(quote: OrderQuote, intentId: nat, key: Option<string>): Payment {
    Payment(quote.id, Stripe, Some(intentId), None, PaymentStatus.Pending, quote.totalMinor, quote.currency, key)
  }

  function GatewayAnswer(c: Core, principal: Principal, orderId: nat, key: Option<string>): Outcome<nat> {
    var quote := PayableNow(c.db, principal, orderId);
    if !quote.Done? then Relabel(quote) else InsertAnswer(c.db, GatewayPayment(quote.value, |c.gateway|, key))
  }

  /** What a refund is answered: whether it was the last of the money, or the first reason against it. */
  function RefundAnswer(db: Db, paymentId: nat, amountMinor: int, today: int): Outcome<bool> {
    if paymentId >= |db.payments| then Refused(NotFound) else
      var p := db.payments[paymentId];
      if !p.status.Succeeded? then NotRefundable(NeverCaptured(p.status))
      else if p.orderId >= |db.orders| then Refused(NotFound)
      else if db.orders[p.orderId].businessDay != today then NotRefundable(OtherDay(db.orders[p.orderId].businessDay))
      else if 0 < amountMinor <= p.amountMinor - RefundedOf(db.refunds, paymentId)
      then Done(amountMinor == p.amountMinor - RefundedOf(db.refunds, paymentId))
      else Refused(RefundRefusal(db, paymentId, p.amountMinor, p.orderId, amountMinor))
  }

  /** A gateway payment opens its intent before it inserts its row. */
  function GatewayStep(c: Core, principal: Principal, orderId: nat, key: Option<string>): (Core, bool) {
    var quote := PayableNow(c.db, principal, orderId);
    if !quote.Done? then (c, false) else
      Committed(c.(gateway := c.gateway + [Intent(quote.value.totalMinor, quote.value.currency, IntentOpen)]),
                OpenGatewayPayment(c.db, orderId, quote.value.totalMinor, quote.value.currency, |c.gateway|, key))
  }

  predicate MayRefund(db: Db, paymentId: nat, today: int) {
    && paymentId < |db.payments| && db.payments[paymentId].status.Succeeded?
    && db.payments[paymentId].orderId < |db.orders| && db.orders[db.payments[paymentId].orderId].businessDay == today
  }

  function RefundStep(db: Db, paymentId: nat, amountMinor: int, reason: string, today: int): Option<Db> {
    if !MayRefund(db, paymentId, today) then None else
      var p := db.payments[paymentId];
      ApplyRefund(db, paymentId, p.amountMinor, p.orderId, db.orders[p.orderId].status, amountMinor, reason)
  }

  function StatusStep(db: Db, orderId: nat, to: OrderStatus, actor: ActorType): Option<Db> {
    if orderId < |db.orders| && IsStaffTransition(db.orders[orderId].status, to)
    then Tables.TransitionOrder(db, orderId, db.orders[orderId].status, to, actor, None) else None
  }

  class Services {
    const store: Store
    const gateway: Provider

    constructor (store: Store, gateway: Provider)
      ensures this.store == store && this.gateway == gateway
    {
      this.store, this.gateway := store, gateway;
    }

    function Now(): Core
      reads store, gateway
    {
      Core(store.Snapshot(), gateway.intents)
    }

    // ----- The inbox -----

    /** Reads one stored event and our side of it, decides, and applies the decision. Never throws. */
    method ProcessEvent(event: nat, rail: Option<PaymentMethod>) returns (applied: bool)
      modifies store
      ensures store.Snapshot() == After(old(store.Snapshot()), EventStep(old(store.Snapshot()), event, rail))
      ensures applied <==> Acts(old(store.Snapshot()), event)
    {
      var db := store.Snapshot();
      if event >= |store.events| || store.events[event].processed {
        return false;
      }
      var outcome := store.events[event].outcome;
      var payment := ReadPaymentFor(db, outcome);
      var order := ReadOrderFor(db, payment);
      var decision := Decide(outcome, payment, order);
      match decision {
        case Refuse(_) => applied := false;
        case Skip =>
          var _ := store.StampEvent(event, SeenBy(payment));
          applied := false;
        case MarkPayment(p, status) =>
          var _ := store.MarkPayment(event, p, status);
          applied := true;
        case MarkPaid(p, o) =>
          var r := store.MarkPaid(event, p, o, rail);
          applied := r.Ok?;
      }
    }

    /** Each event of a batch in turn, each in its own transactions. */
    method ProcessAll(pending: seq<nat>, rails: nat -> Option<PaymentMethod>) returns (applied: nat)
      modifies store
      ensures store.Snapshot() == Drained(old(store.Snapshot()), pending, rails)
      ensures applied == ActedOn(old(store.Snapshot()), pending, rails)
    {
      ghost var before := store.Snapshot();
      applied := 0;
      for k := 0 to |pending|
        invariant store.Snapshot() == Drained(before, pending[..k], rails)
        invariant applied == ActedOn(before, pending[..k], rails)
      {
        DrainOneMore(before, pending, k, rails);
        var acted := ProcessEvent(pending[k], rails(pending[k]));
        if acted {
          applied := applied + 1;
        }
      }
      assert pending[..|pending|] == pending;
    }

    /** The safety net: unprocessed events up to a limit, whichever of them the query returns. */
    method DrainInbox(pending: seq<nat>, rails: nat -> Option<PaymentMethod>) returns (applied: nat)
      requires IsBatch(|store.events|, UnprocessedIn(store.Snapshot()), MAX_EVENTS_PER_TICK, pending)
      modifies store
      ensures store.Snapshot() == Drained(old(store.Snapshot()), pending, rails) && applied == ActedOn(old(store.Snapshot()), pending, rails)
    {
      applied := ProcessAll(pending, rails);
    }

    // ----- Closing an unpaid order -----

    method FindLive(orderId: nat) returns (live: Option<LivePayment>)
      ensures live.None? <==> FirstLive(store.payments, orderId).None?
      ensures live.Some? ==> FirstLive(store.payments, orderId) == Some(live.value.id)
                             && live.value.id < |store.payments| && live.value.intentId == store.payments[live.value.id].intentId
    {
      for p := 0 to |store.payments|
        invariant FirstLiveFrom(store.payments, orderId, p) == FirstLive(store.payments, orderId)
      {
        if store.payments[p].orderId == orderId && IsLive(store.payments[p].status) {
          return Some(LivePayment(p, store.payments[p].intentId));
        }
      }
      live := None;
    }

    /** Asks the gateway to let go of a live payment's intent, if it has one. */
    method ReleaseIntent(live: Option<LivePayment>, reachable: bool) returns (outcome: CancelOutcome)
      modifies gateway
      ensures live.None? || live.value.intentId.None? ==> outcome == INTENT_CANCELLED && gateway.intents == old(gateway.intents)
      ensures live.Some? && live.value.intentId.Some? ==>
                var i, intents := live.value.intentId.value, old(gateway.intents);
                && (outcome == UNREACHABLE <==> !reachable || i >= |intents|)
                && (outcome == ALREADY_SUCCEEDED <==> reachable && i < |intents| && intents[i].state.IntentSucceeded?)
                && gateway.intents == if outcome == INTENT_CANCELLED then SetIntent(intents, i, IntentCancelled) else intents
    {
      if live.None? || live.value.intentId.None? {
        return INTENT_CANCELLED;
      }
      outcome := gateway.CancelIntent(live.value.intentId.value, reachable);
    }

    /** One overdue order: ask the gateway, then move the order and write off its payment. */
    method ExpireOne(orderId: nat, reachable: bool) returns (expired: bool)
      modifies store, gateway
      ensures (Now(), expired) == Closed(old(Now()), ExpiryDoor, orderId, PendingPayment, System, None, reachable)
    {
      var live := FindLive(orderId);
      var outcome := ReleaseIntent(live, reachable);
      if outcome != INTENT_CANCELLED {
        return false;
      }
      var r := store.Expire(orderId, if live.Some? then Some(live.value.id) else None);
      expired := r.Ok?;
    }

    /** Each order of a batch in turn, one transaction each. */
    method ExpireAll(overdue: seq<nat>, reachable: nat -> bool) returns (expired: nat)
      modifies store, gateway
      ensures (Now(), expired) == Swept(old(Now()), overdue, reachable)
    {
      ghost var before := Now();
      expired := 0;
      for k := 0 to |overdue|
        invariant (Now(), expired) == Swept(before, overdue[..k], reachable)
      {
        SweepOneMore(before, overdue, k, reachable);
        expired := ExpireNext(overdue[k], reachable(overdue[k]), expired);
      }
      assert overdue[..|overdue|] == overdue;
    }

    method ExpireNext(orderId: nat, reachable: bool, soFar: nat) returns (expired: nat)
      modifies store, gateway
      ensures (Now(), expired) == SweepStep((old(Now()), soFar), orderId, reachable)
    {
      var done := ExpireOne(orderId, reachable);
      expired := if done then soFar + 1 else soFar;
    }

    /** The sweep: overdue orders up to a limit, whichever of them the query returns. */
    method ExpireOverdue(now: int, overdue: seq<nat>, reachable: nat -> bool) returns (expired: nat)
      requires IsBatch(|store.orders|, OverdueAt(store.Snapshot(), now), MAX_ORDERS_PER_TICK, overdue)
      modifies store, gateway
      ensures (Now(), expired) == Swept(old(Now()), overdue, reachable)
    {
      expired := ExpireAll(overdue, reachable);
    }

    /** A request to cancel: refused past payment, and called off if the money was taken or the gateway cannot say. */
    method Cancel(principal: Principal, orderId: nat, reason: Option<string>, reachable: bool) returns (r: Outcome<Order>)
      modifies store, gateway
      ensures var before := old(Now());
              if Cancellable(before.db, principal, orderId)
              then (Now(), r.Done?) == Closed(before, CancelDoor, orderId, before.db.orders[orderId].status, ActorOf(principal), reason, reachable)
              else r == Refused(if Visible(before.db, principal, orderId) then MoveRefusal(before.db, orderId, OrderStatus.Cancelled) else NotFound) && Now() == before
      ensures Cancellable(old(store.Snapshot()), principal, orderId) ==>
                var live := FirstLive(old(store.payments), orderId);
                var asked := live.Some? && live.value < old(|store.payments|) && old(store.payments)[live.value].intentId.Some?;
                var i := if asked then old(store.payments)[live.value].intentId.value else 0;
                && (r == Unavailable <==> asked && (!reachable || i >= old(|gateway.intents|)))
                && (r == AlreadyPaid <==> asked && reachable && i < old(|gateway.intents|) && old(gateway.intents)[i].state.IntentSucceeded?)
                && (r.Done? ==> orderId < |store.orders| && r.value == store.orders[orderId])
    {
      if !Visible(store.Snapshot(), principal, orderId) {
        return Refused(NotFound);
      }
      var current := store.orders[orderId].status;
      if current != Draft && current != PendingPayment {
        return Refused(InvalidTransition(current, OrderStatus.Cancelled));
      }
      var live := FindLive(orderId);
      var outcome := ReleaseIntent(live, reachable);
      if outcome == UNREACHABLE {
        return Unavailable;
      }
      if outcome == ALREADY_SUCCEEDED {
        return AlreadyPaid;
      }
      var done, _ := store.Cancel(orderId, current, if live.Some? then Some(live.value.id) else None, ActorOf(principal), reason);
      r := if done.Ok? then Done(done.value) else Refused(done.error);
    }

    // ----- Paying -----

    method LoadPayableOrder(principal: Principal, orderId: nat) returns (r: Outcome<OrderQuote>)
      ensures r == PayableNow(store.Snapshot(), principal, orderId)
    {
      if !Visible(store.Snapshot(), principal, orderId) {
        return Refused(NotFound);
      }
      var order := store.orders[orderId];
      if order.status == OrderStatus.Expired {
        return OrderExpired;
      }
      if order.status != PendingPayment {
        return NotPayable(order.status);
      }
      var live := FindLive(orderId);
      if live.Some? {
        return AlreadyActive(Some(live.value.id));
      }
      r := Done(OrderQuote(orderId, Total(order), order.currency));
    }

    method PayCash(principal: Principal, orderId: nat, tenderedMinor: int, key: Option<string>) returns (r: Outcome<nat>)
      modifies store
      ensures var taken := CashStep(old(store.Snapshot()), principal, orderId, tenderedMinor, key);
              (r.Done? <==> taken.Some?) && store.Snapshot() == After(old(store.Snapshot()), taken)
      ensures r == CashAnswer(old(store.Snapshot()), principal, orderId, tenderedMinor, key)
    {
      var quote := LoadPayableOrder(principal, orderId);
      if !quote.Done? {
        return Relabel(quote);
      }
      if principal.KioskDevice? {
        return CashNotAllowed;
      }
      if tenderedMinor < quote.value.totalMinor {
        return CashTenderInsufficient;
      }
      var taken := store.TakeCash(orderId, quote.value.totalMinor, quote.value.currency, key);
      r := Explain(orderId, taken);
    }

    /** A refused insert, told to the caller: a unique violation names the payment that won. */
    method Explain(orderId: nat, inserted: Result<nat, Failure>) returns (r: Outcome<nat>)
      ensures r == match inserted
                   case Ok(id) => Done(id)
                   case Err(failure) => if failure.UniqueViolated? then AlreadyActive(FirstLive(store.payments, orderId)) else Refused(failure)
    {
      if inserted.Ok? {
        return Done(inserted.value);
      }
      if inserted.error != UniqueViolated {
        return Refused(inserted.error);
      }
      var winner := FindLive(orderId);
      r := AlreadyActive(if winner.Some? then Some(winner.value.id) else None);
    }

    /** The intent is opened before its row is inserted, so a refused row leaves an open intent that no payment names. */
    method PayByGateway(principal: Principal, orderId: nat, key: Option<string>) returns (r: Outcome<nat>)
      modifies store, gateway
      ensures (Now(), r.Done?) == GatewayStep(old(Now()), principal, orderId, key)
      ensures r == GatewayAnswer(old(Now()), principal, orderId, key)
    {
      var quote := LoadPayableOrder(principal, orderId);
      if !quote.Done? {
        return Relabel(quote);
      }
      var intent := gateway.CreateIntent(quote.value.totalMinor, quote.value.currency);
      var row := store.InsertPayment(GatewayPayment(quote.value, intent, key));
      r := Explain(orderId, row);
    }

    // ----- Refunding and moving -----

    /** A refund of captured money, on its own business day, up to what is left of it. */
    method Refund(paymentId: nat, amountMinor: int, reason: string, today: int) returns (r: Outcome<bool>)
      modifies store
      ensures var done := RefundStep(old(store.Snapshot()), paymentId, amountMinor, reason, today);
              (r.Done? <==> done.Some?) && store.Snapshot() == After(old(store.Snapshot()), done)
      ensures r == RefundAnswer(old(store.Snapshot()), paymentId, amountMinor, today)
    {
      if paymentId >= |store.payments| {
        return Refused(NotFound);
      }
      var payment := store.payments[paymentId];
      if payment.status != PaymentStatus.Succeeded {
        return NotRefundable(NeverCaptured(payment.status));
      }
      if payment.orderId >= |store.orders| {
        return Refused(NotFound);
      }
      var order := store.orders[payment.orderId];
      if order.businessDay != today {
        return NotRefundable(OtherDay(order.businessDay));
      }
      var given := store.GiveBack(paymentId, payment.amountMinor, payment.orderId, order.status, amountMinor, reason);
      r := if given.Ok? then Done(given.value) else Refused(given.error);
    }

    /** The kitchen display's door: only the moves it is allowed, and only from where the order is. */
    method ChangeStatus(orderId: nat, to: OrderStatus, actor: ActorType) returns (r: Result<Order, Failure>)
      modifies store
      ensures var moved := StatusStep(old(store.Snapshot()), orderId, to, actor);
              (r.Ok? <==> moved.Some?) && store.Snapshot() == After(old(store.Snapshot()), moved)
      ensures r.Ok? ==> orderId < |store.orders| && r.value == store.orders[orderId] && r.value.status == to
      ensures r.Err? ==> r.error == MoveRefusal(old(store.Snapshot()), orderId, to)
    {
      if orderId >= |store.orders| {
        return Err(NotFound);
      }
      var current := store.orders[orderId].status;
      if !IsStaffTransition(current, to) {
        return Err(InvalidTransition(current, to));
      }
      r := store.TransitionOrder(orderId, current, to, actor, None);
    }
  }
}

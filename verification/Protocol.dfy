/**
 The order and payment protocol as a transition system. One transaction is one
 step. Everything a request reads before its transaction is held by a process as
 a snapshot that may have gone stale; a process may also vanish between any two
 steps. The gateway is its own party: an intent is open until it succeeds or is
 cancelled, and both are final. Its events are truthful, and may arrive late,
 repeated or out of order.
 */
module Protocol {
  import opened Wrappers
  import opened OrderState
  import opened PaymentDecision
  import opened Tables
  import Vat

  datatype IntentState = IntentOpen | IntentSucceeded(receivedMinor: int) | IntentCancelled

  datatype Intent = Intent(amountMinor: int, currency: string, state: IntentState)

  type Gateway = seq<Intent>

  /** The tables and the gateway: everything that survives a crash. */
  datatype Core = Core(db: Db, gateway: Gateway)

  datatype OrderQuote = OrderQuote(id: nat, totalMinor: int, currency: string)

  datatype LivePayment = LivePayment(id: nat, intentId: Option<nat>)

  datatype Door = CancelDoor | ExpiryDoor

  /** What a request has read so far. */
  datatype Process =
    | SawEvent(event: nat, outcome: GatewayOutcome)
    | SawEventPayment(event: nat, outcome: GatewayOutcome, payment: Option<PaymentRecord>)
    | Decided(event: nat, decision: Decision, seen: Option<nat>)
    | SawPayable(order: OrderQuote)
    | Payable(order: OrderQuote)
    | IntentOpened(order: OrderQuote, intentId: nat)
    | Closing(door: Door, orderId: nat, from: OrderStatus)
    | ClosingLive(door: Door, orderId: nat, from: OrderStatus, live: Option<LivePayment>)
    | Cleared(door: Door, orderId: nat, from: OrderStatus, live: Option<LivePayment>)
    | SawRefundable(paymentId: nat, orderId: nat, captured: int)
    | Refundable(paymentId: nat, captured: int, orderId: nat, from: OrderStatus)
    | Moving(orderId: nat, from: OrderStatus, to: OrderStatus)

  datatype Sys = Sys(core: Core, procs: map<nat, Process>)

  const INITIAL: Sys := Sys(Core(EMPTY_DB, []), map[])

  /** What the gateway may truthfully say, now and at any later time. */
  predicate Truthful(gateway: Gateway, outcome: GatewayOutcome) {
    match outcome
    case OutcomeSucceeded(i, amount, currency) =>
      i < |gateway| && gateway[i].state == IntentSucceeded(amount) && gateway[i].currency == currency
    case OutcomeFailed(i) => i < |gateway|
    case OutcomeCancelled(i) => i < |gateway| && gateway[i].state == IntentCancelled
    case OutcomeIgnored => true
  }

  datatype Action =
    // one-transaction requests
    | CreateOrder(request: OrderRequest)
    | Checkout(orderId: nat, expiresAt: int, actor: ActorType)
    // the gateway and its deliveries
    | Capture(intentId: nat, receivedMinor: int)
    | Void(intentId: nat)
    | Deliver(providerEventId: string, outcome: GatewayOutcome)
    // the inbox processor
    | ReadEvent(pid: nat, event: nat)
    | ReadEventPayment(pid: nat)
    | ReadEventOrder(pid: nat)
    | ApplyDecision(pid: nat, rail: Option<PaymentMethod>)
    // paying
    | LoadOrder(pid: nat, orderId: nat)
    | CheckLive(pid: nat)
    | OpenIntent(pid: nat, reuse: Option<nat>)
    | CommitGateway(pid: nat, key: Option<string>)
    | CommitCash(pid: nat, tenderedMinor: int, key: Option<string>)
    // cancelling and expiring
    | CancelRead(pid: nat, orderId: nat)
    | ExpiryScan(pid: nat, orderId: nat, now: int)
    | ReadLive(pid: nat, choice: nat)
    | AskGateway(pid: nat)
    | CommitClose(pid: nat, actor: ActorType, reason: Option<string>)
    // refunding
    | RefundReadPayment(pid: nat, paymentId: nat)
    | RefundReadOrder(pid: nat, today: int)
    | CommitRefund(pid: nat, amountMinor: int, why: string)
    // the kitchen display
    | StatusRead(pid: nat, orderId: nat, to: OrderStatus)
    | CommitStatus(pid: nat, actor: ActorType)
    // a request dies
    | Crash(pid: nat)

  // ----- Reads -----

  function PaymentOfIntent(db: Db, intentId: nat): Option<nat> {
    PaymentOfIntentFrom(db.payments, intentId)
  }

  function PaymentOfIntentFrom(payments: seq<Payment>, intentId: nat): Option<nat> {
    if payments == [] then None
    else if payments[|payments| - 1].intentId == Some(intentId) then Some(|payments| - 1)
    else PaymentOfIntentFrom(payments[..|payments| - 1], intentId)
  }

  lemma {:induction false} PaymentOfIntentIs(payments: seq<Payment>, intentId: nat)
    ensures match PaymentOfIntentFrom(payments, intentId)
            case None => forall p :: 0 <= p < |payments| ==> payments[p].intentId != Some(intentId)
            case Some(p) => p < |payments| && payments[p].intentId == Some(intentId)
  {
    if payments != [] {
      PaymentOfIntentIs(payments[..|payments| - 1], intentId);
    }
  }

  function RecordOf(db: Db, paymentId: nat): PaymentRecord
    requires paymentId < |db.payments|
  {
    var p := db.payments[paymentId];
    PaymentRecord(paymentId, p.orderId, p.amountMinor, p.currency, p.status)
  }

  function ReadPaymentFor(db: Db, outcome: GatewayOutcome): Option<PaymentRecord> {
    if outcome.OutcomeIgnored? then None else
      var found := PaymentOfIntent(db, outcome.intentId);
      PaymentOfIntentIs(db.payments, outcome.intentId);
      if found.None? then None else Some(RecordOf(db, found.value))
  }

  function ReadOrderFor(db: Db, payment: Option<PaymentRecord>): Option<OrderRecord> {
    if payment.None? || payment.value.orderId >= |db.orders| then None
    else Some(OrderRecord(payment.value.orderId, db.orders[payment.value.orderId].status))
  }

  predicate IsLivePaymentOf(db: Db, orderId: nat, paymentId: nat) {
    paymentId < |db.payments| && db.payments[paymentId].orderId == orderId && IsLive(db.payments[paymentId].status)
  }

  // ----- Steps -----

  function Spawn(s: Sys, pid: nat, p: Process): Option<Sys> {
    if pid in s.procs then None else Some(s.(procs := s.procs[pid := p]))
  }

  function Advance(s: Sys, pid: nat, p: Process): Option<Sys> {
    Some(s.(procs := s.procs[pid := p]))
  }

  /** The request ends; its transaction committed if it produced a database, and changed nothing otherwise. */
  function Finish(s: Sys, pid: nat, db: Option<Db>): Option<Sys> {
    Some(Sys(if db.Some? then s.core.(db := db.value) else s.core, s.procs - {pid}))
  }

  function Update(s: Sys, db: Option<Db>): Option<Sys> {
    Some(s.(core := if db.Some? then s.core.(db := db.value) else s.core))
  }

  function SetIntent(gateway: Gateway, i: nat, state: IntentState): Gateway
    requires i < |gateway|
  {
    gateway[i := gateway[i].(state := state)]
  }

  function NextProcessor(s: Sys, a: Action): Option<Sys> {
    var db := s.core.db;
    match a
    case ReadEvent(pid, e) =>
      if e < |db.events| && !db.events[e].processed then Spawn(s, pid, SawEvent(e, db.events[e].outcome)) else None
    case ReadEventPayment(pid) =>
      if pid in s.procs && s.procs[pid].SawEvent? then
        var p := s.procs[pid];
        Advance(s, pid, SawEventPayment(p.event, p.outcome, ReadPaymentFor(db, p.outcome)))
      else None
    case ReadEventOrder(pid) =>
      if pid in s.procs && s.procs[pid].SawEventPayment? then
        var p := s.procs[pid];
        var seen := if p.payment.Some? then Some(p.payment.value.id) else None;
        Advance(s, pid, Decided(p.event, Decide(p.outcome, p.payment, ReadOrderFor(db, p.payment)), seen))
      else None
    case ApplyDecision(pid, rail) =>
      if pid in s.procs && s.procs[pid].Decided? then
        Finish(s, pid, CommitDecision(db, s.procs[pid].event, s.procs[pid].decision, s.procs[pid].seen, rail))
      else None
    case _ => None
  }

  function CommitDecision(db: Db, event: nat, decision: Decision, seen: Option<nat>, rail: Option<PaymentMethod>): Option<Db> {
    match decision
    case Refuse(_) => None
    case Skip => Some(MarkProcessed(db, event, seen))
    case MarkPayment(p, status) => Some(ApplyMarkPayment(db, event, p, status))
    case MarkPaid(p, o) => ApplyMarkPaid(db, event, p, o, rail)
  }

  function NextPaying(s: Sys, a: Action): Option<Sys> {
    var db := s.core.db;
    match a
    case LoadOrder(pid, o) =>
      if o < |db.orders| && db.orders[o].status.PendingPayment?
      then Spawn(s, pid, SawPayable(OrderQuote(o, Total(db.orders[o]), db.orders[o].currency))) else None
    case CheckLive(pid) =>
      if pid in s.procs && s.procs[pid].SawPayable? && !HasLivePayment(db, s.procs[pid].order.id)
      then Advance(s, pid, Payable(s.procs[pid].order)) else None
    case OpenIntent(pid, reuse) =>
      if pid in s.procs && s.procs[pid].Payable? then
        var quote := s.procs[pid].order;
        if reuse.None? then
          Some(Sys(s.core.(gateway := s.core.gateway + [Intent(quote.totalMinor, quote.currency, IntentOpen)]),
                   s.procs[pid := IntentOpened(quote, |s.core.gateway|)]))
        else if reuse.value < |s.core.gateway| then Advance(s, pid, IntentOpened(quote, reuse.value))
        else None
      else None
    case CommitGateway(pid, key) =>
      if pid in s.procs && s.procs[pid].IntentOpened? then
        var p := s.procs[pid];
        Finish(s, pid, OpenGatewayPayment(db, p.order.id, p.order.totalMinor, p.order.currency, p.intentId, key))
      else None
    case CommitCash(pid, tendered, key) =>
      if pid in s.procs && s.procs[pid].Payable? && tendered >= s.procs[pid].order.totalMinor then
        var p := s.procs[pid];
        Finish(s, pid, TakeCash(db, p.order.id, p.order.totalMinor, p.order.currency, key))
      else None
    case _ => None
  }

  function NextClosing(s: Sys, a: Action): Option<Sys> {
    var db := s.core.db;
    match a
    case CancelRead(pid, o) =>
      if o < |db.orders| && (db.orders[o].status.Draft? || db.orders[o].status.PendingPayment?)
      then Spawn(s, pid, Closing(CancelDoor, o, db.orders[o].status)) else None
    case ExpiryScan(pid, o, now) =>
      if o < |db.orders| && db.orders[o].status.PendingPayment? && db.orders[o].expiresAt.Some? && db.orders[o].expiresAt.value < now
      then Spawn(s, pid, Closing(ExpiryDoor, o, PendingPayment)) else None
    case ReadLive(pid, choice) =>
      if pid in s.procs && s.procs[pid].Closing? then
        var p := s.procs[pid];
        if IsLivePaymentOf(db, p.orderId, choice)
        then Advance(s, pid, ClosingLive(p.door, p.orderId, p.from, Some(LivePayment(choice, db.payments[choice].intentId))))
        else if !HasLivePayment(db, p.orderId) then Advance(s, pid, ClosingLive(p.door, p.orderId, p.from, None))
        else None
      else None
    case AskGateway(pid) =>
      if pid in s.procs && s.procs[pid].ClosingLive? then
        var p := s.procs[pid];
        if p.live.None? || p.live.value.intentId.None? then Advance(s, pid, Cleared(p.door, p.orderId, p.from, p.live))
        else
          var i := p.live.value.intentId.value;
          if i >= |s.core.gateway| then None
          // the money was taken first: the request stops
          else if s.core.gateway[i].state.IntentSucceeded? then Finish(s, pid, None)
          else Some(Sys(s.core.(gateway := SetIntent(s.core.gateway, i, IntentCancelled)),
                        s.procs[pid := Cleared(p.door, p.orderId, p.from, p.live)]))
      else None
    case CommitClose(pid, actor, reason) =>
      if pid in s.procs && s.procs[pid].Cleared? then
        var p := s.procs[pid];
        var live := if p.live.Some? then Some(p.live.value.id) else None;
        Finish(s, pid, if p.door.ExpiryDoor? then ApplyExpiry(db, p.orderId, live)
                       else ApplyCancel(db, p.orderId, p.from, live, actor, reason))
      else None
    case _ => None
  }

  function NextRefund(s: Sys, a: Action): Option<Sys> {
    var db := s.core.db;
    match a
    case RefundReadPayment(pid, p) =>
      if p < |db.payments| && db.payments[p].status.Succeeded?
      then Spawn(s, pid, SawRefundable(p, db.payments[p].orderId, db.payments[p].amountMinor)) else None
    case RefundReadOrder(pid, today) =>
      if pid in s.procs && s.procs[pid].SawRefundable? then
        var p := s.procs[pid];
        if p.orderId < |db.orders| && db.orders[p.orderId].businessDay == today
        then Advance(s, pid, Refundable(p.paymentId, p.captured, p.orderId, db.orders[p.orderId].status)) else None
      else None
    case CommitRefund(pid, amount, reason) =>
      if pid in s.procs && s.procs[pid].Refundable? then
        var p := s.procs[pid];
        Finish(s, pid, ApplyRefund(db, p.paymentId, p.captured, p.orderId, p.from, amount, reason))
      else None
    case _ => None
  }

  function NextStatus(s: Sys, a: Action): Option<Sys> {
    var db := s.core.db;
    match a
    case StatusRead(pid, o, to) =>
      if o < |db.orders| && IsStaffTransition(db.orders[o].status, to)
      then Spawn(s, pid, Moving(o, db.orders[o].status, to)) else None
    case CommitStatus(pid, actor) =>
      if pid in s.procs && s.procs[pid].Moving? then
        var p := s.procs[pid];
        Finish(s, pid, TransitionOrder(db, p.orderId, p.from, p.to, actor, None))
      else None
    case _ => None
  }

  function NextWorld(s: Sys, a: Action): Option<Sys> {
    var db := s.core.db;
    match a
    case CreateOrder(request) =>
      if Vat.ValidRate(request.vatBasisPoints) then Update(s, Tables.CreateOrder(db, request)) else None
    case Checkout(o, expiresAt, actor) => Update(s, Tables.Checkout(db, o, expiresAt, actor))
    case Capture(i, received) =>
      if i < |s.core.gateway| && s.core.gateway[i].state.IntentOpen?
      then Some(s.(core := s.core.(gateway := SetIntent(s.core.gateway, i, IntentSucceeded(received))))) else None
    case Void(i) =>
      if i < |s.core.gateway| && s.core.gateway[i].state.IntentOpen?
      then Some(s.(core := s.core.(gateway := SetIntent(s.core.gateway, i, IntentCancelled)))) else None
    case Deliver(id, outcome) =>
      if Truthful(s.core.gateway, outcome) then Update(s, Some(RecordEvent(db, id, outcome))) else None
    case Crash(pid) =>
      if pid in s.procs then Finish(s, pid, None) else None
    case _ => None
  }

  /** One step of the protocol; nothing when the action is not enabled. */
  function Next(s: Sys, a: Action): Option<Sys> {
    if a.ReadEvent? || a.ReadEventPayment? || a.ReadEventOrder? || a.ApplyDecision? then NextProcessor(s, a)
    else if a.LoadOrder? || a.CheckLive? || a.OpenIntent? || a.CommitGateway? || a.CommitCash? then NextPaying(s, a)
    else if a.CancelRead? || a.ExpiryScan? || a.ReadLive? || a.AskGateway? || a.CommitClose? then NextClosing(s, a)
    else if a.RefundReadPayment? || a.RefundReadOrder? || a.CommitRefund? then NextRefund(s, a)
    else if a.StatusRead? || a.CommitStatus? then NextStatus(s, a)
    else NextWorld(s, a)
  }

  /** A whole run: every action enabled in turn. */
  function Run(s: Sys, actions: seq<Action>): Option<Sys> {
    if actions == [] then Some(s) else
      var before := Run(s, actions[..|actions| - 1]);
      if before.None? then None else Next(before.value, actions[|actions| - 1])
  }

  ghost predicate Reaches(s: Sys, t: Sys) {
    exists actions :: Run(s, actions) == Some(t)
  }

  ghost predicate Reachable(s: Sys) {
    Reaches(INITIAL, s)
  }
}

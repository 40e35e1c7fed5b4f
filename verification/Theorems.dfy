/** What holds in every reachable state of the protocol, and along every run. */
module Theorems {
  import opened Wrappers
  import opened OrderState
  import opened PaymentDecision
  import opened QueueNumber
  import opened Tables
  import opened Protocol
  import opened Invariants
  import opened Preservation

  // ----- Runs compose -----

  lemma ReachesSelf(s: Sys)
    ensures Reaches(s, s)
  {
    assert Run(s, []) == Some(s);
  }

  lemma Then(s: Sys, t: Sys, a: Action, u: Sys)
    requires Reaches(s, t) && Next(t, a) == Some(u)
    ensures Reaches(s, u)
  {
    var actions :| Run(s, actions) == Some(t);
    assert (actions + [a])[..|actions|] == actions;
    assert Run(s, actions + [a]) == Some(u);
  }

  lemma ReachesTransitive(s: Sys, t: Sys, u: Sys)
    requires Reaches(s, t) && Reaches(t, u)
    ensures Reaches(s, u)
  {
    var actions :| Run(t, actions) == Some(u);
    RunOn(s, t, actions, u);
  }

  lemma {:induction false} RunOn(s: Sys, t: Sys, actions: seq<Action>, u: Sys)
    requires Reaches(s, t) && Run(t, actions) == Some(u)
    ensures Reaches(s, u)
    decreases |actions|
  {
    if actions != [] {
      var v := Run(t, actions[..|actions| - 1]).value;
      RunOn(s, t, actions[..|actions| - 1], v);
      Then(s, v, actions[|actions| - 1], u);
    }
  }

  // ----- Every step keeps the invariant -----

  lemma InvWith(s: Sys, core: Core, procs: map<nat, Process>)
    requires Inv(s) && CoreInv(core) && Grows(s.core, core)
    requires forall pid :: pid in procs ==> (pid in s.procs && procs[pid] == s.procs[pid]) || ProcessOk(core, procs[pid])
    ensures Inv(Sys(core, procs))
  {
    forall pid | pid in procs ensures ProcessOk(core, procs[pid]) {
      if pid in s.procs && procs[pid] == s.procs[pid] {
        ProcessStable(s.core, core, s.procs[pid]);
      }
    }
  }

  lemma GrowsReflexive(c: Core)
    ensures Grows(c, c)
  {
  }

  lemma ReadPaymentOk(c: Core, outcome: GatewayOutcome)
    ensures var r := ReadPaymentFor(c.db, outcome); r.Some? ==> RecordOk(c, outcome, r.value) && r.value == RecordOf(c.db, r.value.id)
  {
    if !outcome.OutcomeIgnored? {
      PaymentOfIntentIs(c.db.payments, outcome.intentId);
    }
  }

  lemma DecisionIsOk(c: Core, e: nat, outcome: GatewayOutcome, payment: Option<PaymentRecord>)
    requires CoreInv(c) && ProcessOk(c, SawEventPayment(e, outcome, payment))
    ensures DecisionOk(c, e, Decide(outcome, payment, ReadOrderFor(c.db, payment)))
  {
    assert Truthful(c.gateway, outcome);
    if payment.Some? {
      var r := payment.value;
      assert PaymentRowOk(c.db, c.gateway, c.db.payments[r.id]);
      if outcome.OutcomeSucceeded? && r.amountMinor == outcome.amountMinor && r.currency == outcome.currency {
        assert Matches(c.db, outcome, r.id);
        if c.db.orders[r.orderId].status.Paid? {
          assert MatchesPaid(c.db, outcome, r.id);
        }
      }
    }
  }

  lemma DecisionKeeps(c: Core, e: nat, d: Decision, seen: Option<nat>, rail: Option<PaymentMethod>, db: Db)
    requires CoreInv(c) && DecisionOk(c, e, d) && CommitDecision(c.db, e, d, seen, rail) == Some(db)
    ensures CoreInv(c.(db := db)) && Grows(c, c.(db := db))
  {
    match d
    case Skip => ProcessedKeeps(c, e, seen);
    case MarkPayment(p, status) => MarkPaymentKeeps(c, e, p, status);
    case MarkPaid(p, o) => MarkPaidKeeps(c, e, p, o, rail, db);
    case Refuse(_) =>
  }

  /** A read: the tables and the gateway stay, and one process learns something it may rely on. */
  lemma ReadKeeps(s: Sys, pid: nat, p: Process, t: Sys)
    requires Inv(s) && t == s.(procs := s.procs[pid := p]) && ProcessOk(s.core, p)
    ensures Inv(t) && Grows(s.core, t.core)
  {
    GrowsReflexive(s.core);
    InvWith(s, t.core, t.procs);
  }

  /** A transaction that commits or rolls back, after which its process is gone. */
  lemma FinishKeeps(s: Sys, pid: nat, db: Option<Db>, t: Sys)
    requires Inv(s) && Finish(s, pid, db) == Some(t)
    requires db.Some? ==> CoreInv(s.core.(db := db.value)) && Grows(s.core, s.core.(db := db.value))
    ensures Inv(t) && Grows(s.core, t.core)
  {
    GrowsReflexive(s.core);
    InvWith(s, t.core, t.procs);
  }

  lemma UpdateKeeps(s: Sys, core: Core, t: Sys)
    requires Inv(s) && t == s.(core := core) && CoreInv(core) && Grows(s.core, core)
    ensures Inv(t) && Grows(s.core, t.core)
  {
    InvWith(s, t.core, t.procs);
  }

  lemma ApplyKeeps(s: Sys, pid: nat, rail: Option<PaymentMethod>, t: Sys)
    requires Inv(s) && NextProcessor(s, ApplyDecision(pid, rail)) == Some(t)
    ensures Inv(t) && Grows(s.core, t.core)
  {
    var p := s.procs[pid];
    assert ProcessOk(s.core, p);
    var db := CommitDecision(s.core.db, p.event, p.decision, p.seen, rail);
    if db.Some? {
      DecisionKeeps(s.core, p.event, p.decision, p.seen, rail, db.value);
    }
    FinishKeeps(s, pid, db, t);
  }

  lemma ProcessorKeeps(s: Sys, a: Action, t: Sys)
    requires Inv(s) && NextProcessor(s, a) == Some(t)
    ensures Inv(t) && Grows(s.core, t.core)
  {
    match a
    case ReadEvent(pid, e) => ReadKeeps(s, pid, t.procs[pid], t);
    case ReadEventPayment(pid) =>
      assert ProcessOk(s.core, s.procs[pid]);
      ReadPaymentOk(s.core, s.procs[pid].outcome);
      ReadKeeps(s, pid, t.procs[pid], t);
    case ReadEventOrder(pid) =>
      assert ProcessOk(s.core, s.procs[pid]);
      DecisionIsOk(s.core, s.procs[pid].event, s.procs[pid].outcome, s.procs[pid].payment);
      ReadKeeps(s, pid, t.procs[pid], t);
    case ApplyDecision(pid, rail) => ApplyKeeps(s, pid, rail, t);
    case _ =>
  }

  lemma OpenIntentKeeps(s: Sys, pid: nat, reuse: Option<nat>, t: Sys)
    requires Inv(s) && NextPaying(s, OpenIntent(pid, reuse)) == Some(t)
    ensures Inv(t) && Grows(s.core, t.core)
  {
    var q := s.procs[pid].order;
    assert ProcessOk(s.core, s.procs[pid]);
    if reuse.None? {
      IntentOpens(s.core, Intent(q.totalMinor, q.currency, IntentOpen));
      InvWith(s, t.core, t.procs);
    } else {
      ReadKeeps(s, pid, t.procs[pid], t);
    }
  }

  lemma CommitGatewayKeeps(s: Sys, pid: nat, key: Option<string>, t: Sys)
    requires Inv(s) && NextPaying(s, CommitGateway(pid, key)) == Some(t)
    ensures Inv(t) && Grows(s.core, t.core)
  {
    var p := s.procs[pid];
    assert ProcessOk(s.core, p);
    var db := OpenGatewayPayment(s.core.db, p.order.id, p.order.totalMinor, p.order.currency, p.intentId, key);
    if db.Some? {
      OpenGatewayKeeps(s.core, p.order, p.intentId, key, db.value);
    }
    FinishKeeps(s, pid, db, t);
  }

  lemma CommitCashKeeps(s: Sys, pid: nat, tendered: int, key: Option<string>, t: Sys)
    requires Inv(s) && NextPaying(s, CommitCash(pid, tendered, key)) == Some(t)
    ensures Inv(t) && Grows(s.core, t.core)
  {
    var p := s.procs[pid];
    assert ProcessOk(s.core, p);
    var db := TakeCash(s.core.db, p.order.id, p.order.totalMinor, p.order.currency, key);
    if db.Some? {
      TakeCashKeeps(s.core, p.order, key, db.value);
    }
    FinishKeeps(s, pid, db, t);
  }

  lemma PayingKeeps(s: Sys, a: Action, t: Sys)
    requires Inv(s) && NextPaying(s, a) == Some(t)
    ensures Inv(t) && Grows(s.core, t.core)
  {
    match a
    case LoadOrder(pid, o) => ReadKeeps(s, pid, t.procs[pid], t);
    case CheckLive(pid) =>
      assert ProcessOk(s.core, s.procs[pid]);
      ReadKeeps(s, pid, t.procs[pid], t);
    case OpenIntent(pid, reuse) => OpenIntentKeeps(s, pid, reuse, t);
    case CommitGateway(pid, key) => CommitGatewayKeeps(s, pid, key, t);
    case CommitCash(pid, tendered, key) => CommitCashKeeps(s, pid, tendered, key, t);
    case _ =>
  }

  lemma CommitCloseKeeps(c: Core, p: Process, actor: ActorType, reason: Option<string>, db: Db)
    requires CoreInv(c) && p.Cleared? && ProcessOk(c, p)
    requires var live := if p.live.Some? then Some(p.live.value.id) else None;
             (if p.door.ExpiryDoor? then ApplyExpiry(c.db, p.orderId, live) else ApplyCancel(c.db, p.orderId, p.from, live, actor, reason)) == Some(db)
    ensures CoreInv(c.(db := db)) && Grows(c, c.(db := db))
  {
    if p.door.ExpiryDoor? {
      var moved := TransitionOrder(c.db, p.orderId, PendingPayment, OrderStatus.Expired, System, None).value;
      CloseKeeps(c, p.orderId, PendingPayment, OrderStatus.Expired, p.live, System, None, moved);
    } else {
      var moved := TransitionOrder(c.db, p.orderId, p.from, OrderStatus.Cancelled, actor, reason).value;
      CloseKeeps(c, p.orderId, p.from, OrderStatus.Cancelled, p.live, actor, reason, moved);
    }
  }

  lemma LiveIntentExists(c: Core, o: nat, p: nat)
    requires CoreInv(c) && IsLivePaymentOf(c.db, o, p)
    ensures LiveOk(c, Some(LivePayment(p, c.db.payments[p].intentId)), false)
  {
    assert PaymentRowOk(c.db, c.gateway, c.db.payments[p]);
  }

  lemma ReadLiveKeeps(s: Sys, pid: nat, choice: nat, t: Sys)
    requires Inv(s) && NextClosing(s, ReadLive(pid, choice)) == Some(t)
    ensures Inv(t) && Grows(s.core, t.core)
  {
    assert ProcessOk(s.core, s.procs[pid]);
    if IsLivePaymentOf(s.core.db, s.procs[pid].orderId, choice) {
      LiveIntentExists(s.core, s.procs[pid].orderId, choice);
    }
    ReadKeeps(s, pid, t.procs[pid], t);
  }

  lemma CloseDoorKeeps(s: Sys, pid: nat, actor: ActorType, reason: Option<string>, t: Sys)
    requires Inv(s) && NextClosing(s, CommitClose(pid, actor, reason)) == Some(t)
    ensures Inv(t) && Grows(s.core, t.core)
  {
    var p := s.procs[pid];
    assert ProcessOk(s.core, p);
    var live := if p.live.Some? then Some(p.live.value.id) else None;
    var db := if p.door.ExpiryDoor? then ApplyExpiry(s.core.db, p.orderId, live)
              else ApplyCancel(s.core.db, p.orderId, p.from, live, actor, reason);
    if db.Some? {
      CommitCloseKeeps(s.core, p, actor, reason, db.value);
    }
    FinishKeeps(s, pid, db, t);
  }

  lemma ClosingKeeps(s: Sys, a: Action, t: Sys)
    requires Inv(s) && NextClosing(s, a) == Some(t)
    ensures Inv(t) && Grows(s.core, t.core)
  {
    match a
    case CancelRead(pid, o) => ReadKeeps(s, pid, t.procs[pid], t);
    case ExpiryScan(pid, o, now) => ReadKeeps(s, pid, t.procs[pid], t);
    case ReadLive(pid, choice) => ReadLiveKeeps(s, pid, choice, t);
    case AskGateway(pid) => AskGatewayKeeps(s, pid, t);
    case CommitClose(pid, actor, reason) => CloseDoorKeeps(s, pid, actor, reason, t);
    case _ =>
  }

  lemma AskGatewayKeeps(s: Sys, pid: nat, t: Sys)
    requires Inv(s) && NextClosing(s, AskGateway(pid)) == Some(t)
    ensures Inv(t) && Grows(s.core, t.core)
  {
    GrowsReflexive(s.core);
    var p := s.procs[pid];
    assert ProcessOk(s.core, p);
    if p.live.Some? && !s.core.gateway[p.live.value.intentId.value].state.IntentSucceeded? {
      IntentSettles(s.core, p.live.value.intentId.value, IntentCancelled);
      ProcessStable(s.core, t.core, p);
      assert ProcessOk(t.core, t.procs[pid]);
    }
    InvWith(s, t.core, t.procs);
  }

  lemma CommitRefundKeeps(s: Sys, pid: nat, amount: int, why: string, t: Sys)
    requires Inv(s) && NextRefund(s, CommitRefund(pid, amount, why)) == Some(t)
    ensures Inv(t) && Grows(s.core, t.core)
  {
    var p := s.procs[pid];
    assert ProcessOk(s.core, p);
    var db := ApplyRefund(s.core.db, p.paymentId, p.captured, p.orderId, p.from, amount, why);
    if db.Some? {
      RefundKeeps(s.core, p.paymentId, p.captured, p.orderId, p.from, amount, why, db.value);
    }
    FinishKeeps(s, pid, db, t);
  }

  lemma RefundingKeeps(s: Sys, a: Action, t: Sys)
    requires Inv(s) && NextRefund(s, a) == Some(t)
    ensures Inv(t) && Grows(s.core, t.core)
  {
    match a
    case RefundReadPayment(pid, p) => ReadKeeps(s, pid, t.procs[pid], t);
    case RefundReadOrder(pid, today) =>
      assert ProcessOk(s.core, s.procs[pid]);
      assert PaymentRowOk(s.core.db, s.core.gateway, s.core.db.payments[s.procs[pid].paymentId]);
      ReadKeeps(s, pid, t.procs[pid], t);
    case CommitRefund(pid, amount, why) => CommitRefundKeeps(s, pid, amount, why, t);
    case _ =>
  }

  lemma StatusKeeps(s: Sys, a: Action, t: Sys)
    requires Inv(s) && NextStatus(s, a) == Some(t)
    ensures Inv(t) && Grows(s.core, t.core)
  {
    match a
    case StatusRead(pid, o, to) => ReadKeeps(s, pid, t.procs[pid], t);
    case CommitStatus(pid, actor) => CommitStatusKeeps(s, pid, actor, t);
    case _ =>
  }

  lemma CommitStatusKeeps(s: Sys, pid: nat, actor: ActorType, t: Sys)
    requires Inv(s) && NextStatus(s, CommitStatus(pid, actor)) == Some(t)
    ensures Inv(t) && Grows(s.core, t.core)
  {
    var p := s.procs[pid];
    assert ProcessOk(s.core, p);
    var db := TransitionOrder(s.core.db, p.orderId, p.from, p.to, actor, None);
    if db.Some? {
      MoveKeeps(s.core, p.orderId, p.from, p.to, actor, None, db.value);
    }
    FinishKeeps(s, pid, db, t);
  }

  lemma OrderingKeeps(s: Sys, a: Action, t: Sys)
    requires Inv(s) && (a.CreateOrder? || a.Checkout?) && NextWorld(s, a) == Some(t)
    ensures Inv(t) && Grows(s.core, t.core)
  {
    GrowsReflexive(s.core);
    if t.core != s.core {
      match a
      case CreateOrder(request) => CreateOrderKeeps(s.core, request, t.core.db);
      case Checkout(o, expiresAt, actor) => CheckoutKeeps(s.core, o, expiresAt, actor, t.core.db);
    }
    UpdateKeeps(s, t.core, t);
  }

  lemma WorldKeeps(s: Sys, a: Action, t: Sys)
    requires Inv(s) && NextWorld(s, a) == Some(t)
    ensures Inv(t) && Grows(s.core, t.core)
  {
    match a
    case CreateOrder(_) => OrderingKeeps(s, a, t);
    case Checkout(_, _, _) => OrderingKeeps(s, a, t);
    case Capture(i, received) =>
      IntentSettles(s.core, i, IntentSucceeded(received));
      UpdateKeeps(s, t.core, t);
    case Void(i) =>
      IntentSettles(s.core, i, IntentCancelled);
      UpdateKeeps(s, t.core, t);
    case Deliver(id, outcome) =>
      DeliveryKeeps(s.core, id, outcome);
      UpdateKeeps(s, t.core, t);
    case Crash(pid) => FinishKeeps(s, pid, None, t);
    case _ =>
  }

  /** One step of any request, of the gateway or of a delivery keeps the whole invariant. */
  lemma StepKeeps(s: Sys, a: Action, t: Sys)
    requires Inv(s) && Next(s, a) == Some(t)
    ensures Inv(t) && Grows(s.core, t.core)
  {
    if a.ReadEvent? || a.ReadEventPayment? || a.ReadEventOrder? || a.ApplyDecision? {
      ProcessorKeeps(s, a, t);
    } else if a.LoadOrder? || a.CheckLive? || a.OpenIntent? || a.CommitGateway? || a.CommitCash? {
      PayingKeeps(s, a, t);
    } else if a.CancelRead? || a.ExpiryScan? || a.ReadLive? || a.AskGateway? || a.CommitClose? {
      ClosingKeeps(s, a, t);
    } else if a.RefundReadPayment? || a.RefundReadOrder? || a.CommitRefund? {
      RefundingKeeps(s, a, t);
    } else if a.StatusRead? || a.CommitStatus? {
      StatusKeeps(s, a, t);
    } else {
      WorldKeeps(s, a, t);
    }
  }

  lemma {:induction false} RunKeeps(s: Sys, actions: seq<Action>, t: Sys)
    requires Inv(s) && Run(s, actions) == Some(t)
    ensures Inv(t) && Grows(s.core, t.core)
    decreases |actions|
  {
    if actions == [] {
      GrowsReflexive(s.core);
    } else {
      var u := Run(s, actions[..|actions| - 1]).value;
      RunKeeps(s, actions[..|actions| - 1], u);
      StepKeeps(u, actions[|actions| - 1], t);
      GrowsTransitive(s.core, u.core, t.core);
    }
  }

  lemma ReachesKeeps(s: Sys, t: Sys)
    requires Inv(s) && Reaches(s, t)
    ensures Inv(t) && Grows(s.core, t.core)
  {
    var actions :| Run(s, actions) == Some(t);
    RunKeeps(s, actions, t);
  }

  lemma ReachableInv(s: Sys)
    requires Reachable(s)
    ensures Inv(s)
  {
    assert OneSuccess(INITIAL.core.db);
    ReachesKeeps(INITIAL, s);
  }

  // ----- Money is taken exactly once -----

  ghost function SettlementsOf(db: Db, o: nat): set<nat> {
    set p | 0 <= p < |db.payments| && Settles(db, p, o)
  }

  /**
   In every reachable state of every interleaving: an order that took money has
   exactly one SUCCEEDED payment and it is for exactly the order's total; any
   other order has none.
   */
  lemma PaidExactlyOnce(s: Sys, o: nat)
    requires Reachable(s) && o < |s.core.db.orders|
    ensures var db := s.core.db;
            if TookMoney(db.orders[o].status)
            then exists p :: SettlementsOf(db, o) == {p} && p < |db.payments| && db.payments[p].amountMinor == Total(db.orders[o])
            else SettlementsOf(db, o) == {}
  {
    ReachableInv(s);
    var db := s.core.db;
    assert forall p :: 0 <= p < |db.payments| ==> PaymentRowOk(db, s.core.gateway, db.payments[p]);
    if TookMoney(db.orders[o].status) {
      assert HasSettlement(db, o);
      var p: nat :| p < |db.payments| && Settles(db, p, o);
      forall q | q in SettlementsOf(db, o) ensures q == p {
      }
      assert SettlementsOf(db, o) == {p};
    }
  }

  // ----- Settled is final -----

  /** SUCCEEDED is final along every run, although expiry writes its payment with no status guard. */
  lemma SucceededIsFinal(s: Sys, t: Sys, p: nat)
    requires Reachable(s) && Reaches(s, t)
    requires p < |s.core.db.payments| && s.core.db.payments[p].status.Succeeded?
    ensures p < |t.core.db.payments| && t.core.db.payments[p] == s.core.db.payments[p]
  {
    ReachableInv(s);
    ReachesKeeps(s, t);
    assert SamePayment(s.core.db.payments[p], t.core.db.payments[p]);
  }

  /** A payment recorded CANCELLED has its intent cancelled at the gateway, and never settles in any continuation. */
  lemma CancelledNeverSettles(s: Sys, t: Sys, p: nat)
    requires Reachable(s) && Reaches(s, t)
    requires p < |s.core.db.payments| && s.core.db.payments[p].status.Cancelled?
    ensures var intent := s.core.db.payments[p].intentId;
            intent.Some? && Voided(s.core.gateway, intent.value) && Voided(t.core.gateway, intent.value)
    ensures p < |t.core.db.payments| && !t.core.db.payments[p].status.Succeeded?
  {
    ReachableInv(s);
    ReachesKeeps(s, t);
    assert PaymentRowOk(s.core.db, s.core.gateway, s.core.db.payments[p]);
    assert SamePayment(s.core.db.payments[p], t.core.db.payments[p]);
    assert SameIntent(s.core.gateway[s.core.db.payments[p].intentId.value], t.core.gateway[s.core.db.payments[p].intentId.value]);
    assert PaymentRowOk(t.core.db, t.core.gateway, t.core.db.payments[p]);
  }

  // ----- Histories -----

  /** Each order's history is one unbroken path of legal moves to its status, and holds at most six of them. */
  lemma HistoryIsAPath(s: Sys, o: nat)
    requires Reachable(s) && o < |s.core.db.orders|
    ensures var order := s.core.db.orders[o];
            Trail(order.history, order.status) && |order.history| - 1 <= 6
  {
    ReachableInv(s);
    assert OrderRowOk(s.core.db.orders[o]);
    TrailClimbs(s.core.db.orders[o].history, s.core.db.orders[o].status);
  }

  /** Histories are append-only along every run. */
  lemma HistoryOnlyGrows(s: Sys, t: Sys, o: nat)
    requires Reachable(s) && Reaches(s, t) && o < |s.core.db.orders|
    ensures o < |t.core.db.orders| && s.core.db.orders[o].history <= t.core.db.orders[o].history
  {
    ReachableInv(s);
    ReachesKeeps(s, t);
    assert SameOrder(s.core.db.orders[o], t.core.db.orders[o]);
  }

  // ----- Refunds -----

  /** Refunds never exceed the payment, and the order is REFUNDED exactly when its settled payment came back in full. */
  lemma RefundsBounded(s: Sys, p: nat)
    requires Reachable(s) && p < |s.core.db.payments|
    ensures var db := s.core.db;
            && 0 <= RefundedOf(db.refunds, p) <= db.payments[p].amountMinor
            && (db.payments[p].status.Succeeded? ==>
                  && db.payments[p].orderId < |db.orders|
                  && (db.orders[db.payments[p].orderId].status.Refunded? <==> RefundedOf(db.refunds, p) == db.payments[p].amountMinor))
            && (!db.payments[p].status.Succeeded? ==> RefundedOf(db.refunds, p) == 0)
  {
    ReachableInv(s);
    var db := s.core.db;
    assert PaymentRowOk(db, s.core.gateway, db.payments[p]);
    assert RefundsWithin(db, p);
    assert forall r :: 0 <= r < |db.refunds| ==> RefundRowOk(db, db.refunds[r]);
    RefundedNonNegative(db.refunds, p);
    if !db.payments[p].status.Succeeded? {
      NoRefundsOf(db.refunds, p);
    }
  }

  lemma {:induction false} RefundedNonNegative(refunds: seq<Refund>, p: nat)
    requires forall r :: 0 <= r < |refunds| ==> refunds[r].amountMinor > 0
    ensures RefundedOf(refunds, p) >= 0
  {
    if refunds != [] {
      RefundedNonNegative(refunds[..|refunds| - 1], p);
    }
  }

  // ----- Queue numbers and deadlines -----

  /**
   Each business day's numbers are exactly the printed forms of one to the
   counter, each held by exactly one order; an order has a number exactly when it
   was ever queued, and a deadline exactly while it awaits payment.
   */
  lemma QueueNumbersExact(s: Sys, day: int, k: nat)
    requires Reachable(s) && 1 <= k <= CounterOf(s.core.db, day)
    ensures exists o :: OrdersNumbered(s.core.db, day, FormatOrderNumber(k)) == {o}
  {
    ReachableInv(s);
    var db := s.core.db;
    assert NumberAssigned(db, day, k);
    var o: nat :| o < |db.orders| && HoldsNumber(db, o, day, k);
    assert OrdersNumbered(db, day, FormatOrderNumber(k)) == {o};
  }

  ghost function OrdersNumbered(db: Db, day: int, number: string): set<nat> {
    set o: nat | o < |db.orders| && db.orders[o].businessDay == day && db.orders[o].orderNumber == Some(number)
  }

  lemma QueueNumbersBounded(s: Sys, o: nat)
    requires Reachable(s) && o < |s.core.db.orders|
    ensures var db := s.core.db; var order := db.orders[o];
            && (order.orderNumber.Some? ==> exists k: nat :: 1 <= k <= CounterOf(db, order.businessDay) && order.orderNumber.value == FormatOrderNumber(k))
            && (order.orderNumber.Some? <==> WasQueued(order.history))
            && (order.expiresAt.Some? <==> order.status.PendingPayment?)
  {
    ReachableInv(s);
    assert NumberInRange(s.core.db, s.core.db.orders[o]);
    assert OrderRowOk(s.core.db.orders[o]);
  }

  /** Two payments of an order are never both live, and no intent has two payments. */
  lemma LivePaymentsExclusive(s: Sys, p: nat, q: nat)
    requires Reachable(s) && p < q < |s.core.db.payments|
    ensures var a, b := s.core.db.payments[p], s.core.db.payments[q];
            && (a.orderId == b.orderId ==> !(IsLive(a.status) && IsLive(b.status)))
            && (a.intentId.Some? ==> a.intentId != b.intentId)
  {
    ReachableInv(s);
  }
}

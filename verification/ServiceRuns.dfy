/** Every service, run on its own, is a run of the protocol. */
module ServiceRuns {
  import opened Wrappers
  import opened OrderState
  import opened PaymentDecision
  import opened Sums
  import opened Tables
  import opened Protocol
  import opened Invariants
  import opened Theorems
  import opened Store
  import opened Services

  // ----- The inbox -----

  /** A process in `procs` takes its next step of reading, or of learning. */
  lemma Learns(s: Sys, c: Core, procs: map<nat, Process>, pid: nat, p: Process, a: Action, q: Process)
    requires Reaches(s, Sys(c, procs[pid := p])) && Next(Sys(c, procs[pid := p]), a) == Some(Sys(c, procs[pid := p][pid := q]))
    ensures Reaches(s, Sys(c, procs[pid := q]))
  {
    assert procs[pid := p][pid := q] == procs[pid := q];
    Then(s, Sys(c, procs[pid := p]), a, Sys(c, procs[pid := q]));
  }

  function DecisionOn(db: Db, event: nat): Decision
    requires event < |db.events|
  {
    var payment := ReadPaymentFor(db, db.events[event].outcome);
    Decide(db.events[event].outcome, payment, ReadOrderFor(db, payment))
  }

  lemma EventIsDecided(c: Core, procs: map<nat, Process>, pid: nat, event: nat)
    requires pid !in procs && event < |c.db.events| && !c.db.events[event].processed
    ensures var payment := ReadPaymentFor(c.db, c.db.events[event].outcome);
            Reaches(Sys(c, procs), Sys(c, procs[pid := Decided(event, DecisionOn(c.db, event), SeenBy(payment))]))
  {
    var s, outcome := Sys(c, procs), c.db.events[event].outcome;
    var payment := ReadPaymentFor(c.db, outcome);
    ReachesSelf(s);
    Then(s, s, ReadEvent(pid, event), Sys(c, procs[pid := SawEvent(event, outcome)]));
    Learns(s, c, procs, pid, SawEvent(event, outcome), ReadEventPayment(pid), SawEventPayment(event, outcome, payment));
    Learns(s, c, procs, pid, SawEventPayment(event, outcome, payment), ReadEventOrder(pid), Decided(event, DecisionOn(c.db, event), SeenBy(payment)));
  }

  lemma EventStepRuns(c: Core, procs: map<nat, Process>, pid: nat, event: nat, rail: Option<PaymentMethod>)
    requires pid !in procs
    ensures Reaches(Sys(c, procs), Sys(c.(db := After(c.db, EventStep(c.db, event, rail))), procs))
  {
    if event < |c.db.events| && !c.db.events[event].processed {
      EventIsDecided(c, procs, pid, event);
      var decided := procs[pid := Decided(event, DecisionOn(c.db, event), SeenBy(ReadPaymentFor(c.db, c.db.events[event].outcome)))];
      assert decided - {pid} == procs;
      Then(Sys(c, procs), Sys(c, decided), ApplyDecision(pid, rail), Sys(c.(db := After(c.db, EventStep(c.db, event, rail))), procs));
    } else {
      ReachesSelf(Sys(c, procs));
    }
  }

  lemma {:induction false} DrainRuns(c: Core, batch: seq<nat>, rails: nat -> Option<PaymentMethod>)
    ensures Reaches(Sys(c, map[]), Sys(c.(db := Drained(c.db, batch, rails)), map[]))
  {
    if batch == [] {
      ReachesSelf(Sys(c, map[]));
    } else {
      var init, e := batch[..|batch| - 1], batch[|batch| - 1];
      DrainRuns(c, init, rails);
      var before := c.(db := Drained(c.db, init, rails));
      EventStepRuns(before, map[], 0, e, rails(e));
      ReachesTransitive(Sys(c, map[]), Sys(before, map[]), Sys(c.(db := Drained(c.db, batch, rails)), map[]));
    }
  }

  /** Alone, the processor never loses the race it guards against: it leaves an event unprocessed exactly when it refuses it. */
  lemma ProcessedUnlessRefused(db: Db, event: nat, rail: Option<PaymentMethod>)
    requires event < |db.events| && !db.events[event].processed
    ensures var after := After(db, EventStep(db, event, rail));
            event < |after.events| && (after.events[event].processed <==> !DecisionOn(db, event).Refuse?)
  {
  }

  lemma EventStepOthers(db: Db, event: nat, rail: Option<PaymentMethod>, e: nat)
    requires e < |db.events| && e != event
    ensures var after := After(db, EventStep(db, event, rail));
            e < |after.events| && after.events[e] == db.events[e]
  {
    if event < |db.events| && !db.events[event].processed {
      DecisionLeavesOthers(db, event, DecisionOn(db, event), SeenBy(ReadPaymentFor(db, db.events[event].outcome)), rail, e);
    }
  }

  lemma DecisionLeavesOthers(db: Db, event: nat, decision: Decision, seen: Option<nat>, rail: Option<PaymentMethod>, e: nat)
    requires e < |db.events| && e != event
    ensures var after := After(db, CommitDecision(db, event, decision, seen, rail));
            e < |after.events| && after.events[e] == db.events[e]
  {
  }

  lemma EventStepLength(db: Db, event: nat, rail: Option<PaymentMethod>)
    ensures |After(db, EventStep(db, event, rail)).events| == |db.events|
  {
  }

  lemma {:induction false} DrainedEvents(db: Db, batch: seq<nat>, rails: nat -> Option<PaymentMethod>)
    ensures |Drained(db, batch, rails).events| == |db.events|
    ensures forall e: nat :: e < |db.events| && e !in batch ==> Drained(db, batch, rails).events[e] == db.events[e]
  {
    if batch != [] {
      var init, last := batch[..|batch| - 1], batch[|batch| - 1];
      DrainedEvents(db, init, rails);
      assert batch == init + [last];
      var before := Drained(db, init, rails);
      EventStepLength(before, last, rails(last));
      forall e: nat | e < |db.events| && e !in batch ensures Drained(db, batch, rails).events[e] == db.events[e] {
        EventStepOthers(before, last, rails(last), e);
      }
    }
  }

  /** The last event of a batch meets the tables the others left; it was still unprocessed. */
  lemma LastOfBatch(db: Db, init: seq<nat>, e: nat, rails: nat -> Option<PaymentMethod>)
    requires e < |db.events| && !db.events[e].processed && e !in init
    ensures var before := Drained(db, init, rails); var after := Drained(db, init + [e], rails);
            && e < |before.events| && e < |after.events|
            && (after.events[e].processed <==> !DecisionOn(before, e).Refuse?)
  {
    DrainedEvents(db, init, rails);
    ProcessedUnlessRefused(Drained(db, init, rails), e, rails(e));
    assert (init + [e])[..|init|] == init;
  }

  lemma OthersOfBatch(db: Db, init: seq<nat>, last: nat, rails: nat -> Option<PaymentMethod>, e: nat)
    requires e < |db.events| && e != last
    ensures var before := Drained(db, init, rails); var after := Drained(db, init + [last], rails);
            e < |before.events| && e < |after.events| && after.events[e] == before.events[e]
  {
    DrainedEvents(db, init, rails);
    EventStepOthers(Drained(db, init, rails), last, rails(last), e);
    assert (init + [last])[..|init|] == init;
  }

  /** After a sweep, an event of the batch is still unprocessed exactly when it was refused. */
  lemma {:induction false} DrainLeavesOnlyRefusals(db: Db, batch: seq<nat>, rails: nat -> Option<PaymentMethod>, k: nat)
    requires Unique(batch) && forall j :: 0 <= j < |batch| ==> batch[j] < |db.events| && !db.events[batch[j]].processed
    requires k < |batch|
    ensures batch[k] < |Drained(db, batch, rails).events| && batch[k] < |Drained(db, batch[..k], rails).events|
    ensures Drained(db, batch, rails).events[batch[k]].processed <==> !DecisionOn(Drained(db, batch[..k], rails), batch[k]).Refuse?
    decreases |batch|
  {
    var init, last := batch[..|batch| - 1], batch[|batch| - 1];
    assert batch == init + [last];
    if k == |batch| - 1 {
      assert last !in init;
      LastOfBatch(db, init, last, rails);
    } else {
      assert init[..k] == batch[..k] && init[k] == batch[k];
      DrainLeavesOnlyRefusals(db, init, rails, k);
      OthersOfBatch(db, init, last, rails, batch[k]);
    }
  }

  // ----- Closing an unpaid order -----

  function LiveAs(db: Db, live: Option<nat>): Option<LivePayment>
    requires live.Some? ==> live.value < |db.payments|
  {
    if live.Some? then Some(LivePayment(live.value, db.payments[live.value].intentId)) else None
  }

  lemma LiveIsRead(db: Db, orderId: nat)
    ensures var live := FirstLive(db.payments, orderId);
            if live.Some? then IsLivePaymentOf(db, orderId, live.value) else !HasLivePayment(db, orderId)
  {
    FirstLiveIs(db.payments, orderId, 0);
  }

  lemma ReadLiveRuns(c: Core, procs: map<nat, Process>, pid: nat)
    requires pid in procs && procs[pid].Closing?
    ensures var p := procs[pid]; var live := FirstLive(c.db.payments, p.orderId);
            && (live.Some? ==> live.value < |c.db.payments|)
            && Reaches(Sys(c, procs), Sys(c, procs[pid := ClosingLive(p.door, p.orderId, p.from, LiveAs(c.db, live))]))
  {
    var p := procs[pid];
    var live := FirstLive(c.db.payments, p.orderId);
    LiveIsRead(c.db, p.orderId);
    ReachesSelf(Sys(c, procs));
    Then(Sys(c, procs), Sys(c, procs), ReadLive(pid, if live.Some? then live.value else |c.db.payments|),
         Sys(c, procs[pid := ClosingLive(p.door, p.orderId, p.from, LiveAs(c.db, live))]));
  }

  lemma Abandons(s: Sys, c: Core, procs: map<nat, Process>, pid: nat)
    requires pid in procs && Reaches(s, Sys(c, procs))
    ensures Reaches(s, Sys(c, procs - {pid}))
  {
    Then(s, Sys(c, procs), Crash(pid), Sys(c, procs - {pid}));
  }

  /** A closing request that has cleared the gateway commits and ends. */
  lemma CommitCloseRuns(s: Sys, c: Core, procs: map<nat, Process>, pid: nat, live: Option<nat>, actor: ActorType, reason: Option<string>)
    requires pid in procs && procs[pid].Cleared? && (live.Some? ==> live.value < |c.db.payments|)
    requires procs[pid].live == LiveAs(c.db, live) && Reaches(s, Sys(c, procs))
    ensures var p := procs[pid];
            Reaches(s, Sys(c.(db := After(c.db, CloseCommit(c.db, p.door, p.orderId, p.from, live, actor, reason))), procs - {pid}))
  {
    var p := procs[pid];
    Then(s, Sys(c, procs), CommitClose(pid, actor, reason),
         Sys(c.(db := After(c.db, CloseCommit(c.db, p.door, p.orderId, p.from, live, actor, reason))), procs - {pid}));
  }

  /** A closing request, from the moment it was admitted: whatever it finds, it is a run. */
  lemma ClosedRuns(c: Core, procs: map<nat, Process>, pid: nat, actor: ActorType, reason: Option<string>, reachable: bool)
    requires pid in procs && procs[pid].Closing?
    ensures var p := procs[pid];
            Reaches(Sys(c, procs), Sys(Closed(c, p.door, p.orderId, p.from, actor, reason, reachable).0, procs - {pid}))
  {
    var p, s := procs[pid], Sys(c, procs);
    var live := FirstLive(c.db.payments, p.orderId);
    ReadLiveRuns(c, procs, pid);
    var asked := procs[pid := ClosingLive(p.door, p.orderId, p.from, LiveAs(c.db, live))];
    var cleared := procs[pid := Cleared(p.door, p.orderId, p.from, LiveAs(c.db, live))];
    assert asked - {pid} == procs - {pid} && cleared - {pid} == procs - {pid};
    assert asked[pid := cleared[pid]] == cleared;
    if live.Some? && c.db.payments[live.value].intentId.Some? {
      var i := c.db.payments[live.value].intentId.value;
      if !reachable || i >= |c.gateway| || c.gateway[i].state.IntentSucceeded? {
        Abandons(s, c, asked, pid);
      } else {
        var c' := c.(gateway := SetIntent(c.gateway, i, IntentCancelled));
        Then(s, Sys(c, asked), AskGateway(pid), Sys(c', cleared));
        CommitCloseRuns(s, c', cleared, pid, live, actor, reason);
      }
    } else {
      Then(s, Sys(c, asked), AskGateway(pid), Sys(c, cleared));
      CommitCloseRuns(s, c, cleared, pid, live, actor, reason);
    }
  }

  lemma CancelRuns(c: Core, principal: Principal, orderId: nat, reason: Option<string>, reachable: bool)
    requires Cancellable(c.db, principal, orderId)
    ensures var from := c.db.orders[orderId].status;
            Reaches(Sys(c, map[]), Sys(Closed(c, CancelDoor, orderId, from, ActorOf(principal), reason, reachable).0, map[]))
  {
    var s, p := Sys(c, map[]), Closing(CancelDoor, orderId, c.db.orders[orderId].status);
    ReachesSelf(s);
    Then(s, s, CancelRead(0, orderId), Sys(c, map[0 := p]));
    ClosedRuns(c, map[0 := p], 0, ActorOf(principal), reason, reachable);
    var after := Closed(c, CancelDoor, orderId, c.db.orders[orderId].status, ActorOf(principal), reason, reachable).0;
    assert map[0 := p] - {0} == map[];
    ReachesTransitive(s, Sys(c, map[0 := p]), Sys(after, map[]));
  }

  // ----- The sweep -----

  /** One admitted request per order scanned. */
  function Scanned(batch: seq<nat>): map<nat, Process> {
    map o | o in batch :: Closing(ExpiryDoor, o, PendingPayment)
  }

  lemma {:induction false} ScanRuns(c: Core, batch: seq<nat>, now: int)
    requires Unique(batch) && forall k :: 0 <= k < |batch| ==> Overdue(c.db, batch[k], now)
    ensures Reaches(Sys(c, map[]), Sys(c, Scanned(batch)))
  {
    if batch == [] {
      ReachesSelf(Sys(c, map[]));
      assert Scanned([]) == map[];
    } else {
      var init, o := batch[..|batch| - 1], batch[|batch| - 1];
      ScanRuns(c, init, now);
      assert o !in init;
      assert Overdue(c.db, o, now);
      ScannedOneMore(init, o);
      assert batch == init + [o];
      ScanStep(Sys(c, map[]), c, Scanned(init), o, now);
    }
  }

  lemma ScannedOneMore(init: seq<nat>, o: nat)
    ensures Scanned(init)[o := Closing(ExpiryDoor, o, PendingPayment)] == Scanned(init + [o])
  {
  }

  lemma ScanStep(s: Sys, c: Core, procs: map<nat, Process>, o: nat, now: int)
    requires o !in procs && Overdue(c.db, o, now) && Reaches(s, Sys(c, procs))
    ensures Reaches(s, Sys(c, procs[o := Closing(ExpiryDoor, o, PendingPayment)]))
  {
    Then(s, Sys(c, procs), ExpiryScan(o, o, now), Sys(c, procs[o := Closing(ExpiryDoor, o, PendingPayment)]));
  }

  lemma ScannedOneLess(batch: seq<nat>, k: nat)
    requires Unique(batch) && 0 < k <= |batch|
    ensures batch[k - 1] in Scanned(batch[k - 1..]) && Scanned(batch[k - 1..]) - {batch[k - 1]} == Scanned(batch[k..])
    ensures Scanned(batch[k - 1..])[batch[k - 1]] == Closing(ExpiryDoor, batch[k - 1], PendingPayment)
  {
    var o := batch[k - 1];
    assert batch[k - 1..] == [o] + batch[k..] && o !in batch[k..];
  }

  lemma {:induction false} SweepRuns(c: Core, batch: seq<nat>, k: nat, reachable: nat -> bool)
    requires Unique(batch) && k <= |batch|
    ensures Reaches(Sys(c, Scanned(batch)), Sys(Swept(c, batch[..k], reachable).0, Scanned(batch[k..])))
  {
    if k == 0 {
      ReachesSelf(Sys(c, Scanned(batch)));
      assert batch[0..] == batch;
    } else {
      SweepRuns(c, batch, k - 1, reachable);
      var o, before := batch[k - 1], Swept(c, batch[..k - 1], reachable).0;
      assert batch[..k][..k - 1] == batch[..k - 1];
      var left := Scanned(batch[k - 1..]);
      ScannedOneLess(batch, k);
      ClosedRuns(before, left, o, System, None, reachable(o));
      ReachesTransitive(Sys(c, Scanned(batch)), Sys(before, left), Sys(Swept(c, batch[..k], reachable).0, Scanned(batch[k..])));
    }
  }

  /** The whole sweep, although every order after the first is expired on a scan that has gone stale. */
  lemma ExpireOverdueRuns(c: Core, now: int, batch: seq<nat>, reachable: nat -> bool)
    requires IsBatch(|c.db.orders|, OverdueAt(c.db, now), MAX_ORDERS_PER_TICK, batch)
    ensures Reaches(Sys(c, map[]), Sys(Swept(c, batch, reachable).0, map[]))
  {
    ScanRuns(c, batch, now);
    SweepRuns(c, batch, |batch|, reachable);
    assert batch[..|batch|] == batch && batch[|batch|..] == [];
    assert Scanned([]) == map[];
    ReachesTransitive(Sys(c, map[]), Sys(c, Scanned(batch)), Sys(Swept(c, batch, reachable).0, map[]));
  }

  // ----- Paying, refunding, moving -----

  lemma PayableIsRead(c: Core, principal: Principal, orderId: nat)
    requires PayableNow(c.db, principal, orderId).Done?
    ensures Reaches(Sys(c, map[]), Sys(c, map[0 := Payable(PayableNow(c.db, principal, orderId).value)]))
  {
    var s, quote := Sys(c, map[]), PayableNow(c.db, principal, orderId).value;
    LiveIsRead(c.db, orderId);
    ReachesSelf(s);
    Then(s, s, LoadOrder(0, orderId), Sys(c, map[0 := SawPayable(quote)]));
    assert map[0 := SawPayable(quote)][0 := Payable(quote)] == map[0 := Payable(quote)];
    Then(s, Sys(c, map[0 := SawPayable(quote)]), CheckLive(0), Sys(c, map[0 := Payable(quote)]));
  }

  lemma PayCashRuns(c: Core, principal: Principal, orderId: nat, tenderedMinor: int, key: Option<string>)
    ensures Reaches(Sys(c, map[]), Sys(c.(db := After(c.db, CashStep(c.db, principal, orderId, tenderedMinor, key))), map[]))
  {
    var quote := PayableNow(c.db, principal, orderId);
    ReachesSelf(Sys(c, map[]));
    if quote.Done? && principal.Staff? && tenderedMinor >= quote.value.totalMinor {
      PayableIsRead(c, principal, orderId);
      assert map[0 := Payable(quote.value)] - {0} == map[];
      Then(Sys(c, map[]), Sys(c, map[0 := Payable(quote.value)]), CommitCash(0, tenderedMinor, key),
           Sys(c.(db := After(c.db, CashStep(c.db, principal, orderId, tenderedMinor, key))), map[]));
    }
  }

  lemma IntentIsOpened(c: Core, principal: Principal, orderId: nat)
    requires PayableNow(c.db, principal, orderId).Done?
    ensures var quote := PayableNow(c.db, principal, orderId).value;
            Reaches(Sys(c, map[]), Sys(c.(gateway := c.gateway + [Intent(quote.totalMinor, quote.currency, IntentOpen)]),
                                       map[0 := IntentOpened(quote, |c.gateway|)]))
  {
    var quote := PayableNow(c.db, principal, orderId).value;
    PayableIsRead(c, principal, orderId);
    var before, after := map[0 := Payable(quote)], map[0 := IntentOpened(quote, |c.gateway|)];
    assert before[0 := after[0]] == after;
    Then(Sys(c, map[]), Sys(c, before), OpenIntent(0, None),
         Sys(c.(gateway := c.gateway + [Intent(quote.totalMinor, quote.currency, IntentOpen)]), after));
  }

  lemma PayByGatewayRuns(c: Core, principal: Principal, orderId: nat, key: Option<string>)
    ensures Reaches(Sys(c, map[]), Sys(GatewayStep(c, principal, orderId, key).0, map[]))
  {
    var quote := PayableNow(c.db, principal, orderId);
    if quote.Done? {
      IntentIsOpened(c, principal, orderId);
      var c' := c.(gateway := c.gateway + [Intent(quote.value.totalMinor, quote.value.currency, IntentOpen)]);
      var after := map[0 := IntentOpened(quote.value, |c.gateway|)];
      assert after - {0} == map[];
      Then(Sys(c, map[]), Sys(c', after), CommitGateway(0, key), Sys(GatewayStep(c, principal, orderId, key).0, map[]));
    } else {
      ReachesSelf(Sys(c, map[]));
    }
  }

  lemma RefundIsRead(c: Core, paymentId: nat, today: int)
    requires MayRefund(c.db, paymentId, today)
    ensures var p := c.db.payments[paymentId];
            Reaches(Sys(c, map[]), Sys(c, map[0 := Refundable(paymentId, p.amountMinor, p.orderId, c.db.orders[p.orderId].status)]))
  {
    var s, p := Sys(c, map[]), c.db.payments[paymentId];
    var one := SawRefundable(paymentId, p.orderId, p.amountMinor);
    var two := Refundable(paymentId, p.amountMinor, p.orderId, c.db.orders[p.orderId].status);
    ReachesSelf(s);
    Then(s, s, RefundReadPayment(0, paymentId), Sys(c, map[0 := one]));
    assert map[0 := one] == map[][0 := one] && map[0 := two] == map[][0 := two];
    Learns(s, c, map[], 0, one, RefundReadOrder(0, today), two);
  }

  lemma RefundRuns(c: Core, paymentId: nat, amountMinor: int, reason: string, today: int)
    ensures Reaches(Sys(c, map[]), Sys(c.(db := After(c.db, RefundStep(c.db, paymentId, amountMinor, reason, today))), map[]))
  {
    if MayRefund(c.db, paymentId, today) {
      RefundIsRead(c, paymentId, today);
      var p := c.db.payments[paymentId];
      var two := map[0 := Refundable(paymentId, p.amountMinor, p.orderId, c.db.orders[p.orderId].status)];
      assert two - {0} == map[];
      Then(Sys(c, map[]), Sys(c, two), CommitRefund(0, amountMinor, reason),
           Sys(c.(db := After(c.db, RefundStep(c.db, paymentId, amountMinor, reason, today))), map[]));
    } else {
      ReachesSelf(Sys(c, map[]));
    }
  }

  lemma StatusIsRead(c: Core, orderId: nat, to: OrderStatus)
    requires orderId < |c.db.orders| && IsStaffTransition(c.db.orders[orderId].status, to)
    ensures Reaches(Sys(c, map[]), Sys(c, map[0 := Moving(orderId, c.db.orders[orderId].status, to)]))
  {
    ReachesSelf(Sys(c, map[]));
    Then(Sys(c, map[]), Sys(c, map[]), StatusRead(0, orderId, to), Sys(c, map[0 := Moving(orderId, c.db.orders[orderId].status, to)]));
  }

  lemma ChangeStatusRuns(c: Core, orderId: nat, to: OrderStatus, actor: ActorType)
    ensures Reaches(Sys(c, map[]), Sys(c.(db := After(c.db, StatusStep(c.db, orderId, to, actor))), map[]))
  {
    if orderId < |c.db.orders| && IsStaffTransition(c.db.orders[orderId].status, to) {
      StatusIsRead(c, orderId, to);
      var one := map[0 := Moving(orderId, c.db.orders[orderId].status, to)];
      assert one - {0} == map[];
      Then(Sys(c, map[]), Sys(c, one), CommitStatus(0, actor), Sys(c.(db := After(c.db, StatusStep(c.db, orderId, to, actor))), map[]));
    } else {
      ReachesSelf(Sys(c, map[]));
    }
  }

  // ----- What the sweep achieves -----

  /** An unpaid order whose gateway answers, and which the gateway has not charged, is expired; otherwise it is untouched. */
  lemma ExpiresUnlessPaid(c: Core, orderId: nat, reachable: bool)
    requires CoreInv(c) && orderId < |c.db.orders| && c.db.orders[orderId].status.PendingPayment?
    ensures var (after, expired) := Closed(c, ExpiryDoor, orderId, PendingPayment, System, None, reachable);
            var live := FirstLive(c.db.payments, orderId);
            && orderId < |after.db.orders|
            && after.db.orders[orderId].status == (if expired then OrderStatus.Expired else PendingPayment)
            && (live.None? ==> expired)
            && (live.Some? ==> live.value < |c.db.payments| && c.db.payments[live.value].intentId.Some?
                               && c.db.payments[live.value].intentId.value < |c.gateway|
                               && (expired <==> reachable && !c.gateway[c.db.payments[live.value].intentId.value].state.IntentSucceeded?))
  {
    FirstLiveIs(c.db.payments, orderId, 0);
    var live := FirstLive(c.db.payments, orderId);
    if live.Some? {
      assert PaymentRowOk(c.db, c.gateway, c.db.payments[live.value]);
    }
  }
}

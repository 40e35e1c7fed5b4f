/**
 Closing an order has the gateway drop the intent of its live payment, so
 that nobody can pay for an order that is gone. It does not always close them all: a
 payment that failed is no longer live and its intent stays open, and a payment row
 may be inserted after the order was closed. This module gives both runs and proves
 exactly which steps leave a closed order that can still be charged.
 */
module LeftOpen {
  import opened Wrappers
  import opened OrderState
  import opened PaymentDecision
  import opened Tables
  import opened Protocol
  import opened Invariants
  import opened Theorems
  import S = SilentCapture

  predicate Closed(o: Order) {
    o.status.Cancelled? || o.status.Expired?
  }

  ghost predicate IsClosed(db: Db, o: nat) {
    o < |db.orders| && Closed(db.orders[o])
  }

  /** Payment `p` is for the order, and the customer can still complete it at the gateway. */
  ghost predicate OpenFor(c: Core, o: nat, p: nat) {
    && p < |c.db.payments| && c.db.payments[p].orderId == o
    && c.db.payments[p].intentId.Some? && c.db.payments[p].intentId.value < |c.gateway|
    && c.gateway[c.db.payments[p].intentId.value].state.IntentOpen?
  }

  /** The order is closed and can still be charged. */
  ghost predicate Exposed(c: Core, o: nat) {
    IsClosed(c.db, o) && exists p: nat :: OpenFor(c, o, p)
  }

  // ----- What a step can do to it -----

  /** The step commits a close of the order. */
  ghost predicate Closes(s: Sys, a: Action, o: nat) {
    && a.CommitClose? && a.pid in s.procs && s.procs[a.pid].Cleared? && s.procs[a.pid].orderId == o && o < |s.core.db.orders|
    && s.core.db.orders[o].status == if s.procs[a.pid].door.ExpiryDoor? then PendingPayment else s.procs[a.pid].from
  }

  /** The step commits a gateway payment of the order. */
  ghost predicate Opens(s: Sys, a: Action, o: nat) {
    && a.CommitGateway? && a.pid in s.procs && s.procs[a.pid].IntentOpened? && s.procs[a.pid].order.id == o
    && var p := s.procs[a.pid]; OpenGatewayPayment(s.core.db, o, p.order.totalMinor, p.order.currency, p.intentId, a.key).Some?
  }

  /**
   What leaves a closed order chargeable: closing it while the intent of one of its
   payments is open, or inserting a payment whose intent is open when it is closed.
   */
  ghost predicate Exposes(s: Sys, a: Action, o: nat) {
    || (Closes(s, a, o) && exists p: nat :: OpenFor(s.core, o, p))
    || (Opens(s, a, o) && IsClosed(s.core.db, o) && s.procs[a.pid].intentId < |s.core.gateway|
        && s.core.gateway[s.procs[a.pid].intentId].state.IntentOpen?)
  }

  /** The payment whose intent the close did cancel is not among them, nor is any that is CANCELLED. */
  lemma OpenIsAnother(s: Sys, a: Action, o: nat, p: nat)
    requires Inv(s) && Closes(s, a, o) && OpenFor(s.core, o, p)
    ensures s.procs[a.pid].live.Some? ==> s.procs[a.pid].live.value.id != p
    ensures !s.core.db.payments[p].status.Succeeded? && !s.core.db.payments[p].status.Cancelled?
  {
    assert ProcessOk(s.core, s.procs[a.pid]);
    assert PaymentRowOk(s.core.db, s.core.gateway, s.core.db.payments[p]);
  }

  /** No status but these changed. */
  ghost predicate NoneClosed(s: Sys, t: Sys) {
    forall o: nat :: IsClosed(t.core.db, o) ==> IsClosed(s.core.db, o)
  }

  lemma ProcessorClosesNone(s: Sys, a: Action, t: Sys)
    requires NextProcessor(s, a) == Some(t)
    ensures NoneClosed(s, t)
  {
  }

  lemma PayingClosesNone(s: Sys, a: Action, t: Sys)
    requires NextPaying(s, a) == Some(t)
    ensures NoneClosed(s, t)
  {
  }

  lemma RefundClosesNone(s: Sys, a: Action, t: Sys)
    requires NextRefund(s, a) == Some(t)
    ensures NoneClosed(s, t)
  {
  }

  lemma StatusClosesNone(s: Sys, a: Action, t: Sys)
    requires NextStatus(s, a) == Some(t) && Inv(s)
    ensures NoneClosed(s, t)
  {
    if a.CommitStatus? {
      assert ProcessOk(s.core, s.procs[a.pid]);
    }
  }

  lemma WorldClosesNone(s: Sys, a: Action, t: Sys)
    requires NextWorld(s, a) == Some(t)
    ensures NoneClosed(s, t)
  {
  }

  /** Only a close that commits closes an order, and it always does. */
  lemma ClosingClosesIff(s: Sys, a: Action, t: Sys, o: nat)
    requires NextClosing(s, a) == Some(t) && !IsClosed(s.core.db, o)
    ensures IsClosed(t.core.db, o) <==> Closes(s, a, o)
  {
  }

  lemma StepClosesIff(s: Sys, a: Action, t: Sys, o: nat)
    requires Inv(s) && Next(s, a) == Some(t) && !IsClosed(s.core.db, o)
    ensures IsClosed(t.core.db, o) <==> Closes(s, a, o)
  {
    if a.ReadEvent? || a.ReadEventPayment? || a.ReadEventOrder? || a.ApplyDecision? {
      ProcessorClosesNone(s, a, t);
    } else if a.LoadOrder? || a.CheckLive? || a.OpenIntent? || a.CommitGateway? || a.CommitCash? {
      PayingClosesNone(s, a, t);
    } else if a.CancelRead? || a.ExpiryScan? || a.ReadLive? || a.AskGateway? || a.CommitClose? {
      ClosingClosesIff(s, a, t, o);
    } else if a.RefundReadPayment? || a.RefundReadOrder? || a.CommitRefund? {
      RefundClosesNone(s, a, t);
    } else if a.StatusRead? || a.CommitStatus? {
      StatusClosesNone(s, a, t);
    } else {
      WorldClosesNone(s, a, t);
    }
  }

  // ----- What a step can do to the intents -----

  /** An intent behind a row that was there stays behind it, and never opens again. */
  lemma OldRowsOnlyClose(s: Sys, t: Sys, o: nat, p: nat)
    requires Inv(s) && Grows(s.core, t.core) && p < |s.core.db.payments| && OpenFor(t.core, o, p)
    ensures OpenFor(s.core, o, p)
  {
    assert SamePayment(s.core.db.payments[p], t.core.db.payments[p]);
    assert PaymentRowOk(s.core.db, s.core.gateway, s.core.db.payments[p]);
    var i := s.core.db.payments[p].intentId.value;
    assert SameIntent(s.core.gateway[i], t.core.gateway[i]);
  }

  ghost predicate NoRowAdded(s: Sys, t: Sys) {
    |t.core.db.payments| == |s.core.db.payments|
  }

  lemma ProcessorAddsNone(s: Sys, a: Action, t: Sys)
    requires NextProcessor(s, a) == Some(t) || NextRefund(s, a) == Some(t) || NextStatus(s, a) == Some(t)
    ensures NoRowAdded(s, t)
  {
  }

  lemma WorldAddsNone(s: Sys, a: Action, t: Sys)
    requires NextWorld(s, a) == Some(t) || NextClosing(s, a) == Some(t)
    ensures NoRowAdded(s, t)
  {
  }

  /** A new row with an intent is one that a gateway payment committed. */
  lemma PayingAdds(s: Sys, a: Action, t: Sys, o: nat, p: nat)
    requires NextPaying(s, a) == Some(t) && OpenFor(t.core, o, p) && p >= |s.core.db.payments|
    ensures Opens(s, a, o) && s.procs[a.pid].intentId < |s.core.gateway| && s.core.gateway[s.procs[a.pid].intentId].state.IntentOpen?
  {
  }

  lemma StepAdds(s: Sys, a: Action, t: Sys, o: nat, p: nat)
    requires Next(s, a) == Some(t) && OpenFor(t.core, o, p) && p >= |s.core.db.payments|
    ensures Opens(s, a, o) && s.procs[a.pid].intentId < |s.core.gateway| && s.core.gateway[s.procs[a.pid].intentId].state.IntentOpen?
  {
    if a.LoadOrder? || a.CheckLive? || a.OpenIntent? || a.CommitGateway? || a.CommitCash? {
      PayingAdds(s, a, t, o, p);
    } else if a.ReadEvent? || a.ReadEventPayment? || a.ReadEventOrder? || a.ApplyDecision?
              || a.RefundReadPayment? || a.RefundReadOrder? || a.CommitRefund? || a.StatusRead? || a.CommitStatus? {
      ProcessorAddsNone(s, a, t);
    } else {
      WorldAddsNone(s, a, t);
    }
  }

  // ----- Exactly when a closed order can still be charged -----

  /** A close leaves every payment row its order and its intent, and the gateway as it was. */
  lemma CloseKeepsOpen(s: Sys, a: Action, t: Sys, o: nat, p: nat)
    requires Closes(s, a, o) && NextClosing(s, a) == Some(t) && OpenFor(s.core, o, p)
    ensures OpenFor(t.core, o, p)
  {
  }

  lemma OpenAddsRow(s: Sys, a: Action, t: Sys, o: nat)
    requires Opens(s, a, o) && NextPaying(s, a) == Some(t) && IsClosed(s.core.db, o)
    requires s.procs[a.pid].intentId < |s.core.gateway| && s.core.gateway[s.procs[a.pid].intentId].state.IntentOpen?
    ensures IsClosed(t.core.db, o) && OpenFor(t.core, o, |s.core.db.payments|)
  {
  }

  /** A step makes a closed order chargeable if and only if it is one of those two. */
  lemma StepExposesIff(s: Sys, a: Action, t: Sys, o: nat)
    requires Inv(s) && Next(s, a) == Some(t) && !Exposed(s.core, o)
    ensures Exposed(t.core, o) <==> Exposes(s, a, o)
  {
    if Exposed(t.core, o) {
      StepKeeps(s, a, t);
      var p: nat :| OpenFor(t.core, o, p);
      ExposedByStep(s, a, t, o, p);
    }
    if Exposes(s, a, o) {
      ExposesNow(s, a, t, o);
    }
  }

  lemma ExposedByStep(s: Sys, a: Action, t: Sys, o: nat, p: nat)
    requires Inv(s) && Next(s, a) == Some(t) && Grows(s.core, t.core) && !Exposed(s.core, o) && IsClosed(t.core.db, o) && OpenFor(t.core, o, p)
    ensures Exposes(s, a, o)
  {
    if p >= |s.core.db.payments| {
      StepAdds(s, a, t, o, p);
    } else {
      OldRowsOnlyClose(s, t, o, p);
    }
    if !IsClosed(s.core.db, o) {
      StepClosesIff(s, a, t, o);
    }
  }

  lemma ExposesNow(s: Sys, a: Action, t: Sys, o: nat)
    requires Inv(s) && Next(s, a) == Some(t) && !Exposed(s.core, o) && Exposes(s, a, o)
    ensures Exposed(t.core, o)
  {
    if Closes(s, a, o) {
      var p: nat :| OpenFor(s.core, o, p);
      CloseKeepsOpen(s, a, t, o, p);
      StepClosesIff(s, a, t, o);
    } else {
      OpenAddsRow(s, a, t, o);
    }
  }

  /** At the end of the run, or at some point before it, the order is closed and can still be charged. */
  ghost predicate EverExposed(actions: seq<Action>, o: nat) {
    var t := Run(INITIAL, actions);
    (t.Some? && Exposed(t.value.core, o)) || (actions != [] && EverExposed(actions[..|actions| - 1], o))
  }

  /** Some step of the run is one of those two. */
  ghost predicate EverExposes(actions: seq<Action>, o: nat) {
    actions != [] &&
    var n := |actions| - 1;
    var before := Run(INITIAL, actions[..n]);
    (before.Some? && Exposes(before.value, actions[n], o)) || EverExposes(actions[..n], o)
  }

  /** Over whole runs: an order is at some time closed and chargeable if and only if the run takes such a step for it. */
  lemma {:induction false} EverExposedIff(actions: seq<Action>, o: nat)
    requires Run(INITIAL, actions).Some?
    ensures EverExposed(actions, o) <==> EverExposes(actions, o)
    decreases |actions|
  {
    if actions != [] {
      var n := |actions| - 1;
      var s, t := Run(INITIAL, actions[..n]).value, Run(INITIAL, actions).value;
      EverExposedIff(actions[..n], o);
      StepOfRun(actions[..n], s, actions[n], t, o);
      if Exposed(s.core, o) {
        assert EverExposed(actions[..n], o);
      }
    }
  }

  lemma StepOfRun(before: seq<Action>, s: Sys, a: Action, t: Sys, o: nat)
    requires Run(INITIAL, before) == Some(s) && Next(s, a) == Some(t)
    ensures !Exposed(s.core, o) ==> (Exposed(t.core, o) <==> Exposes(s, a, o))
  {
    S.RunIsReachable(before, s);
    ReachableInv(s);
    if !Exposed(s.core, o) {
      StepExposesIff(s, a, t, o);
    }
  }

  // ----- The two ways it happens -----

  const FAILURE: GatewayOutcome := OutcomeFailed(0)
  const FAILED: Payment := S.BY_GATEWAY.(status := PaymentStatus.Failed)

  function FailureEvent(processed: bool): Event {
    Event("evt_1", FAILURE, if processed then Some(0) else None, processed)
  }

  /** A gateway payment is open for the order. */
  lemma PaymentOpen(o: Order)
    requires S.Unpaid(o) && Reachable(S.WithOrder(o, [], [], [], map[]))
    ensures Reachable(S.WithOrder(o, [S.BY_GATEWAY], [], [S.OPEN], map[]))
  {
    S.TillReads(o, 1, map[]);
    var s := S.WithOrder(o, [], [], [], map[1 := Payable(S.QUOTE)]);
    var asked := S.WithOrder(o, [], [], [S.OPEN], map[1 := IntentOpened(S.QUOTE, 0)]);
    assert s.core.gateway + [S.OPEN] == [S.OPEN];
    assert s.procs[1 := IntentOpened(S.QUOTE, 0)] == asked.procs;
    S.ReachableStep(s, OpenIntent(1, None), asked);
    RowInserted(o, asked);
  }

  lemma RowInserted(o: Order, asked: Sys)
    requires asked == S.WithOrder(o, [], [], [S.OPEN], map[1 := IntentOpened(S.QUOTE, 0)]) && Reachable(asked)
    ensures Reachable(S.WithOrder(o, [S.BY_GATEWAY], [], [S.OPEN], map[]))
  {
    var t := S.WithOrder(o, [S.BY_GATEWAY], [], [S.OPEN], map[]);
    assert asked.core.db.payments + [S.BY_GATEWAY] == [S.BY_GATEWAY];
    assert OpenGatewayPayment(asked.core.db, 0, 100, "THB", 0, None) == Some(t.core.db);
    assert asked.procs - {1} == t.procs;
    S.ReachableStep(asked, CommitGateway(1, None), t);
  }

  function WithFailure(o: Order, processed: bool, procs: map<nat, Process>): Sys {
    S.WithOrder(o, [if processed then FAILED else S.BY_GATEWAY], [FailureEvent(processed)], [S.OPEN], procs)
  }

  /** An attempt fails: the customer may try again on the same intent, but the row is FAILED. */
  lemma AttemptFails(o: Order)
    requires S.Unpaid(o) && Reachable(S.WithOrder(o, [S.BY_GATEWAY], [], [S.OPEN], map[]))
    ensures Reachable(WithFailure(o, true, map[]))
  {
    var s := S.WithOrder(o, [S.BY_GATEWAY], [], [S.OPEN], map[]);
    assert s.core.db.events + [FailureEvent(false)] == [FailureEvent(false)];
    S.ReachableStep(s, Deliver("evt_1", FAILURE), WithFailure(o, false, map[]));
    S.ReachableStep(WithFailure(o, false, map[]), ReadEvent(3, 0), WithFailure(o, false, map[3 := SawEvent(0, FAILURE)]));
    FailureRead(o);
    FailureDecided(o);
    FailureMarked(o);
  }

  lemma FailureRead(o: Order)
    requires Reachable(WithFailure(o, false, map[3 := SawEvent(0, FAILURE)]))
    ensures Reachable(WithFailure(o, false, map[3 := SawEventPayment(0, FAILURE, Some(S.RECORD))]))
  {
    var s, t := WithFailure(o, false, map[3 := SawEvent(0, FAILURE)]), WithFailure(o, false, map[3 := SawEventPayment(0, FAILURE, Some(S.RECORD))]);
    assert PaymentOfIntentFrom(s.core.db.payments, 0) == Some(0);
    assert s.procs[3 := SawEventPayment(0, FAILURE, Some(S.RECORD))] == t.procs;
    S.ReachableStep(s, ReadEventPayment(3), t);
  }

  lemma FailureDecided(o: Order)
    requires Reachable(WithFailure(o, false, map[3 := SawEventPayment(0, FAILURE, Some(S.RECORD))]))
    ensures Reachable(WithFailure(o, false, map[3 := Decided(0, MarkPayment(0, PaymentStatus.Failed), Some(0))]))
  {
    var s := WithFailure(o, false, map[3 := SawEventPayment(0, FAILURE, Some(S.RECORD))]);
    var t := WithFailure(o, false, map[3 := Decided(0, MarkPayment(0, PaymentStatus.Failed), Some(0))]);
    assert s.procs[3 := Decided(0, MarkPayment(0, PaymentStatus.Failed), Some(0))] == t.procs;
    S.ReachableStep(s, ReadEventOrder(3), t);
  }

  lemma FailureMarked(o: Order)
    requires Reachable(WithFailure(o, false, map[3 := Decided(0, MarkPayment(0, PaymentStatus.Failed), Some(0))]))
    ensures Reachable(WithFailure(o, true, map[]))
  {
    var s, t := WithFailure(o, false, map[3 := Decided(0, MarkPayment(0, PaymentStatus.Failed), Some(0))]), WithFailure(o, true, map[]);
    assert s.procs - {3} == t.procs;
    assert s.core.db.payments[0 := FAILED] == [FAILED] && s.core.db.events[0 := FailureEvent(true)] == [FailureEvent(true)];
    S.ReachableStep(s, ApplyDecision(3, None), t);
  }

  /** An unpaid order without a live payment is cancelled: the gateway is not asked anything. */
  lemma CancelledUnasked(s: Sys) returns (t: Sys)
    requires Reachable(s) && |s.core.db.orders| == 1 && s.core.db.orders[0].status.PendingPayment? && !HasLivePayment(s.core.db, 0) && 5 !in s.procs
    ensures Reachable(t) && t.core.gateway == s.core.gateway && t.core.db.payments == s.core.db.payments && t.procs == s.procs
    ensures |t.core.db.orders| == 1 && t.core.db.orders[0].status.Cancelled? && t.core.db.events == s.core.db.events
  {
    var reading := s.(procs := s.procs[5 := Closing(CancelDoor, 0, PendingPayment)]);
    S.ReachableStep(s, CancelRead(5, 0), reading);
    var unlive := s.(procs := s.procs[5 := ClosingLive(CancelDoor, 0, PendingPayment, None)]);
    assert reading.procs[5 := ClosingLive(CancelDoor, 0, PendingPayment, None)] == unlive.procs;
    assert !IsLivePaymentOf(s.core.db, 0, 0);
    S.ReachableStep(reading, ReadLive(5, 0), unlive);
    t := CancelCommits(s, unlive);
  }

  lemma CancelCommits(s: Sys, unlive: Sys) returns (t: Sys)
    requires |s.core.db.orders| == 1 && s.core.db.orders[0].status.PendingPayment? && 5 !in s.procs
    requires Reachable(unlive) && unlive == s.(procs := s.procs[5 := ClosingLive(CancelDoor, 0, PendingPayment, None)])
    ensures Reachable(t) && t.core.gateway == s.core.gateway && t.core.db.payments == s.core.db.payments && t.procs == s.procs
    ensures |t.core.db.orders| == 1 && t.core.db.orders[0].status.Cancelled? && t.core.db.events == s.core.db.events
  {
    var cleared := s.(procs := s.procs[5 := Cleared(CancelDoor, 0, PendingPayment, None)]);
    assert unlive.procs[5 := Cleared(CancelDoor, 0, PendingPayment, None)] == cleared.procs;
    S.ReachableStep(unlive, AskGateway(5), cleared);
    var db := ApplyCancel(s.core.db, 0, PendingPayment, None, User, None).value;
    t := Sys(s.core.(db := db), s.procs);
    assert cleared.procs - {5} == s.procs;
    S.ReachableStep(cleared, CommitClose(5, User, None), t);
  }

  /** An attempt fails, the order is cancelled, and the customer pays on the intent that is still open. */
  lemma FailedAttemptIsCharged() returns (s: Sys, t: Sys)
    ensures Reachable(s) && Exposed(s.core, 0) && s.core.db.payments[0].status.Failed?
    ensures Next(s, Capture(0, 100)) == Some(t) && Captured(t.core.gateway, 0, 100, "THB") && IsClosed(t.core.db, 0)
    ensures Decide(S.SUCCESS, ReadPaymentFor(t.core.db, S.SUCCESS), ReadOrderFor(t.core.db, ReadPaymentFor(t.core.db, S.SUCCESS))) == Refuse(OrderNotPayable)
  {
    var o := S.OneOrder();
    PaymentOpen(o);
    AttemptFails(o);
    s := CancelledUnasked(WithFailure(o, true, map[]));
    assert OpenFor(s.core, 0, 0);
    t := s.(core := s.core.(gateway := SetIntent(s.core.gateway, 0, IntentSucceeded(100))));
    assert PaymentOfIntentFrom(t.core.db.payments, 0) == Some(0);
  }

  /** A payment is opened at the gateway, the order is cancelled meanwhile, and the payment row is inserted all the same. */
  lemma LateRowIsOpen() returns (s: Sys, t: Sys)
    ensures Reachable(s) && IsClosed(s.core.db, 0) && !Exposed(s.core, 0)
    ensures Next(s, CommitGateway(1, None)) == Some(t) && Exposed(t.core, 0) && t.core.db.payments[0].status.Pending?
  {
    var o := S.OneOrder();
    S.TillReads(o, 1, map[]);
    var payable := S.WithOrder(o, [], [], [], map[1 := Payable(S.QUOTE)]);
    var asked := S.WithOrder(o, [], [], [S.OPEN], map[1 := IntentOpened(S.QUOTE, 0)]);
    assert payable.core.gateway + [S.OPEN] == [S.OPEN];
    assert payable.procs[1 := IntentOpened(S.QUOTE, 0)] == asked.procs;
    S.ReachableStep(payable, OpenIntent(1, None), asked);
    s := CancelledUnasked(asked);
    t := LateRow(s);
  }

  lemma LateRow(s: Sys) returns (t: Sys)
    requires |s.core.db.orders| == 1 && s.core.db.orders[0].status.Cancelled? && s.core.db.payments == [] && s.core.gateway == [S.OPEN]
    requires s.procs == map[1 := IntentOpened(S.QUOTE, 0)]
    ensures Next(s, CommitGateway(1, None)) == Some(t) && Exposed(t.core, 0) && t.core.db.payments[0].status.Pending?
  {
    var db := OpenGatewayPayment(s.core.db, 0, 100, "THB", 0, None).value;
    t := Sys(s.core.(db := db), s.procs - {1});
    assert OpenFor(t.core, 0, 0);
  }
}

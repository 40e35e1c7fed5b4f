/**
 The inbox promises that captured money is either recorded or still visible as an
 unprocessed event. It is not always so: a success for an order already PAID is
 skipped as a replay without looking at which payment paid it. This module gives
 the run that loses a capture and proves exactly when one is lost.
 */
module SilentCapture {
  import opened Wrappers
  import opened PaymentDecision
  import opened Pricing
  import opened Sums
  import opened Tables
  import opened Protocol
  import opened Invariants
  import opened Theorems

  /** The success names a payment row it agrees with, and that row is not settled. */
  ghost predicate Unsettled(db: Db, outcome: GatewayOutcome) {
    exists p: nat :: p < |db.payments| && Matches(db, outcome, p) && !db.payments[p].status.Succeeded?
  }

  /** A stored success was set aside while its own payment is not recorded as settled. */
  ghost predicate Silenced(db: Db, e: nat) {
    e < |db.events| && db.events[e].processed && Unsettled(db, db.events[e].outcome)
  }

  /** Every success the inbox has set aside is money the books show. */
  ghost predicate Accounted(db: Db) {
    forall e: nat :: e < |db.events| ==> !Silenced(db, e)
  }

  lemma MatchIsUnique(db: Db, outcome: GatewayOutcome, p: nat, q: nat)
    requires UniqueIntents(db) && Matches(db, outcome, p) && Matches(db, outcome, q)
    ensures p == q
  {
  }

  /** Once its order has taken money, whether a success's own payment is settled never changes. */
  lemma UnsettledIff(a: Core, b: Core, outcome: GatewayOutcome)
    requires CoreInv(a) && CoreInv(b) && Grows(a, b) && Matched(a.db, outcome)
    ensures Unsettled(a.db, outcome) <==> Unsettled(b.db, outcome)
  {
    var m: nat :| m < |a.db.payments| && MatchesPaid(a.db, outcome, m);
    var o := a.db.payments[m].orderId;
    assert SamePayment(a.db.payments[m], b.db.payments[m]);
    assert Matches(b.db, outcome, m);
    if Unsettled(a.db, outcome) {
      var p: nat :| p < |a.db.payments| && Matches(a.db, outcome, p) && !a.db.payments[p].status.Succeeded?;
      MatchIsUnique(a.db, outcome, p, m);
      assert HasSettlement(a.db, o);
      var q: nat :| q < |a.db.payments| && Settles(a.db, q, o);
      assert SamePayment(a.db.payments[q], b.db.payments[q]);
      assert Settles(b.db, q, o) && m != q;
      assert !Settles(b.db, m, o);
    }
    if Unsettled(b.db, outcome) {
      var p: nat :| p < |b.db.payments| && Matches(b.db, outcome, p) && !b.db.payments[p].status.Succeeded?;
      MatchIsUnique(b.db, outcome, p, m);
    }
  }

  /** Once set aside, a capture stays out of the books: its order was paid by another payment, for good. */
  lemma SilencedForever(s: Sys, t: Sys, e: nat)
    requires Inv(s) && Inv(t) && Grows(s.core, t.core) && Silenced(s.core.db, e)
    ensures Silenced(t.core.db, e)
  {
    assert SameEvent(s.core.db.events[e], t.core.db.events[e]);
    assert Matched(s.core.db, s.core.db.events[e].outcome);
    UnsettledIff(s.core, t.core, s.core.db.events[e].outcome);
  }

  // ----- What the processor has in hand -----

  /** The process is about to set a success aside whose payment is not settled. */
  ghost predicate Losing(s: Sys, pid: nat) {
    && pid in s.procs && s.procs[pid].Decided? && s.procs[pid].decision.Skip?
    && s.procs[pid].event < |s.core.db.events|
    && Unsettled(s.core.db, s.core.db.events[s.procs[pid].event].outcome)
  }

  /**
   What a caller can see when the processor reads the order: the success agrees
   with the payment it found, the order is PAID, and that payment is not the one
   that paid it.
   */
  ghost predicate FindsPaidByAnother(s: Sys, a: Action) {
    && a.ReadEventOrder? && a.pid in s.procs && s.procs[a.pid].SawEventPayment?
    && var p, db := s.procs[a.pid], s.core.db;
       && p.payment.Some? && Matches(db, p.outcome, p.payment.value.id)
       && p.payment.value.orderId < |db.orders| && db.orders[p.payment.value.orderId].status.Paid?
       && !db.payments[p.payment.value.id].status.Succeeded?
  }

  /** The read decides: a process comes away from it losing a capture exactly when it found the order paid by another payment. */
  lemma ReadDecidesIff(s: Sys, a: Action, t: Sys)
    requires Inv(s) && a.ReadEventOrder? && Next(s, a) == Some(t)
    ensures Losing(t, a.pid) <==> FindsPaidByAnother(s, a)
  {
    var p := s.procs[a.pid];
    assert ProcessOk(s.core, p);
    assert t.core == s.core && t.procs[a.pid].event == p.event;
    if p.payment.Some? && p.outcome.OutcomeSucceeded? {
      SuccessDecidesIff(s.core, p.outcome, p.payment.value);
    }
  }

  lemma SuccessDecidesIff(c: Core, outcome: GatewayOutcome, r: PaymentRecord)
    requires CoreInv(c) && outcome.OutcomeSucceeded? && RecordOk(c, outcome, r)
    ensures Decide(outcome, Some(r), ReadOrderFor(c.db, Some(r))).Skip? && Unsettled(c.db, outcome) <==>
            Matches(c.db, outcome, r.id) && r.orderId < |c.db.orders| && c.db.orders[r.orderId].status.Paid? && !c.db.payments[r.id].status.Succeeded?
  {
    if Decide(outcome, Some(r), ReadOrderFor(c.db, Some(r))).Skip? && Unsettled(c.db, outcome) {
      assert Matches(c.db, outcome, r.id);
      var p: nat :| p < |c.db.payments| && Matches(c.db, outcome, p) && !c.db.payments[p].status.Succeeded?;
      MatchIsUnique(c.db, outcome, p, r.id);
    }
  }

  // ----- Between the read and the commit -----

  /** The action is a step of request `pid`. */
  predicate ActsFor(a: Action, pid: nat) {
    !a.CreateOrder? && !a.Checkout? && !a.Capture? && !a.Void? && !a.Deliver? && a.pid == pid
  }

  lemma ProcessorLeavesOthers(s: Sys, a: Action, t: Sys, pid: nat)
    requires !ActsFor(a, pid) && (NextProcessor(s, a) == Some(t) || NextWorld(s, a) == Some(t))
    ensures (pid in t.procs <==> pid in s.procs) && (pid in s.procs ==> t.procs[pid] == s.procs[pid])
  {
  }

  lemma MoneyLeavesOthers(s: Sys, a: Action, t: Sys, pid: nat)
    requires !ActsFor(a, pid) && (NextPaying(s, a) == Some(t) || NextRefund(s, a) == Some(t) || NextStatus(s, a) == Some(t))
    ensures (pid in t.procs <==> pid in s.procs) && (pid in s.procs ==> t.procs[pid] == s.procs[pid])
  {
  }

  lemma ClosingLeavesOthers(s: Sys, a: Action, t: Sys, pid: nat)
    requires !ActsFor(a, pid) && NextClosing(s, a) == Some(t)
    ensures (pid in t.procs <==> pid in s.procs) && (pid in s.procs ==> t.procs[pid] == s.procs[pid])
  {
  }

  /** A step of one request leaves what the others hold alone. */
  lemma StepLeavesOthers(s: Sys, a: Action, t: Sys, pid: nat)
    requires !ActsFor(a, pid) && Next(s, a) == Some(t)
    ensures (pid in t.procs <==> pid in s.procs) && (pid in s.procs ==> t.procs[pid] == s.procs[pid])
  {
    if a.CancelRead? || a.ExpiryScan? || a.ReadLive? || a.AskGateway? || a.CommitClose? {
      ClosingLeavesOthers(s, a, t, pid);
    } else if a.LoadOrder? || a.CheckLive? || a.OpenIntent? || a.CommitGateway? || a.CommitCash?
              || a.RefundReadPayment? || a.RefundReadOrder? || a.CommitRefund? || a.StatusRead? || a.CommitStatus? {
      MoneyLeavesOthers(s, a, t, pid);
    } else {
      ProcessorLeavesOthers(s, a, t, pid);
    }
  }

  lemma OwnProcessorStep(s: Sys, a: Action, t: Sys, pid: nat)
    requires ActsFor(a, pid) && !a.ReadEventOrder? && (NextProcessor(s, a) == Some(t) || NextWorld(s, a) == Some(t))
    ensures pid in t.procs ==> !t.procs[pid].Decided?
  {
  }

  lemma OwnMoneyStep(s: Sys, a: Action, t: Sys, pid: nat)
    requires ActsFor(a, pid) && (NextPaying(s, a) == Some(t) || NextRefund(s, a) == Some(t) || NextStatus(s, a) == Some(t))
    ensures pid in t.procs ==> !t.procs[pid].Decided?
  {
  }

  lemma OwnClosingStep(s: Sys, a: Action, t: Sys, pid: nat)
    requires ActsFor(a, pid) && NextClosing(s, a) == Some(t)
    ensures pid in t.procs ==> !t.procs[pid].Decided?
  {
  }

  /** Only that read leaves a decision in hand. */
  lemma OwnStepDecidesNothing(s: Sys, a: Action, t: Sys, pid: nat)
    requires ActsFor(a, pid) && !a.ReadEventOrder? && Next(s, a) == Some(t)
    ensures !Losing(t, pid)
  {
    if a.CancelRead? || a.ExpiryScan? || a.ReadLive? || a.AskGateway? || a.CommitClose? {
      OwnClosingStep(s, a, t, pid);
    } else if a.LoadOrder? || a.CheckLive? || a.OpenIntent? || a.CommitGateway? || a.CommitCash?
              || a.RefundReadPayment? || a.RefundReadOrder? || a.CommitRefund? || a.StatusRead? || a.CommitStatus? {
      OwnMoneyStep(s, a, t, pid);
    } else {
      OwnProcessorStep(s, a, t, pid);
    }
  }

  /** Whatever anyone else does in between, a process that is losing a capture stays so, and no other becomes so. */
  lemma LosingCarries(s: Sys, a: Action, t: Sys, pid: nat)
    requires Inv(s) && Inv(t) && Grows(s.core, t.core) && Next(s, a) == Some(t) && !ActsFor(a, pid)
    ensures Losing(t, pid) <==> Losing(s, pid)
  {
    StepLeavesOthers(s, a, t, pid);
    if pid in s.procs && s.procs[pid].Decided? && s.procs[pid].decision.Skip? {
      var e := s.procs[pid].event;
      assert ProcessOk(s.core, s.procs[pid]);
      assert SameEvent(s.core.db.events[e], t.core.db.events[e]);
      if s.core.db.events[e].outcome.OutcomeSucceeded? {
        UnsettledIff(s.core, t.core, s.core.db.events[e].outcome);
      }
    }
  }

  // ----- The commit -----

  ghost predicate NothingProcessed(s: Sys, t: Sys) {
    forall e: nat :: e < |t.core.db.events| && t.core.db.events[e].processed ==> e < |s.core.db.events| && s.core.db.events[e].processed
  }

  lemma OtherDoorsLeaveInbox(s: Sys, a: Action, t: Sys)
    requires NextPaying(s, a) == Some(t) || NextClosing(s, a) == Some(t) || NextRefund(s, a) == Some(t) || NextStatus(s, a) == Some(t)
    ensures t.core.db.events == s.core.db.events
  {
  }

  lemma WorldProcessesNothing(s: Sys, a: Action, t: Sys)
    requires NextWorld(s, a) == Some(t)
    ensures NothingProcessed(s, t)
  {
    if !a.Deliver? {
      assert t.core.db.events == s.core.db.events;
    }
  }

  lemma OnlyDecisionsProcess(s: Sys, a: Action, t: Sys)
    requires Next(s, a) == Some(t) && !a.ApplyDecision?
    ensures NothingProcessed(s, t)
  {
    if a.ReadEvent? || a.ReadEventPayment? || a.ReadEventOrder? {
      assert t.core == s.core;
    } else if a.LoadOrder? || a.CheckLive? || a.OpenIntent? || a.CommitGateway? || a.CommitCash?
              || a.CancelRead? || a.ExpiryScan? || a.ReadLive? || a.AskGateway? || a.CommitClose?
              || a.RefundReadPayment? || a.RefundReadOrder? || a.CommitRefund? || a.StatusRead? || a.CommitStatus? {
      OtherDoorsLeaveInbox(s, a, t);
    } else {
      WorldProcessesNothing(s, a, t);
    }
  }

  /** Only the processor sets a success aside: by settling its payment, or by skipping it. */
  lemma NewlyProcessed(s: Sys, a: Action, t: Sys, e: nat)
    requires Inv(s) && Next(s, a) == Some(t)
    requires e < |t.core.db.events| && t.core.db.events[e].processed && t.core.db.events[e].outcome.OutcomeSucceeded?
    requires e < |s.core.db.events| ==> !s.core.db.events[e].processed
    ensures e < |s.core.db.events| && a.ApplyDecision? && a.pid in s.procs && s.procs[a.pid].Decided? && s.procs[a.pid].event == e
    ensures s.procs[a.pid].decision.Skip? || s.procs[a.pid].decision.MarkPaid?
  {
    if a.ApplyDecision? {
      assert ProcessOk(s.core, s.procs[a.pid]);
      assert NextProcessor(s, a) == Some(t);
    } else {
      OnlyDecisionsProcess(s, a, t);
    }
  }

  /** Applying a losing decision leaves the capture set aside: by this process, or by one that was there before it. */
  lemma LosingCommitLoses(s: Sys, a: Action, t: Sys)
    requires Inv(s) && a.ApplyDecision? && Losing(s, a.pid) && Next(s, a) == Some(t)
    ensures !Accounted(t.core.db)
  {
    var e := s.procs[a.pid].event;
    assert t.core.db == MarkProcessed(s.core.db, e, s.procs[a.pid].seen);
    assert t.core.db.payments == s.core.db.payments;
    var p: nat :| p < |s.core.db.payments| && Matches(s.core.db, s.core.db.events[e].outcome, p) && !s.core.db.payments[p].status.Succeeded?;
    assert Matches(t.core.db, t.core.db.events[e].outcome, p);
    assert Silenced(t.core.db, e);
  }

  lemma MarkPaidSettles(c: Core, event: nat, p: nat, o: nat, rail: Option<PaymentMethod>, db: Db)
    requires DecisionOk(c, event, MarkPaid(p, o)) && ApplyMarkPaid(c.db, event, p, o, rail) == Some(db)
    ensures event < |db.events| && Matches(db, db.events[event].outcome, p) && db.payments[p].status.Succeeded?
  {
  }

  lemma SettledWhenPaid(s: Sys, a: Action, t: Sys, e: nat)
    requires Inv(s) && Inv(t) && Next(s, a) == Some(t) && a.ApplyDecision?
    requires a.pid in s.procs && s.procs[a.pid].Decided? && s.procs[a.pid].event == e && s.procs[a.pid].decision.MarkPaid?
    requires e < |s.core.db.events| && !s.core.db.events[e].processed && e < |t.core.db.events| && t.core.db.events[e].processed
    ensures !Unsettled(t.core.db, t.core.db.events[e].outcome)
  {
    var d := s.procs[a.pid].decision;
    assert ProcessOk(s.core, s.procs[a.pid]);
    assert t.core.db == s.core.db || ApplyMarkPaid(s.core.db, e, d.paymentId, d.orderId, a.rail) == Some(t.core.db);
    MarkPaidSettles(s.core, e, d.paymentId, d.orderId, a.rail, t.core.db);
    PaidIsSettled(t.core.db, t.core.db.events[e].outcome, d.paymentId);
  }

  lemma SettledWhenSkipped(s: Sys, a: Action, t: Sys, e: nat)
    requires Next(s, a) == Some(t) && a.ApplyDecision? && !Losing(s, a.pid)
    requires a.pid in s.procs && s.procs[a.pid].Decided? && s.procs[a.pid].event == e && s.procs[a.pid].decision.Skip?
    requires e < |s.core.db.events| && e < |t.core.db.events|
    ensures !Unsettled(t.core.db, t.core.db.events[e].outcome)
  {
    var before, after := s.core.db, t.core.db;
    assert after.payments == before.payments && after.events[e].outcome == before.events[e].outcome;
    assert forall p: nat :: p < |after.payments| && Matches(after, after.events[e].outcome, p) ==> Matches(before, before.events[e].outcome, p);
  }

  lemma PaidIsSettled(db: Db, outcome: GatewayOutcome, p: nat)
    requires UniqueIntents(db) && Matches(db, outcome, p) && db.payments[p].status.Succeeded?
    ensures !Unsettled(db, outcome)
  {
    forall q: nat | q < |db.payments| && Matches(db, outcome, q) ensures db.payments[q].status.Succeeded? {
      MatchIsUnique(db, outcome, p, q);
    }
  }

  lemma OldStaysAccounted(s: Sys, t: Sys, e: nat)
    requires Inv(s) && Inv(t) && Grows(s.core, t.core) && Accounted(s.core.db)
    requires e < |s.core.db.events| && s.core.db.events[e].processed && s.core.db.events[e].outcome.OutcomeSucceeded?
    ensures !Silenced(t.core.db, e)
  {
    assert SameEvent(s.core.db.events[e], t.core.db.events[e]);
    assert !Silenced(s.core.db, e);
    UnsettledIff(s.core, t.core, s.core.db.events[e].outcome);
  }

  lemma NewlySetAside(s: Sys, a: Action, t: Sys, e: nat)
    requires Inv(s) && Inv(t) && Grows(s.core, t.core) && Next(s, a) == Some(t) && !(a.ApplyDecision? && Losing(s, a.pid))
    requires e < |t.core.db.events| && t.core.db.events[e].processed && t.core.db.events[e].outcome.OutcomeSucceeded?
    requires e < |s.core.db.events| ==> !s.core.db.events[e].processed
    ensures !Silenced(t.core.db, e)
  {
    NewlyProcessed(s, a, t, e);
    if s.procs[a.pid].decision.Skip? {
      SettledWhenSkipped(s, a, t, e);
    } else {
      SettledWhenPaid(s, a, t, e);
    }
  }

  lemma NotNewlySilenced(s: Sys, a: Action, t: Sys, e: nat)
    requires Inv(s) && Inv(t) && Grows(s.core, t.core) && Next(s, a) == Some(t) && Accounted(s.core.db)
    requires !(a.ApplyDecision? && Losing(s, a.pid)) && e < |t.core.db.events|
    ensures !Silenced(t.core.db, e)
  {
    var success := t.core.db.events[e].processed && t.core.db.events[e].outcome.OutcomeSucceeded?;
    if success && e < |s.core.db.events| && s.core.db.events[e].processed {
      assert SameEvent(s.core.db.events[e], t.core.db.events[e]);
      OldStaysAccounted(s, t, e);
    } else if success {
      NewlySetAside(s, a, t, e);
    }
  }

  /** A step loses a capture exactly when it applies a losing decision. */
  lemma StepLosesIff(s: Sys, a: Action, t: Sys)
    requires Inv(s) && Next(s, a) == Some(t) && Accounted(s.core.db)
    ensures Accounted(t.core.db) <==> !(a.ApplyDecision? && Losing(s, a.pid))
  {
    StepKeeps(s, a, t);
    if a.ApplyDecision? && Losing(s, a.pid) {
      LosingCommitLoses(s, a, t);
    } else {
      forall e: nat | e < |t.core.db.events| ensures !Silenced(t.core.db, e) {
        NotNewlySilenced(s, a, t, e);
      }
    }
  }

  // ----- Whole runs -----

  /** At step `j` of the run, request `pid` read an order paid by another payment than the one its success is for. */
  ghost predicate LosingReadAt(actions: seq<Action>, j: nat, pid: nat) {
    && j < |actions| && ActsFor(actions[j], pid)
    && var before := Run(INITIAL, actions[..j]);
       before.Some? && FindsPaidByAnother(before.value, actions[j])
  }

  /** Such a read was the last thing the request did. */
  ghost predicate HoldsLosingRead(actions: seq<Action>, pid: nat) {
    exists j: nat :: LosingReadAt(actions, j, pid) && IdleAfter(actions, j, pid)
  }

  ghost predicate IdleAfter(actions: seq<Action>, j: nat, pid: nat) {
    forall i :: j < i < |actions| ==> !ActsFor(actions[i], pid)
  }

  /** At step `k` the run applies what such a read led to. */
  ghost predicate AppliesLosingRead(actions: seq<Action>, k: nat) {
    k < |actions| && actions[k].ApplyDecision? && HoldsLosingRead(actions[..k], actions[k].pid)
  }

  ghost predicate NeverAppliesLosingRead(actions: seq<Action>) {
    forall k: nat :: k < |actions| ==> !AppliesLosingRead(actions, k)
  }

  lemma LosingReadPrefix(actions: seq<Action>, n: nat, j: nat, pid: nat)
    requires j < n <= |actions|
    ensures LosingReadAt(actions[..n], j, pid) <==> LosingReadAt(actions, j, pid)
  {
    assert actions[..n][..j] == actions[..j];
  }

  lemma IdleOneMore(actions: seq<Action>, n: nat, j: nat, pid: nat)
    requires |actions| == n + 1 && j < n
    ensures IdleAfter(actions, j, pid) <==> IdleAfter(actions[..n], j, pid) && !ActsFor(actions[n], pid)
  {
    assert forall i :: 0 <= i < n ==> actions[..n][i] == actions[i];
  }

  lemma HoldsOneMore(actions: seq<Action>, n: nat, pid: nat)
    requires |actions| == n + 1
    ensures HoldsLosingRead(actions, pid) <==>
            LosingReadAt(actions, n, pid) || (HoldsLosingRead(actions[..n], pid) && !ActsFor(actions[n], pid))
  {
    forall j: nat | j < n
      ensures LosingReadAt(actions, j, pid) && IdleAfter(actions, j, pid) <==>
              LosingReadAt(actions[..n], j, pid) && IdleAfter(actions[..n], j, pid) && !ActsFor(actions[n], pid)
    {
      LosingReadPrefix(actions, n, j, pid);
      IdleOneMore(actions, n, j, pid);
    }
    assert IdleAfter(actions, n, pid);
    HoldsAtOrBefore(actions, n, pid);
    HoldsBefore(actions[..n], n, pid);
  }

  lemma HoldsAtOrBefore(actions: seq<Action>, n: nat, pid: nat)
    requires |actions| == n + 1 && IdleAfter(actions, n, pid)
    ensures HoldsLosingRead(actions, pid) <==>
            LosingReadAt(actions, n, pid) || exists j: nat :: j < n && LosingReadAt(actions, j, pid) && IdleAfter(actions, j, pid)
  {
  }

  lemma HoldsBefore(actions: seq<Action>, n: nat, pid: nat)
    requires |actions| == n
    ensures HoldsLosingRead(actions, pid) <==> exists j: nat :: j < n && LosingReadAt(actions, j, pid) && IdleAfter(actions, j, pid)
  {
  }

  /** Along any run, the requests about to lose a capture are exactly those whose last step was such a read. */
  lemma {:induction false} LosingIffRead(actions: seq<Action>, t: Sys, pid: nat)
    requires Run(INITIAL, actions) == Some(t)
    ensures Losing(t, pid) <==> HoldsLosingRead(actions, pid)
    decreases |actions|
  {
    if actions != [] {
      var n := |actions| - 1;
      var u, a := Run(INITIAL, actions[..n]).value, actions[n];
      LosingIffRead(actions[..n], u, pid);
      HoldsOneMore(actions, n, pid);
      RunIsReachable(actions[..n], u);
      ReachableInv(u);
      StepKeeps(u, a, t);
      LosingStep(u, a, t, pid);
    }
  }

  lemma LosingStep(s: Sys, a: Action, t: Sys, pid: nat)
    requires Inv(s) && Inv(t) && Grows(s.core, t.core) && Next(s, a) == Some(t)
    ensures Losing(t, pid) <==> if ActsFor(a, pid) then FindsPaidByAnother(s, a) else Losing(s, pid)
  {
    if !ActsFor(a, pid) {
      LosingCarries(s, a, t, pid);
    } else if a.ReadEventOrder? {
      ReadDecidesIff(s, a, t);
    } else {
      OwnStepDecidesNothing(s, a, t, pid);
    }
  }

  lemma NeverAppliesOneMore(actions: seq<Action>, n: nat)
    requires |actions| == n + 1
    ensures NeverAppliesLosingRead(actions) <==> NeverAppliesLosingRead(actions[..n]) && !AppliesLosingRead(actions, n)
  {
    forall k: nat | k < n ensures AppliesLosingRead(actions[..n], k) <==> AppliesLosingRead(actions, k) {
      assert actions[..n][..k] == actions[..k];
    }
  }

  /**
   Over whole runs: the books show every success the inbox set aside if and only
   if no decision was applied whose processor had read the order PAID while the
   payment its success names was not settled.
   */
  lemma {:induction false} AccountedIff(actions: seq<Action>, t: Sys)
    requires Run(INITIAL, actions) == Some(t)
    ensures Accounted(t.core.db) <==> NeverAppliesLosingRead(actions)
    decreases |actions|
  {
    if actions != [] {
      var n := |actions| - 1;
      var u, a := Run(INITIAL, actions[..n]).value, actions[n];
      AccountedIff(actions[..n], u);
      NeverAppliesOneMore(actions, n);
      RunIsReachable(actions[..n], u);
      ReachableInv(u);
      if a.ApplyDecision? {
        LosingIffRead(actions[..n], u, a.pid);
      }
      AccountedStep(u, a, t);
    }
  }

  lemma AccountedStep(s: Sys, a: Action, t: Sys)
    requires Inv(s) && Next(s, a) == Some(t)
    ensures Accounted(t.core.db) <==> Accounted(s.core.db) && !(a.ApplyDecision? && Losing(s, a.pid))
  {
    StepKeeps(s, a, t);
    if Accounted(s.core.db) {
      StepLosesIff(s, a, t);
    } else {
      var e: nat :| e < |s.core.db.events| && Silenced(s.core.db, e);
      SilencedForever(s, t, e);
    }
  }

  lemma RunIsReachable(actions: seq<Action>, u: Sys)
    requires Run(INITIAL, actions) == Some(u)
    ensures Reachable(u)
  {
  }

  // ----- A run that loses a capture -----

  lemma ReachableStep(u: Sys, a: Action, t: Sys)
    requires Reachable(u) && Next(u, a) == Some(t)
    ensures Reachable(t)
  {
    Then(INITIAL, u, a, t);
  }

  const LATTE: CatalogItem := CatalogItem("latte", "Latte", 100, true, [])
  const BASKET: seq<RequestedItem> := [RequestedItem("latte", 1, [], None)]

  lemma LatteCosts(catalog: Catalog)
    requires catalog == map["latte" := LATTE]
    ensures Accepts(BASKET, catalog) && Amount(BASKET, catalog) == 100
  {
    assert AttachedIn(LATTE.optionGroups) == map[];
    assert LineAccepted(BASKET[0], catalog);
    assert Deltas([], map[]) == 0;
    assert LineAmount(BASKET[0], catalog) == 100;
    SumOfSingle(BASKET[0], LineAmountIn(catalog));
  }

  ghost predicate Unpaid(o: Order) {
    o.status.PendingPayment? && Total(o) == 100 && o.currency == "THB"
  }

  function WithOrder(o: Order, payments: seq<Payment>, events: seq<Event>, gateway: Gateway, procs: map<nat, Process>): Sys {
    Sys(Core(Db([o], payments, [], events, map[1 := 1]), gateway), procs)
  }

  const QUOTE: OrderQuote := OrderQuote(0, 100, "THB")
  const BY_GATEWAY: Payment := Payment(0, Stripe, Some(0), None, PaymentStatus.Pending, 100, "THB", None)
  const BY_CASH: Payment := Payment(0, Cash, None, Some(CashInHand), PaymentStatus.Succeeded, 100, "THB", None)
  const SUCCESS: GatewayOutcome := OutcomeSucceeded(0, 100, "THB")

  lemma OneOrder() returns (o: Order)
    ensures Unpaid(o) && o.businessDay == 1 && Reachable(WithOrder(o, [], [], [], map[]))
  {
    var catalog := map["latte" := LATTE];
    LatteCosts(catalog);
    var request := OrderRequest(Staff(1), Counter, false, false, BASKET, None, catalog, 700, "THB", 1, 9, 600);
    var db := Tables.CreateOrder(EMPTY_DB, request).value;
    o := db.orders[0];
    assert db == Db([o], [], [], [], map[1 := 1]);
    assert Run(INITIAL, []) == Some(INITIAL);
    ReachableStep(INITIAL, CreateOrder(request), WithOrder(o, [], [], [], map[]));
  }

  /** A till reads the unpaid order, then that it has no live payment. */
  lemma TillReads(o: Order, pid: nat, procs: map<nat, Process>)
    requires Unpaid(o) && pid !in procs && Reachable(WithOrder(o, [], [], [], procs))
    ensures Reachable(WithOrder(o, [], [], [], procs[pid := Payable(QUOTE)]))
  {
    var s := WithOrder(o, [], [], [], procs);
    var loaded := WithOrder(o, [], [], [], procs[pid := SawPayable(QUOTE)]);
    ReachableStep(s, LoadOrder(pid, 0), loaded);
    TillChecks(o, pid, procs[pid := SawPayable(QUOTE)]);
    assert procs[pid := SawPayable(QUOTE)][pid := Payable(QUOTE)] == procs[pid := Payable(QUOTE)];
  }

  lemma TillChecks(o: Order, pid: nat, procs: map<nat, Process>)
    requires pid in procs && procs[pid] == SawPayable(QUOTE) && Reachable(WithOrder(o, [], [], [], procs))
    ensures Reachable(WithOrder(o, [], [], [], procs[pid := Payable(QUOTE)]))
  {
    var s := WithOrder(o, [], [], [], procs);
    ReachableStep(s, CheckLive(pid), WithOrder(o, [], [], [], procs[pid := Payable(QUOTE)]));
  }

  const OPEN: Intent := Intent(100, "THB", IntentOpen)
  const TAKEN: Intent := Intent(100, "THB", IntentSucceeded(100))

  /** One till opens a gateway payment. */
  lemma GatewayOpens(o: Order)
    requires Unpaid(o) && Reachable(WithOrder(o, [], [], [], map[1 := Payable(QUOTE), 2 := Payable(QUOTE)]))
    ensures Reachable(WithOrder(o, [BY_GATEWAY], [], [OPEN], map[2 := Payable(QUOTE)]))
  {
    var s := WithOrder(o, [], [], [], map[1 := Payable(QUOTE), 2 := Payable(QUOTE)]);
    var asked := WithOrder(o, [], [], [OPEN], map[1 := IntentOpened(QUOTE, 0), 2 := Payable(QUOTE)]);
    assert s.core.gateway + [OPEN] == [OPEN];
    assert s.procs[1 := IntentOpened(QUOTE, 0)] == asked.procs;
    ReachableStep(s, OpenIntent(1, None), asked);
    GatewayCommits(o, asked);
  }

  lemma GatewayCommits(o: Order, asked: Sys)
    requires Unpaid(o) && Reachable(asked)
    requires asked == WithOrder(o, [], [], [OPEN], map[1 := IntentOpened(QUOTE, 0), 2 := Payable(QUOTE)])
    ensures Reachable(WithOrder(o, [BY_GATEWAY], [], [OPEN], map[2 := Payable(QUOTE)]))
  {
    var t := WithOrder(o, [BY_GATEWAY], [], [OPEN], map[2 := Payable(QUOTE)]);
    assert asked.core.db.payments + [BY_GATEWAY] == [BY_GATEWAY];
    assert OpenGatewayPayment(asked.core.db, 0, 100, "THB", 0, None) == Some(t.core.db);
    assert asked.procs - {1} == t.procs;
    ReachableStep(asked, CommitGateway(1, None), t);
  }

  /** The other till, its reads now stale, takes cash: the order is PAID. */
  lemma CashCommits(o: Order) returns (paid: Order)
    requires Unpaid(o) && Reachable(WithOrder(o, [BY_GATEWAY], [], [OPEN], map[2 := Payable(QUOTE)]))
    ensures paid.status.Paid? && Reachable(WithOrder(paid, [BY_GATEWAY, BY_CASH], [], [OPEN], map[]))
  {
    var s := WithOrder(o, [BY_GATEWAY], [], [OPEN], map[2 := Payable(QUOTE)]);
    var db := TakeCash(s.core.db, 0, 100, "THB", None).value;
    paid := db.orders[0];
    var t := WithOrder(paid, [BY_GATEWAY, BY_CASH], [], [OPEN], map[]);
    assert db == t.core.db;
    assert s.procs - {2} == t.procs;
    ReachableStep(s, CommitCash(2, 100, None), t);
  }

  /** The customer completes the gateway payment as well. */
  lemma GatewayCaptures(paid: Order)
    requires Reachable(WithOrder(paid, [BY_GATEWAY, BY_CASH], [], [OPEN], map[]))
    ensures Reachable(WithOrder(paid, [BY_GATEWAY, BY_CASH], [], [TAKEN], map[]))
  {
    var s := WithOrder(paid, [BY_GATEWAY, BY_CASH], [], [OPEN], map[]);
    assert SetIntent(s.core.gateway, 0, IntentSucceeded(100)) == [TAKEN];
    ReachableStep(s, Capture(0, 100), WithOrder(paid, [BY_GATEWAY, BY_CASH], [], [TAKEN], map[]));
  }

  function Stored(processed: bool): Event {
    Event("evt_1", SUCCESS, if processed then Some(0) else None, processed)
  }

  lemma SuccessDelivered(paid: Order)
    requires Reachable(WithOrder(paid, [BY_GATEWAY, BY_CASH], [], [TAKEN], map[]))
    ensures Reachable(WithOrder(paid, [BY_GATEWAY, BY_CASH], [Stored(false)], [TAKEN], map[]))
  {
    var s := WithOrder(paid, [BY_GATEWAY, BY_CASH], [], [TAKEN], map[]);
    assert s.core.db.events + [Stored(false)] == [Stored(false)];
    ReachableStep(s, Deliver("evt_1", SUCCESS), WithOrder(paid, [BY_GATEWAY, BY_CASH], [Stored(false)], [TAKEN], map[]));
  }

  function AtInbox(paid: Order, procs: map<nat, Process>): Sys {
    WithOrder(paid, [BY_GATEWAY, BY_CASH], [Stored(false)], [TAKEN], procs)
  }

  const RECORD: PaymentRecord := PaymentRecord(0, 0, 100, "THB", PaymentStatus.Pending)

  lemma ProcessorReadsEvent(paid: Order)
    requires Reachable(AtInbox(paid, map[]))
    ensures Reachable(AtInbox(paid, map[3 := SawEvent(0, SUCCESS)]))
  {
    ReachableStep(AtInbox(paid, map[]), ReadEvent(3, 0), AtInbox(paid, map[3 := SawEvent(0, SUCCESS)]));
  }

  lemma ProcessorReadsPayment(paid: Order)
    requires Reachable(AtInbox(paid, map[3 := SawEvent(0, SUCCESS)]))
    ensures Reachable(AtInbox(paid, map[3 := SawEventPayment(0, SUCCESS, Some(RECORD))]))
  {
    var s, t := AtInbox(paid, map[3 := SawEvent(0, SUCCESS)]), AtInbox(paid, map[3 := SawEventPayment(0, SUCCESS, Some(RECORD))]);
    ReadsGatewayPayment(s.core.db);
    assert s.procs[3 := SawEventPayment(0, SUCCESS, Some(RECORD))] == t.procs;
    ReachableStep(s, ReadEventPayment(3), t);
  }

  /** The processor finds the order PAID and decides to skip. */
  lemma ProcessorDecides(paid: Order)
    requires paid.status.Paid? && Reachable(AtInbox(paid, map[3 := SawEventPayment(0, SUCCESS, Some(RECORD))]))
    ensures Reachable(AtInbox(paid, map[3 := Decided(0, Skip, Some(0))]))
  {
    var s, t := AtInbox(paid, map[3 := SawEventPayment(0, SUCCESS, Some(RECORD))]), AtInbox(paid, map[3 := Decided(0, Skip, Some(0))]);
    assert s.procs[3 := Decided(0, Skip, Some(0))] == t.procs;
    ReachableStep(s, ReadEventOrder(3), t);
  }

  lemma ReadsGatewayPayment(db: Db)
    requires db.payments == [BY_GATEWAY, BY_CASH]
    ensures ReadPaymentFor(db, SUCCESS) == Some(PaymentRecord(0, 0, 100, "THB", PaymentStatus.Pending))
  {
    assert db.payments[..1] == [BY_GATEWAY];
    assert PaymentOfIntentFrom([BY_GATEWAY], 0) == Some(0);
    assert PaymentOfIntentFrom(db.payments, 0) == Some(0);
  }

  /**
   Two tills race: one opens a gateway payment after the other read that there was
   none, then the other takes cash. The customer also completes the gateway
   payment, and its success is set aside because the order is PAID already.
   */
  lemma CaptureCanVanish() returns (t: Sys)
    ensures Reachable(t)
    ensures Silenced(t.core.db, 0)
    ensures Captured(t.core.gateway, 0, 100, "THB")
    ensures SettlementsOf(t.core.db, 0) == {1} && t.core.db.payments[1].provider.Cash?
  {
    var o := OneOrder();
    TillReads(o, 1, map[]);
    TillReads(o, 2, map[1 := Payable(QUOTE)]);
    assert map[1 := Payable(QUOTE)][2 := Payable(QUOTE)] == map[1 := Payable(QUOTE), 2 := Payable(QUOTE)];
    GatewayOpens(o);
    var paid := CashCommits(o);
    GatewayCaptures(paid);
    SuccessDelivered(paid);
    ProcessorReadsEvent(paid);
    ProcessorReadsPayment(paid);
    ProcessorDecides(paid);
    t := SkipCommitted(paid);
  }

  lemma SkipCommitted(paid: Order) returns (t: Sys)
    requires Reachable(WithOrder(paid, [BY_GATEWAY, BY_CASH], [Stored(false)], [TAKEN], map[3 := Decided(0, Skip, Some(0))]))
    ensures Reachable(t) && Silenced(t.core.db, 0) && Captured(t.core.gateway, 0, 100, "THB")
    ensures SettlementsOf(t.core.db, 0) == {1} && t.core.db.payments[1].provider.Cash?
  {
    var s := WithOrder(paid, [BY_GATEWAY, BY_CASH], [Stored(false)], [TAKEN], map[3 := Decided(0, Skip, Some(0))]);
    t := WithOrder(paid, [BY_GATEWAY, BY_CASH], [Stored(true)], [TAKEN], map[]);
    assert s.procs - {3} == t.procs;
    assert s.core.db.events[0 := Stored(true)] == [Stored(true)];
    ReachableStep(s, ApplyDecision(3, None), t);
    assert Matches(t.core.db, t.core.db.events[0].outcome, 0);
  }
}

/** The payment table's captures held against the gateway's own record of them. */
module Reconciliation {
  import opened Wrappers
  import opened Sums
  import opened Queries
  import opened PaymentDecision
  import opened Tables
  import opened Protocol
  import opened Invariants
  import opened Theorems

  datatype CapturedTotal = CapturedTotal(totalMinor: int, notCaptured: seq<nat>)

  datatype Report = Report(businessDay: int, gatewayCapturedMinor: int, dbRecordedMinor: int, deltaMinor: int,
                           unmatchedEvents: seq<string>, notCaptured: seq<nat>)

  /** A gateway payment of the day that the books call captured. */
  predicate Recorded(db: Db, day: int, p: nat) {
    && p < |db.payments|
    && db.payments[p].orderId < |db.orders|
    && db.orders[db.payments[p].orderId].businessDay == day
    && db.payments[p].provider.Stripe?
    && db.payments[p].status.Succeeded?
  }

  function RecordedOn(db: Db, day: int): nat -> bool {
    (p: nat) => Recorded(db, day, p)
  }

  function AmountIn(db: Db): nat -> int {
    (p: nat) => if p < |db.payments| then db.payments[p].amountMinor else 0
  }

  function RecordedPayments(db: Db, day: int): seq<nat> {
    Select(|db.payments|, RecordedOn(db, day))
  }

  /** The intents behind the given payments; a payment without one contributes none. */
  function IntentsOf(db: Db, ids: seq<nat>): seq<nat> {
    if ids == [] then [] else
      var p := ids[|ids| - 1];
      IntentsOf(db, ids[..|ids| - 1])
      + if p < |db.payments| && db.payments[p].intentId.Some? then [db.payments[p].intentId.value] else []
  }

  function Received(answer: Intent): int {
    if answer.state.IntentSucceeded? then answer.state.receivedMinor else 0
  }

  function ReceivedOf(): Intent -> int {
    (answer: Intent) => Received(answer)
  }

  /** The intents the gateway says it did not capture. */
  function Uncaptured(intentIds: seq<nat>, answers: seq<Intent>): seq<nat>
    requires |intentIds| == |answers|
  {
    if answers == [] then [] else
      var last := |answers| - 1;
      Uncaptured(intentIds[..last], answers[..last])
      + if answers[last].state.IntentSucceeded? then [] else [intentIds[last]]
  }

  /**
   Asks the gateway about each intent in turn. One unanswered question fails the
   whole comparison: "could not check" is never reported as a number.
   */
  method CapturedTotalFor(intentIds: seq<nat>, answers: seq<Option<Intent>>) returns (r: Option<CapturedTotal>)
    requires |answers| == |intentIds|
    ensures r.Some? <==> forall i :: 0 <= i < |answers| ==> answers[i].Some?
    ensures r.Some? ==>
              && r.value.totalMinor == SumOf(Answers(answers), ReceivedOf())
              && r.value.notCaptured == Uncaptured(intentIds, Answers(answers))
  {
    var totalMinor, notCaptured := 0, [];
    for i := 0 to |intentIds|
      invariant forall j :: 0 <= j < i ==> answers[j].Some?
      invariant totalMinor == SumOf(Answers(answers[..i]), ReceivedOf())
      invariant notCaptured == Uncaptured(intentIds[..i], Answers(answers[..i]))
    {
      if answers[i].None? {
        return None;
      }
      var intent := answers[i].value;
      assert answers[..i + 1][..i] == answers[..i];
      assert Answers(answers[..i + 1])[..i] == Answers(answers[..i]);
      assert intentIds[..i + 1][..i] == intentIds[..i];
      if intent.state.IntentSucceeded? {
        totalMinor := totalMinor + intent.state.receivedMinor;
      } else {
        notCaptured := notCaptured + [intentIds[i]];
      }
    }
    assert answers[..|intentIds|] == answers && intentIds[..|intentIds|] == intentIds;
    r := Some(CapturedTotal(totalMinor, notCaptured));
  }

  function Answers(answers: seq<Option<Intent>>): (r: seq<Intent>)
    requires forall i :: 0 <= i < |answers| ==> answers[i].Some?
  {
    seq(|answers|, i requires 0 <= i < |answers| => answers[i].value)
  }

  function EventIds(db: Db, ids: seq<nat>): seq<string> {
    if ids == [] then [] else
      var e := ids[|ids| - 1];
      EventIds(db, ids[..|ids| - 1]) + if e < |db.events| then [db.events[e].providerEventId] else []
  }

  /** The books side of a day's comparison and the gateway's answers, put together. */
  method Reconcile(db: Db, later: Db, businessDay: int, answers: seq<Option<Intent>>) returns (r: Option<Report>)
    requires |answers| == |IntentsOf(db, RecordedPayments(db, businessDay))|
    ensures r.Some? <==> forall i :: 0 <= i < |answers| ==> answers[i].Some?
    ensures r.Some? ==> r.value == ReportOf(db, later, businessDay, Answers(answers))
    ensures r.Some? ==> r.value.deltaMinor == r.value.gatewayCapturedMinor - r.value.dbRecordedMinor
  {
    var recorded := RecordedPayments(db, businessDay);
    var dbRecordedMinor := SumOf(recorded, AmountIn(db));
    var captured := CapturedTotalFor(IntentsOf(db, recorded), answers);
    if captured.None? {
      return None;
    }
    var unmatched := EventIds(later, Select(|later.events|, UnprocessedIn(later)));
    r := Some(Report(businessDay, captured.value.totalMinor, dbRecordedMinor,
                     captured.value.totalMinor - dbRecordedMinor, unmatched, captured.value.notCaptured));
  }

  function ReportOf(db: Db, later: Db, day: int, answers: seq<Intent>): Report
    requires |answers| == |IntentsOf(db, RecordedPayments(db, day))|
  {
    var recorded := RecordedPayments(db, day);
    var captured, books := SumOf(answers, ReceivedOf()), SumOf(recorded, AmountIn(db));
    Report(day, captured, books, captured - books,
           EventIds(later, Select(|later.events|, UnprocessedIn(later))), Uncaptured(IntentsOf(db, recorded), answers))
  }

  // ----- What a report says, whatever the gateway answered -----

  /** A gateway payment of the day that settled. */
  ghost predicate PicksGatewaySales(db: Db, day: int, where: nat -> bool) {
    forall p: nat :: p < |db.payments| ==>
      (where(p) <==> db.payments[p].provider == Stripe && db.payments[p].status == PaymentStatus.Succeeded
                     && db.payments[p].orderId < |db.orders| && db.orders[db.payments[p].orderId].businessDay == day)
  }

  ghost predicate ReadsReceived(column: Intent -> int) {
    forall i: Intent :: column(i) == match i.state case IntentSucceeded(received) => received case IntentOpen => 0 case IntentCancelled => 0
  }

  /** The books are the day's settled gateway payments, the gateway's side is what it says it received, and the delta is the one less the other. */
  lemma ReportSays(db: Db, later: Db, day: int, answers: seq<Intent>, where: nat -> bool, amount: nat -> int, received: Intent -> int)
    requires |answers| == |IntentsOf(db, RecordedPayments(db, day))|
    requires PicksGatewaySales(db, day, where) && (forall p: nat :: p < |db.payments| ==> amount(p) == db.payments[p].amountMinor) && ReadsReceived(received)
    ensures var r := ReportOf(db, later, day, answers);
            && r.businessDay == day
            && r.dbRecordedMinor == SumOf(Select(|db.payments|, where), amount)
            && r.gatewayCapturedMinor == SumOf(answers, received)
            && r.deltaMinor == r.gatewayCapturedMinor - r.dbRecordedMinor
  {
    SelectSame(|db.payments|, RecordedOn(db, day), where);
    SelectIs(|db.payments|, where);
    SumCongruent(Select(|db.payments|, where), AmountIn(db), amount);
    SumCongruent(answers, ReceivedOf(), received);
  }

  /** One intent is asked about for each of those payments, its own. */
  lemma IntentsAsked(c: Core, day: int, k: nat)
    requires CoreInv(c)
    ensures var ids, intents := RecordedPayments(c.db, day), IntentsOf(c.db, RecordedPayments(c.db, day));
            |intents| == |ids| && (k < |ids| ==> ids[k] < |c.db.payments| && c.db.payments[ids[k]].intentId == Some(intents[k]))
  {
    var db, ids := c.db, RecordedPayments(c.db, day);
    SelectIs(|db.payments|, RecordedOn(db, day));
    forall i | 0 <= i < |ids| ensures HasIntent(db, ids[i]) {
      assert Recorded(db, day, ids[i]);
      assert PaymentRowOk(db, c.gateway, db.payments[ids[i]]);
    }
    IntentsIndexed(db, ids);
  }

  lemma {:induction false} UncapturedAre(intentIds: seq<nat>, answers: seq<Intent>, i: nat)
    requires |intentIds| == |answers|
    ensures i in Uncaptured(intentIds, answers) <==> exists k :: 0 <= k < |answers| && intentIds[k] == i && !answers[k].state.IntentSucceeded?
  {
    if answers != [] {
      var n := |answers| - 1;
      UncapturedAre(intentIds[..n], answers[..n], i);
      assert forall k :: 0 <= k < n ==> intentIds[..n][k] == intentIds[k] && answers[..n][k] == answers[k];
    }
  }

  /** An intent is listed as not captured if and only if its own answer is not a capture. */
  lemma NotCapturedIff(s: Sys, later: Db, day: int, answers: seq<Intent>, k: nat)
    requires Reachable(s) && |answers| == |IntentsOf(s.core.db, RecordedPayments(s.core.db, day))| && k < |answers|
    ensures IntentsOf(s.core.db, RecordedPayments(s.core.db, day))[k] in ReportOf(s.core.db, later, day, answers).notCaptured
            <==> !answers[k].state.IntentSucceeded?
  {
    var intents := IntentsOf(s.core.db, RecordedPayments(s.core.db, day));
    IntentsAskedOnce(s, day);
    UncapturedAre(intents, answers, intents[k]);
  }

  lemma {:induction false} EventIdsAre(db: Db, ids: seq<nat>, id: string)
    requires forall i :: 0 <= i < |ids| ==> ids[i] < |db.events|
    ensures |EventIds(db, ids)| == |ids|
    ensures id in EventIds(db, ids) <==> exists i :: 0 <= i < |ids| && db.events[ids[i]].providerEventId == id
  {
    if ids != [] {
      var n := |ids| - 1;
      EventIdsAre(db, ids[..n], id);
      assert forall i :: 0 <= i < n ==> ids[..n][i] == ids[i];
    }
  }

  /** The events listed are those still waiting when they were looked for, each once. */
  lemma UnmatchedAre(db: Db, later: Db, day: int, answers: seq<Intent>, waiting: nat -> bool, id: string)
    requires |answers| == |IntentsOf(db, RecordedPayments(db, day))| && forall e: nat :: e < |later.events| ==> (waiting(e) <==> !later.events[e].processed)
    ensures var unmatched := ReportOf(db, later, day, answers).unmatchedEvents;
            && |unmatched| == |Select(|later.events|, waiting)|
            && (id in unmatched <==> exists e :: 0 <= e < |later.events| && !later.events[e].processed && later.events[e].providerEventId == id)
  {
    var ids := Select(|later.events|, UnprocessedIn(later));
    SelectSame(|later.events|, UnprocessedIn(later), waiting);
    SelectIs(|later.events|, UnprocessedIn(later));
    EventIdsAre(later, ids, id);
    if e :| 0 <= e < |later.events| && !later.events[e].processed && later.events[e].providerEventId == id {
      assert UnprocessedIn(later)(e) && e in ids;
      var i :| 0 <= i < |ids| && ids[i] == e;
    }
  }

  lemma {:induction false} OneDiffers(db: Db, ids: seq<nat>, answers: seq<Intent>, k: nat)
    requires |answers| == |ids| && k < |ids| && forall i :: 0 <= i < |ids| ==> ids[i] < |db.payments|
    requires forall i :: 0 <= i < |ids| && i != k ==> answers[i].state == IntentSucceeded(db.payments[ids[i]].amountMinor)
    ensures SumOf(answers, ReceivedOf()) - SumOf(ids, AmountIn(db)) == Received(answers[k]) - db.payments[ids[k]].amountMinor
    decreases |ids|
  {
    var n := |ids| - 1;
    if k < n {
      OneDiffers(db, ids[..n], answers[..n], k);
    } else {
      AllAgree(db, ids[..n], answers[..n]);
    }
  }

  lemma {:induction false} AllAgree(db: Db, ids: seq<nat>, answers: seq<Intent>)
    requires |answers| == |ids| && forall i :: 0 <= i < |ids| ==> ids[i] < |db.payments| && answers[i].state == IntentSucceeded(db.payments[ids[i]].amountMinor)
    ensures SumOf(answers, ReceivedOf()) == SumOf(ids, AmountIn(db))
  {
    if ids != [] {
      AllAgree(db, ids[..|ids| - 1], answers[..|ids| - 1]);
    }
  }

  /**
   A single disagreement is the delta: with every other intent captured for its
   row's amount, the alarm rings exactly when this one's received amount is not its
   row's, and an intent the gateway never captured is missed by all of it.
   */
  lemma DisagreementShows(c: Core, later: Db, day: int, answers: seq<Intent>, k: nat)
    requires CoreInv(c) && |answers| == |RecordedPayments(c.db, day)| && |answers| == |IntentsOf(c.db, RecordedPayments(c.db, day))| && k < |answers|
    requires forall i :: 0 <= i < |answers| && i != k && RecordedPayments(c.db, day)[i] < |c.db.payments| ==>
               answers[i].state == IntentSucceeded(c.db.payments[RecordedPayments(c.db, day)[i]].amountMinor)
    ensures var p, r := RecordedPayments(c.db, day)[k], ReportOf(c.db, later, day, answers);
            && p < |c.db.payments|
            && (r.deltaMinor != 0 <==> answers[k].state != IntentSucceeded(c.db.payments[p].amountMinor))
            && (!answers[k].state.IntentSucceeded? ==> r.deltaMinor == -c.db.payments[p].amountMinor < 0)
  {
    var ids := RecordedPayments(c.db, day);
    SelectIs(|c.db.payments|, RecordedOn(c.db, day));
    OneDiffers(c.db, ids, answers, k);
    assert PaymentRowOk(c.db, c.gateway, c.db.payments[ids[k]]);
  }

  // ----- The comparison comes out even -----

  /** Every answer is what the gateway says of that intent at some time after the books were read. */
  ghost predicate AnsweredLater(s: Sys, intentIds: seq<nat>, answers: seq<Intent>, times: seq<Sys>)
  {
    && |answers| == |intentIds| == |times|
    && forall i :: 0 <= i < |answers| ==>
         Reaches(s, times[i]) && intentIds[i] < |times[i].core.gateway| && answers[i] == times[i].core.gateway[intentIds[i]]
  }

  /**
   Against a truthful gateway, reconciling any business day in any reachable state
   gives delta zero and nothing uncaptured, however long the gateway takes over
   each answer and whatever happens in between.
   */
  lemma DeltaIsZero(s: Sys, later: Db, day: int, answers: seq<Intent>, times: seq<Sys>)
    requires Reachable(s)
    requires AnsweredLater(s, IntentsOf(s.core.db, RecordedPayments(s.core.db, day)), answers, times)
    ensures var r := ReportOf(s.core.db, later, day, answers);
            r.deltaMinor == 0 && r.notCaptured == []
  {
    ReachableInv(s);
    var db, ids := s.core.db, RecordedPayments(s.core.db, day);
    SelectIs(|db.payments|, RecordedOn(db, day));
    forall i | 0 <= i < |ids| ensures HasIntent(db, ids[i]) {
      assert Recorded(db, day, ids[i]);
      assert PaymentRowOk(db, s.core.gateway, db.payments[ids[i]]);
    }
    IntentsIndexed(db, ids);
    forall i | 0 <= i < |ids| ensures answers[i].state == IntentSucceeded(db.payments[ids[i]].amountMinor) {
      assert Recorded(db, day, ids[i]);
      CapturedStays(s, times[i], ids[i]);
    }
    AnswersMatch(db, ids, answers);
  }

  ghost predicate HasIntent(db: Db, p: nat) {
    p < |db.payments| && db.payments[p].intentId.Some?
  }

  lemma {:induction false} IntentsIndexed(db: Db, ids: seq<nat>)
    requires forall i :: 0 <= i < |ids| ==> HasIntent(db, ids[i])
    ensures |IntentsOf(db, ids)| == |ids|
    ensures forall i :: 0 <= i < |ids| ==> HasIntent(db, ids[i]) && IntentsOf(db, ids)[i] == db.payments[ids[i]].intentId.value
  {
    if ids != [] {
      IntentsIndexed(db, ids[..|ids| - 1]);
    }
  }

  lemma {:induction false} AnswersMatch(db: Db, ids: seq<nat>, answers: seq<Intent>)
    requires forall i :: 0 <= i < |ids| ==> HasIntent(db, ids[i])
    requires |answers| == |ids| && |IntentsOf(db, ids)| == |ids|
    requires forall i :: 0 <= i < |ids| ==> HasIntent(db, ids[i]) && answers[i].state == IntentSucceeded(db.payments[ids[i]].amountMinor)
    ensures SumOf(answers, ReceivedOf()) == SumOf(ids, AmountIn(db))
    ensures Uncaptured(IntentsOf(db, ids), answers) == []
    decreases |ids|
  {
    if ids != [] {
      var n := |ids| - 1;
      assert HasIntent(db, ids[n]);
      assert IntentsOf(db, ids)[..n] == IntentsOf(db, ids[..n]);
      AnswersMatch(db, ids[..n], answers[..n]);
    }
  }

  lemma CapturedStays(s: Sys, t: Sys, p: nat)
    requires Inv(s) && Reaches(s, t) && p < |s.core.db.payments| && s.core.db.payments[p].status.Succeeded? && s.core.db.payments[p].intentId.Some?
    ensures var i := s.core.db.payments[p].intentId.value;
            i < |t.core.gateway| && t.core.gateway[i].state == IntentSucceeded(s.core.db.payments[p].amountMinor)
  {
    ReachesKeeps(s, t);
    var i := s.core.db.payments[p].intentId.value;
    assert PaymentRowOk(s.core.db, s.core.gateway, s.core.db.payments[p]);
    assert SameIntent(s.core.gateway[i], t.core.gateway[i]);
  }

  /** No capture is counted twice: the intents asked about are distinct. */
  lemma IntentsAskedOnce(s: Sys, day: int)
    requires Reachable(s)
    ensures Unique(IntentsOf(s.core.db, RecordedPayments(s.core.db, day)))
  {
    ReachableInv(s);
    SelectIs(|s.core.db.payments|, RecordedOn(s.core.db, day));
    DistinctIntents(s.core, RecordedPayments(s.core.db, day));
  }

  lemma {:induction false} DistinctIntents(c: Core, ids: seq<nat>)
    requires CoreInv(c) && Unique(ids)
    ensures Unique(IntentsOf(c.db, ids))
    ensures forall i :: i in IntentsOf(c.db, ids) ==> exists p: nat :: p in ids && p < |c.db.payments| && c.db.payments[p].intentId == Some(i)
  {
    if ids != [] {
      var init, last := ids[..|ids| - 1], ids[|ids| - 1];
      assert ids == init + [last];
      DistinctIntents(c, init);
      if last < |c.db.payments| && c.db.payments[last].intentId.Some? {
        var i := c.db.payments[last].intentId.value;
        forall p: nat | p in init && p < |c.db.payments| ensures c.db.payments[p].intentId != Some(i) {
          assert p != last;
        }
      }
    }
  }
}

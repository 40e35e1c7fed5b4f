/** Money is conserved from the basket to every report, in every reachable state. */
module ReportTheorems {
  import opened Wrappers
  import opened Pricing
  import opened Sums
  import opened Queries
  import opened Tables
  import opened Protocol
  import opened Invariants
  import opened Theorems
  import opened Reconciliation
  import opened DayAggregate
  import opened RollupRow
  import opened Reports
  import Preservation

  // ----- Payments and orders that settled on a day correspond -----

  function OrderIds(db: Db, ids: seq<nat>): (r: seq<nat>)
    requires forall i :: 0 <= i < |ids| ==> ids[i] < |db.payments|
  {
    seq(|ids|, i requires 0 <= i < |ids| => db.payments[ids[i]].orderId)
  }

  lemma PaidOrdersDistinct(c: Core, day: int)
    requires CoreInv(c)
    ensures forall i :: 0 <= i < |PaidPayments(c.db, day)| ==> PaidRow(c.db, PaidPayments(c.db, day)[i], day)
    ensures var ids := OrderIds(c.db, PaidPayments(c.db, day)); forall i, j :: 0 <= i < j < |ids| ==> ids[i] != ids[j]
  {
    var db, paid := c.db, PaidPayments(c.db, day);
    SelectIs(|db.payments|, PaidOn(db, day));
    var ids := OrderIds(db, paid);
    forall i, j | 0 <= i < j < |ids| ensures ids[i] != ids[j] {
      assert PaidRow(db, paid[i], day) && PaidRow(db, paid[j], day);
      assert paid[i] != paid[j];
      assert Settles(db, paid[i], ids[i]) && Settles(db, paid[j], ids[j]);
    }
  }

  lemma PaidOrdersAreSettled(c: Core, day: int, o: nat)
    requires CoreInv(c)
    ensures forall i :: 0 <= i < |PaidPayments(c.db, day)| ==> PaidRow(c.db, PaidPayments(c.db, day)[i], day)
    ensures o in OrderIds(c.db, PaidPayments(c.db, day)) <==> o in SettledOrders(c.db, day)
  {
    var db, paid, settled := c.db, PaidPayments(c.db, day), SettledOrders(c.db, day);
    SelectIs(|db.payments|, PaidOn(db, day));
    SelectIs(|db.orders|, SettledOn(db, day));
    var ids := OrderIds(db, paid);
    if o in ids {
      var i :| 0 <= i < |ids| && ids[i] == o;
      assert PaidRow(db, paid[i], day);
      assert SettledOn(db, day)(o);
    }
    if o in settled {
      assert SettledOn(db, day)(o);
      var p :| 0 <= p < |db.payments| && db.payments[p].orderId == o && db.payments[p].status.Succeeded?;
      assert PaidOn(db, day)(p);
      assert p in paid;
      var i :| 0 <= i < |paid| && paid[i] == p;
      assert ids[i] == o;
    }
  }

  lemma SettledOnce(c: Core, day: int)
    requires CoreInv(c)
    ensures forall i :: 0 <= i < |PaidPayments(c.db, day)| ==> PaidRow(c.db, PaidPayments(c.db, day)[i], day)
    ensures multiset(OrderIds(c.db, PaidPayments(c.db, day))) == multiset(SettledOrders(c.db, day))
  {
    PaidOrdersDistinct(c, day);
    var ids, settled := OrderIds(c.db, PaidPayments(c.db, day)), SettledOrders(c.db, day);
    SelectIs(|c.db.orders|, SettledOn(c.db, day));
    forall o ensures o in ids <==> o in settled {
      PaidOrdersAreSettled(c, day, o);
    }
    SameElementsPermute(ids, settled);
  }

  /** What was paid is what was ordered: the day's revenue, counted by payment or by order. */
  lemma RevenueIsTotals(c: Core, day: int)
    requires CoreInv(c)
    ensures SumOf(PaidPayments(c.db, day), AmountIn(c.db)) == SumOf(SettledOrders(c.db, day), TotalIn(c.db))
    ensures |PaidPayments(c.db, day)| == |SettledOrders(c.db, day)|
  {
    SettledOnce(c, day);
    var db, paid := c.db, PaidPayments(c.db, day);
    var ids := OrderIds(db, paid);
    SumPermutes(ids, SettledOrders(db, day), TotalIn(db));
    assert |multiset(ids)| == |ids|;
    forall i | 0 <= i < |ids| ensures AmountIn(db)(paid[i]) == TotalIn(db)(ids[i]) {
      assert PaidRow(db, paid[i], day);
      assert PaymentRowOk(db, c.gateway, db.payments[paid[i]]);
    }
    SumZip(paid, ids, AmountIn(db), TotalIn(db));
  }

  // ----- Lines add up to orders -----

  lemma {:induction false} LinesAddUp(db: Db, ids: seq<nat>)
    requires OrdersOk(db) && forall i :: 0 <= i < |ids| ==> ids[i] < |db.orders|
    ensures SumOf(LinesOf(db, ids), LineTotal()) == SumOf(ids, TotalIn(db))
  {
    if ids != [] {
      var init, o := ids[..|ids| - 1], ids[|ids| - 1];
      LinesAddUp(db, init);
      assert OrderRowOk(db.orders[o]);
      SumOfConcat(LinesOf(db, init), db.orders[o].priced.lines, LineTotal());
    }
  }

  lemma ItemsAddUp(lines: seq<PricedLine>, items: seq<RollupItem>)
    requires ItemsAre(lines, items)
    ensures SumOf(items, ItemRevenue()) == SumOf(lines, LineTotal())
  {
    var groups := Seconds(GroupsOf(items));
    GroupsAddUp(lines, ItemKey(), LineTotal(), groups, Any());
    SumZip(items, groups, ItemRevenue(), InClass(Any()));
    SumCongruent(lines, RowInClass(ItemKey(), LineTotal(), Any()), LineTotal());
  }

  // ----- Refunds stay within revenue -----

  function RefundedIn(refunds: seq<Refund>): nat -> int {
    (p: nat) => RefundedOf(refunds, p)
  }

  lemma {:induction false} OneMoreRefund(ids: seq<nat>, refunds: seq<Refund>, r: Refund)
    requires Unique(ids)
    ensures SumOf(ids, RefundedIn(refunds + [r])) == SumOf(ids, RefundedIn(refunds)) + if r.paymentId in ids then r.amountMinor else 0
  {
    if ids != [] {
      var init, last := ids[..|ids| - 1], ids[|ids| - 1];
      assert ids == init + [last];
      OneMoreRefund(init, refunds, r);
      Preservation.RefundAppended(refunds, r, last);
      assert last !in init;
    }
  }

  /** The refund counts towards the day exactly when its payment settled on it. */
  lemma RefundDay(c: Core, day: int, r: nat)
    requires CoreInv(c) && r < |c.db.refunds|
    ensures RefundedOn(c.db, day)(r) <==> c.db.refunds[r].paymentId in PaidPayments(c.db, day)
  {
    SelectIs(|c.db.payments|, PaidOn(c.db, day));
    assert RefundRowOk(c.db, c.db.refunds[r]);
    assert RefundedOn(c.db, day)(r) <==> PaidOn(c.db, day)(c.db.refunds[r].paymentId);
  }

  lemma RefundsOneMore(c: Core, day: int, n: nat)
    requires CoreInv(c) && n < |c.db.refunds|
    ensures SumOf(PaidPayments(c.db, day), RefundedIn(c.db.refunds[..n + 1])) ==
            SumOf(PaidPayments(c.db, day), RefundedIn(c.db.refunds[..n])) + if RefundedOn(c.db, day)(n) then c.db.refunds[n].amountMinor else 0
  {
    RefundDay(c, day, n);
    SelectIs(|c.db.payments|, PaidOn(c.db, day));
    OneMoreRefund(PaidPayments(c.db, day), c.db.refunds[..n], c.db.refunds[n]);
    assert c.db.refunds[..n + 1] == c.db.refunds[..n] + [c.db.refunds[n]];
  }

  /** The day's refunds, counted row by row or payment by payment. */
  lemma {:induction false} RefundsByPayment(c: Core, day: int, n: nat)
    requires CoreInv(c) && n <= |c.db.refunds|
    ensures SumOf(Select(n, RefundedOn(c.db, day)), RefundAmountIn(c.db)) == SumOf(PaidPayments(c.db, day), RefundedIn(c.db.refunds[..n]))
  {
    if n == 0 {
      assert c.db.refunds[..0] == [];
      AllZero(PaidPayments(c.db, day), RefundedIn([]));
    } else {
      RefundsByPayment(c, day, n - 1);
      Queries.Appended(n - 1, RefundedOn(c.db, day), RefundAmountIn(c.db));
      RefundsOneMore(c, day, n - 1);
    }
  }

  lemma RefundsWithinRevenue(c: Core, day: int)
    requires CoreInv(c)
    ensures 0 <= SumOf(DayRefunds(c.db, day), RefundAmountIn(c.db)) <= SumOf(PaidPayments(c.db, day), AmountIn(c.db))
  {
    var db, paid := c.db, PaidPayments(c.db, day);
    RefundsByPayment(c, day, |db.refunds|);
    assert db.refunds[..|db.refunds|] == db.refunds;
    SelectIs(|db.payments|, PaidOn(db, day));
    SelectIs(|db.refunds|, RefundedOn(db, day));
    forall i | 0 <= i < |paid| ensures RefundedIn(db.refunds)(paid[i]) <= AmountIn(db)(paid[i]) {
      assert RefundsWithin(db, paid[i]);
    }
    SumMonotone(paid, RefundedIn(db.refunds), AmountIn(db));
    forall i | 0 <= i < |db.refunds| ensures db.refunds[i].amountMinor >= 0 {
      assert RefundRowOk(db, db.refunds[i]);
    }
    SumNonNegative(DayRefunds(db, day), RefundAmountIn(db));
  }

  // ----- VAT stays within revenue -----

  lemma VatWithinRevenue(c: Core, day: int)
    requires CoreInv(c)
    ensures 0 <= SumOf(SettledOrders(c.db, day), VatIn(c.db)) <= SumOf(SettledOrders(c.db, day), TotalIn(c.db))
  {
    var db, ids := c.db, SettledOrders(c.db, day);
    SelectIs(|db.orders|, SettledOn(db, day));
    forall i | 0 <= i < |ids| ensures 0 <= VatIn(db)(ids[i]) <= TotalIn(db)(ids[i]) {
      assert OrderRowOk(db.orders[ids[i]]);
    }
    SumMonotone(ids, VatIn(db), TotalIn(db));
    SumNonNegative(ids, VatIn(db));
  }

  // ----- The breakdown by method -----

  const ALL_LABELS := [CARD, PROMPTPAY, CASH, UNKNOWN]

  lemma {:induction false} BreakdownAddsUp(rows: seq<Group<Option<PaymentMethod>>>)
    ensures SumOf(ALL_LABELS, ValueIn(LabelTotals(rows))) == SumOf(rows, TotalOf())
  {
    LabelsAddUp(rows);
    SumOfFour(ALL_LABELS, ValueIn(LabelTotals(rows)));
    forall l ensures ValueIn(LabelTotals(rows))(l) == SumOf(rows, Labelled(l)) {
      if l !in Labels(rows) {
        NothingLabelled(rows, l);
      }
    }
  }

  lemma {:induction false} LabelsAddUp(rows: seq<Group<Option<PaymentMethod>>>)
    ensures SumOf(rows, Labelled(CARD)) + SumOf(rows, Labelled(PROMPTPAY)) + SumOf(rows, Labelled(CASH)) + SumOf(rows, Labelled(UNKNOWN))
            == SumOf(rows, TotalOf())
  {
    if rows != [] {
      LabelsAddUp(rows[..|rows| - 1]);
    }
  }

  // ----- One day -----

  /**
   For every day in every reachable state the four ways of counting revenue agree:
   by settled order, by payment method, by item sold and as the row's own total.
   Refunds and VAT each stay within it.
   */
  lemma DayAddsUp(s: Sys, day: int, parts: Parts, collate: string -> real)
    requires Reachable(s) && IsAggregate(s.core.db, day, parts)
    ensures var db := s.core.db; var row := RowOf(day, parts, collate);
            && row.revenueMinor == SumOf(SettledOrders(db, day), TotalIn(db))
            && row.revenueMinor == SumOf(ALL_LABELS, ValueIn(row.revenueByMethod))
            && row.revenueMinor == SumOf(row.topItems, ItemRevenue())
            && row.ordersSettled == |PaidPayments(db, day)|
            && 0 <= row.refundsMinor <= row.revenueMinor
            && 0 <= row.vatMinor <= row.revenueMinor
  {
    ReachableInv(s);
    var db := s.core.db;
    PartsRevenue(s.core, day, parts);
    BreakdownAddsUp(parts.revenueByMethod);
    SumPermutes(SortItems(parts.items, collate), parts.items, ItemRevenue());
    ItemsAddUp(LinesOf(db, SettledOrders(db, day)), parts.items);
    SelectIs(|db.orders|, SettledOn(db, day));
    LinesAddUp(db, SettledOrders(db, day));
    RefundsWithinRevenue(s.core, day);
    VatWithinRevenue(s.core, day);
  }

  lemma PartsRevenue(c: Core, day: int, parts: Parts)
    requires CoreInv(c) && IsAggregate(c.db, day, parts)
    ensures SumOf(parts.revenueByMethod, TotalOf()) == SumOf(PaidPayments(c.db, day), AmountIn(c.db))
    ensures SumOf(parts.revenueByMethod, TotalOf()) == SumOf(SettledOrders(c.db, day), TotalIn(c.db))
    ensures |PaidPayments(c.db, day)| == |SettledOrders(c.db, day)|
  {
    var paid := PaidPayments(c.db, day);
    RevenueIsTotals(c, day);
    GroupsAddUp(paid, RailIn(c.db), AmountIn(c.db), parts.revenueByMethod, Any());
    SumCongruent(parts.revenueByMethod, TotalOf(), InClass(Any()));
    SumCongruent(paid, AmountIn(c.db), RowInClass(RailIn(c.db), AmountIn(c.db), Any()));
  }

  // ----- Hours -----

  lemma {:induction false} SumWithin(n: nat, whole: nat -> bool, part: nat -> bool, f: nat -> int, g: nat -> int)
    requires forall i: nat :: i < n ==> (part(i) ==> whole(i) && f(i) == g(i)) && (whole(i) && !part(i) ==> f(i) == 0)
    ensures SumOf(Select(n, whole), f) == SumOf(Select(n, part), g)
  {
    if n > 0 {
      SumWithin(n - 1, whole, part, f, g);
      Queries.Appended(n - 1, whole, f);
      Queries.Appended(n - 1, part, g);
    }
  }

  function IsDay(day: int): HourLabel -> bool {
    (k: HourLabel) => k.day == day
  }

  /** Within any hourly report that covers a day, the hours of that day add up to the day's revenue and settled count. */
  lemma HoursAddUp(db: Db, from: int, to: int, day: int)
    requires from <= day <= to
    ensures SumOf(HourlyBuckets(db, from, to), RevenueOn(day)) == SumOf(SettledOrders(db, day), TotalIn(db))
    ensures SumOf(HourlyBuckets(db, from, to), SettledCountOn(day)) == |SettledOrders(db, day)|
  {
    var groups := HourGroups(db, from, to);
    GroupBy2IsGrouping(Select(|db.orders|, SettledBetween(db, from, to)), HourKey(db), TotalIn(db), One<nat>());
    HourColumn(db, from, to, day, Firsts(groups), TotalIn(db));
    HourColumn(db, from, to, day, Seconds(groups), One<nat>());
    SumZip(HourlyBuckets(db, from, to), Firsts(groups), RevenueOn(day), InClass(IsDay(day)));
    SumZip(HourlyBuckets(db, from, to), Seconds(groups), SettledCountOn(day), InClass(IsDay(day)));
    CountIsSum(SettledOrders(db, day));
  }

  lemma HourColumn(db: Db, from: int, to: int, day: int, groups: seq<Group<HourLabel>>, column: nat -> int)
    requires from <= day <= to
    requires IsGrouping(Select(|db.orders|, SettledBetween(db, from, to)), HourKey(db), column, groups)
    ensures SumOf(groups, InClass(IsDay(day))) == SumOf(SettledOrders(db, day), column)
  {
    GroupsAddUp(Select(|db.orders|, SettledBetween(db, from, to)), HourKey(db), column, groups, IsDay(day));
    DayWithinRange(db, from, to, day, column);
  }

  lemma DayWithinRange(db: Db, from: int, to: int, day: int, column: nat -> int)
    requires from <= day <= to
    ensures SumOf(Select(|db.orders|, SettledBetween(db, from, to)), RowInClass<nat, HourLabel>(HourKey(db), column, IsDay(day)))
            == SumOf(SettledOrders(db, day), column)
  {
    var inRange, inClass := SettledBetween(db, from, to), RowInClass<nat, HourLabel>(HourKey(db), column, IsDay(day));
    forall i: nat | i < |db.orders|
      ensures (SettledOn(db, day)(i) ==> inRange(i) && inClass(i) == column(i)) && (inRange(i) && !SettledOn(db, day)(i) ==> inClass(i) == 0)
    {
      assert HourKey(db)(i).day == db.orders[i].businessDay;
    }
    SumWithin(|db.orders|, inRange, SettledOn(db, day), inClass, column);
  }

  lemma {:induction false} CountIsSum(ids: seq<nat>)
    ensures SumOf(ids, One<nat>()) == |ids|
  {
    if ids != [] {
      CountIsSum(ids[..|ids| - 1]);
    }
  }

  /** The hourly and the daily report agree about every day, in every reachable state. */
  lemma HourlyEqualsDaily(s: Sys, from: int, to: int, day: int, parts: Parts, collate: string -> real)
    requires Reachable(s) && from <= day <= to && IsAggregate(s.core.db, day, parts)
    ensures var hourly := HourlyBuckets(s.core.db, from, to); var daily := DayBucket(day, RowOf(day, parts, collate));
            SumOf(hourly, RevenueOn(day)) == daily.revenueMinor && SumOf(hourly, SettledCountOn(day)) == daily.ordersSettled
  {
    ReachableInv(s);
    PartsRevenue(s.core, day, parts);
    HoursAddUp(s.core.db, from, to, day);
  }
}

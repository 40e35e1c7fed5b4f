/** What a day's row can and cannot change into, and how exact its figures are. */
module CorrectionTheorems {
  import opened Wrappers
  import opened OrderState
  import opened Pricing
  import opened Sums
  import opened Queries
  import opened Tables
  import opened Protocol
  import opened Invariants
  import opened Theorems
  import opened Reconciliation
  import opened DayAggregate
  import opened RollupRow
  import opened ReportTheorems
  import Vat

  // ----- Settled sales only grow -----

  lemma PaidRowsGrow(a: Core, b: Core, day: int, p: nat)
    requires CoreInv(a) && CoreInv(b) && Grows(a, b) && PaidRow(a.db, p, day)
    ensures PaidRow(b.db, p, day) && a.db.payments[p] == b.db.payments[p]
  {
    assert SamePayment(a.db.payments[p], b.db.payments[p]);
    assert SameOrder(a.db.orders[a.db.payments[p].orderId], b.db.orders[a.db.payments[p].orderId]);
  }

  lemma SettledGrows(a: Core, b: Core, day: int, o: nat)
    requires CoreInv(a) && CoreInv(b) && Grows(a, b) && SettledOn(a.db, day)(o)
    ensures SettledOn(b.db, day)(o) && a.db.orders[o].priced == b.db.orders[o].priced
  {
    var p :| 0 <= p < |a.db.payments| && a.db.payments[p].orderId == o && a.db.payments[p].status.Succeeded?;
    assert SamePayment(a.db.payments[p], b.db.payments[p]);
    assert b.db.payments[p].orderId == o && b.db.payments[p].status.Succeeded?;
    assert SameOrder(a.db.orders[o], b.db.orders[o]);
  }

  lemma SettledCost(c: Core, day: int, o: nat)
    requires CoreInv(c) && SettledOn(c.db, day)(o)
    ensures Total(c.db.orders[o]) > 0
  {
    var p :| 0 <= p < |c.db.payments| && c.db.payments[p].orderId == o && c.db.payments[p].status.Succeeded?;
    assert PaymentRowOk(c.db, c.gateway, c.db.payments[p]);
  }

  /** Every settled payment is positive, so a day whose revenue did not move sold exactly what it had sold. */
  lemma SameRevenueSameRows(a: Core, b: Core, day: int)
    requires CoreInv(a) && CoreInv(b) && Grows(a, b)
    requires SumOf(PaidPayments(a.db, day), AmountIn(a.db)) == SumOf(PaidPayments(b.db, day), AmountIn(b.db))
    ensures PaidPayments(a.db, day) == PaidPayments(b.db, day)
    ensures SettledOrders(a.db, day) == SettledOrders(b.db, day)
  {
    forall p: nat | p < |a.db.payments| && PaidOn(a.db, day)(p) ensures PaidOn(b.db, day)(p) && AmountIn(a.db)(p) == AmountIn(b.db)(p) {
      PaidRowsGrow(a, b, day, p);
    }
    forall p: nat | p < |b.db.payments| && PaidOn(b.db, day)(p) ensures AmountIn(b.db)(p) > 0 {
      assert PaymentRowOk(b.db, b.gateway, b.db.payments[p]);
    }
    EqualSumSameSelection(|a.db.payments|, |b.db.payments|, PaidOn(a.db, day), PaidOn(b.db, day), AmountIn(a.db), AmountIn(b.db));
    SameRevenueSameOrders(a, b, day);
  }

  lemma SameRevenueSameOrders(a: Core, b: Core, day: int)
    requires CoreInv(a) && CoreInv(b) && Grows(a, b)
    requires SumOf(PaidPayments(a.db, day), AmountIn(a.db)) == SumOf(PaidPayments(b.db, day), AmountIn(b.db))
    ensures SettledOrders(a.db, day) == SettledOrders(b.db, day)
  {
    RevenueIsTotals(a, day);
    RevenueIsTotals(b, day);
    forall o: nat | o < |a.db.orders| && SettledOn(a.db, day)(o) ensures SettledOn(b.db, day)(o) && TotalIn(a.db)(o) == TotalIn(b.db)(o) {
      SettledGrows(a, b, day, o);
    }
    forall o: nat | o < |b.db.orders| && SettledOn(b.db, day)(o) ensures TotalIn(b.db)(o) > 0 {
      SettledCost(b, day, o);
    }
    EqualSumSameSelection(|a.db.orders|, |b.db.orders|, SettledOn(a.db, day), SettledOn(b.db, day), TotalIn(a.db), TotalIn(b.db));
  }

  // ----- Grouping the same rows gives the same groups -----

  lemma GroupingCongruent<T, K>(rows: seq<T>, key: T -> K, value: T -> int, key': T -> K, value': T -> int, groups: seq<Group<K>>)
    requires IsGrouping(rows, key, value, groups)
    requires forall i :: 0 <= i < |rows| ==> key(rows[i]) == key'(rows[i]) && value(rows[i]) == value'(rows[i])
    ensures IsGrouping(rows, key', value', groups)
  {
    forall i | 0 <= i < |rows| ensures HasKey(groups, key'(rows[i])) {
      assert HasKey(groups, key(rows[i]));
    }
    forall i | 0 <= i < |groups| ensures GroupOk(rows, key', value', groups[i]) {
      var k := groups[i].key;
      assert GroupOk(rows, key, value, groups[i]);
      SumCongruent(rows, Under(key, value, k), Under(key', value', k));
      OccursIs(rows, key, k);
      OccursIs(rows, key', k);
      var r :| 0 <= r < |rows| && key(rows[r]) == k;
      assert key'(rows[r]) == k;
    }
  }

  lemma BreakdownPermutes(a: seq<Group<Option<PaymentMethod>>>, b: seq<Group<Option<PaymentMethod>>>)
    requires multiset(a) == multiset(b)
    ensures LabelTotals(a) == LabelTotals(b)
  {
    SameMembers(a, b);
    assert Labels(a) == Labels(b);
    forall l | l in Labels(a) ensures SumOf(a, Labelled(l)) == SumOf(b, Labelled(l)) {
      SumPermutes(a, b, Labelled(l));
    }
  }

  lemma {:induction false} LinesStay(a: Core, b: Core, day: int, ids: seq<nat>)
    requires CoreInv(a) && CoreInv(b) && Grows(a, b)
    requires forall i :: 0 <= i < |ids| ==> SettledOn(a.db, day)(ids[i])
    ensures LinesOf(a.db, ids) == LinesOf(b.db, ids)
    ensures SumOf(ids, VatIn(a.db)) == SumOf(ids, VatIn(b.db))
  {
    if ids != [] {
      LinesStay(a, b, day, ids[..|ids| - 1]);
      SettledGrows(a, b, day, ids[|ids| - 1]);
    }
  }

  // ----- A silent re-roll changed nothing -----

  /** The two rows agree in everything but, perhaps, the order of equally ranked items. */
  ghost predicate SameUpToTies(a: Row, b: Row) {
    a.(topItems := []) == b.(topItems := []) && multiset(a.topItems) == multiset(b.topItems)
  }

  /**
   The comparison of scalars is sound over whole runs: if a later aggregate of the
   same day agrees on them, the breakdown and the items agree as well, although
   neither is ever compared.
   */
  lemma SilentMeansUnchanged(s: Sys, t: Sys, day: int, before: Parts, after: Parts, collate: string -> real)
    requires Reachable(s) && Reaches(s, t)
    requires IsAggregate(s.core.db, day, before) && IsAggregate(t.core.db, day, after)
    ensures DescribeCorrection(RowOf(day, before, collate), RowOf(day, after, collate)).None? <==>
            SameUpToTies(RowOf(day, before, collate), RowOf(day, after, collate))
  {
    ReachableInv(s);
    ReachesKeeps(s, t);
    SilentIff(RowOf(day, before, collate), RowOf(day, after, collate));
    if RowOf(day, before, collate).revenueMinor == RowOf(day, after, collate).revenueMinor {
      SameRevenueSameSales(s.core, t.core, day, before, after, collate);
    }
    ScalarsDecide(RowOf(day, before, collate), RowOf(day, after, collate));
  }

  lemma ScalarsDecide(was: Row, now: Row)
    requires was.businessDay == now.businessDay
    requires was.revenueMinor == now.revenueMinor ==>
               was.revenueByMethod == now.revenueByMethod && multiset(was.topItems) == multiset(now.topItems)
    ensures SameUpToTies(was, now) <==> forall f :: FieldOf(was, f) == FieldOf(now, f)
  {
    if forall f :: FieldOf(was, f) == FieldOf(now, f) {
      assert FieldOf(was, OrdersCompleted) == FieldOf(now, OrdersCompleted) && FieldOf(was, OrdersRefunded) == FieldOf(now, OrdersRefunded);
      assert FieldOf(was, OrdersCancelled) == FieldOf(now, OrdersCancelled) && FieldOf(was, OrdersExpired) == FieldOf(now, OrdersExpired);
      assert FieldOf(was, OrdersSettled) == FieldOf(now, OrdersSettled) && FieldOf(was, RefundsMinor) == FieldOf(now, RefundsMinor);
      assert FieldOf(was, VatMinor) == FieldOf(now, VatMinor) && FieldOf(was, RevenueMinor) == FieldOf(now, RevenueMinor);
    }
  }

  /** Revenue alone decides: no later aggregate has the same revenue and a different breakdown or different items. */
  lemma SameRevenueSameSales(a: Core, b: Core, day: int, before: Parts, after: Parts, collate: string -> real)
    requires CoreInv(a) && CoreInv(b) && Grows(a, b)
    requires IsAggregate(a.db, day, before) && IsAggregate(b.db, day, after)
    requires RowOf(day, before, collate).revenueMinor == RowOf(day, after, collate).revenueMinor
    ensures var was, now := RowOf(day, before, collate), RowOf(day, after, collate);
            && was.revenueByMethod == now.revenueByMethod
            && multiset(was.topItems) == multiset(now.topItems)
            && was.vatMinor == now.vatMinor && was.ordersSettled == now.ordersSettled
  {
    PartsRevenue(a, day, before);
    PartsRevenue(b, day, after);
    SameRevenueSameRows(a, b, day);
    SameBreakdown(a, b, day, before, after);
    SelectIs(|a.db.orders|, SettledOn(a.db, day));
    LinesStay(a, b, day, SettledOrders(a.db, day));
    ItemsUnique(LinesOf(a.db, SettledOrders(a.db, day)), before.items, after.items);
  }

  lemma SameBreakdown(a: Core, b: Core, day: int, before: Parts, after: Parts)
    requires CoreInv(a) && CoreInv(b) && Grows(a, b) && PaidPayments(a.db, day) == PaidPayments(b.db, day)
    requires IsAggregate(a.db, day, before) && IsAggregate(b.db, day, after)
    ensures LabelTotals(before.revenueByMethod) == LabelTotals(after.revenueByMethod)
  {
    var rows := PaidPayments(a.db, day);
    SelectIs(|a.db.payments|, PaidOn(a.db, day));
    forall i | 0 <= i < |rows| ensures RailIn(b.db)(rows[i]) == RailIn(a.db)(rows[i]) && AmountIn(b.db)(rows[i]) == AmountIn(a.db)(rows[i]) {
      PaidRowsGrow(a, b, day, rows[i]);
    }
    GroupingCongruent(rows, RailIn(b.db), AmountIn(b.db), RailIn(a.db), AmountIn(a.db), after.revenueByMethod);
    GroupingUnique(rows, RailIn(a.db), AmountIn(a.db), before.revenueByMethod, after.revenueByMethod);
    BreakdownPermutes(before.revenueByMethod, after.revenueByMethod);
  }

  // ----- Status counts -----

  function WithStatus(db: Db, day: int, status: OrderStatus): nat -> bool {
    (o: nat) => OfDay(db, o, day) && db.orders[o].status == status
  }

  lemma {:induction false} CountOfIs(counts: seq<Group<OrderStatus>>, status: OrderStatus)
    requires forall i, j :: 0 <= i < j < |counts| ==> counts[i].key != counts[j].key
    ensures (exists i :: 0 <= i < |counts| && counts[i] == Group(status, CountOf(counts, status)))
            || (!HasKey(counts, status) && CountOf(counts, status) == 0)
  {
    if counts != [] && counts[|counts| - 1].key != status {
      var init := counts[..|counts| - 1];
      CountOfIs(init, status);
      forall i | 0 <= i < |counts| && counts[i].key == status ensures HasKey(init, status) {
        assert init[i].key == status;
      }
      if HasKey(init, status) {
        var i :| 0 <= i < |init| && init[i] == Group(status, CountOf(init, status));
        assert counts[i] == Group(status, CountOf(counts, status));
      }
    } else if counts != [] {
      assert counts[|counts| - 1] == Group(status, CountOf(counts, status));
    }
  }

  /** A status absent from the query counts as zero, and every other count is exact. */
  lemma CountsAreExact(db: Db, day: int, parts: Parts, status: OrderStatus)
    requires IsAggregate(db, day, parts)
    ensures CountOf(parts.statusCounts, status) == |Select(|db.orders|, WithStatus(db, day, status))|
  {
    var rows, counts := DayOrders(db, day), parts.statusCounts;
    var under := Under<nat, OrderStatus>(StatusIn(db), One<nat>(), status);
    CountOfIs(counts, status);
    if HasKey(counts, status) {
      var i :| 0 <= i < |counts| && counts[i] == Group(status, CountOf(counts, status));
      assert GroupOk(rows, StatusIn(db), One<nat>(), counts[i]);
    } else {
      NothingUnder(rows, StatusIn(db), One<nat>(), status, counts);
    }
    SumWithin(|db.orders|, OnDay(db, day), WithStatus(db, day, status), under, One<nat>());
    CountIsSum(Select(|db.orders|, WithStatus(db, day, status)));
  }

  // ----- A day's VAT -----

  /** Every settled order of the day was taxed at this rate. */
  ghost predicate TaxedAt(db: Db, day: int, basisPoints: int)
    requires Vat.ValidRate(basisPoints)
  {
    forall o :: 0 <= o < |db.orders| && SettledOn(db, day)(o) ==>
      db.orders[o].priced.vatMinor == Vat.ExtractVat(Total(db.orders[o]), basisPoints)
  }

  /** At a constant rate, a day's VAT is within half a unit per settled order of the exact VAT on its revenue. */
  lemma DayVatIsClose(s: Sys, day: int, basisPoints: int, parts: Parts, collate: string -> real)
    requires Reachable(s) && Vat.ValidRate(basisPoints) && TaxedAt(s.core.db, day, basisPoints)
    requires IsAggregate(s.core.db, day, parts)
    ensures var row := RowOf(day, parts, collate); var slack := row.ordersSettled as real * 0.5;
            Vat.ExactVat(row.revenueMinor, basisPoints) - slack <= row.vatMinor as real <= Vat.ExactVat(row.revenueMinor, basisPoints) + slack
  {
    ReachableInv(s);
    PartsRevenue(s.core, day, parts);
    SelectIs(|s.core.db.orders|, SettledOn(s.core.db, day));
    VatErrorsAddUp(s.core.db, SettledOrders(s.core.db, day), basisPoints);
  }

  lemma {:induction false} VatErrorsAddUp(db: Db, ids: seq<nat>, basisPoints: int)
    requires Vat.ValidRate(basisPoints)
    requires forall i :: 0 <= i < |ids| ==> ids[i] < |db.orders| && db.orders[ids[i]].priced.vatMinor == Vat.ExtractVat(Total(db.orders[ids[i]]), basisPoints)
    ensures var slack := |ids| as real * 0.5; var exact := Vat.ExactVat(SumOf(ids, TotalIn(db)), basisPoints);
            exact - slack <= SumOf(ids, VatIn(db)) as real <= exact + slack
  {
    if ids != [] {
      var init, o := ids[..|ids| - 1], ids[|ids| - 1];
      VatErrorsAddUp(db, init, basisPoints);
      Vat.VatWithinHalf(Total(db.orders[o]), basisPoints);
      ExactVatAdds(SumOf(init, TotalIn(db)), Total(db.orders[o]), basisPoints);
    }
  }

  lemma ExactVatAdds(a: int, b: int, basisPoints: int)
    requires Vat.ValidRate(basisPoints)
    ensures Vat.ExactVat(a + b, basisPoints) == Vat.ExactVat(a, basisPoints) + Vat.ExactVat(b, basisPoints)
  {
    assert (a + b) * basisPoints == a * basisPoints + b * basisPoints;
  }
}

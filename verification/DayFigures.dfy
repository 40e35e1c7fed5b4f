/**
 What every figure of a day's row, of an hourly report and of a correction counts,
 told over the tables themselves: for any condition that picks the rows meant and any
 column that reads the amount meant.
 */
module DayFigures {
  import opened Wrappers
  import opened OrderState
  import opened PaymentDecision
  import opened Pricing
  import opened Sums
  import opened Queries
  import opened Tables
  import opened DayAggregate
  import opened RollupRow
  import opened Reports
  import opened ReportTheorems
  import opened CorrectionTheorems
  import Reconciliation
  import Vat

  // ----- Conditions and columns -----

  /** The order is of the day and in this status. */
  ghost predicate PicksStatus(db: Db, day: int, status: OrderStatus, where: nat -> bool) {
    forall o: nat :: o < |db.orders| ==> (where(o) <==> db.orders[o].businessDay == day && db.orders[o].status == status)
  }

  ghost predicate HasSuccess(db: Db, o: nat) {
    exists p :: 0 <= p < |db.payments| && db.payments[p].orderId == o && db.payments[p].status == PaymentStatus.Succeeded
  }

  /** The order is of the day and took money. */
  ghost predicate PicksSales(db: Db, day: int, where: nat -> bool) {
    forall o: nat :: o < |db.orders| ==> (where(o) <==> db.orders[o].businessDay == day && HasSuccess(db, o))
  }

  ghost predicate PaidOnDay(db: Db, day: int, p: nat) {
    && p < |db.payments| && db.payments[p].status == PaymentStatus.Succeeded
    && db.payments[p].orderId < |db.orders| && db.orders[db.payments[p].orderId].businessDay == day
  }

  ghost predicate PicksPayments(db: Db, day: int, where: nat -> bool) {
    forall p: nat :: p < |db.payments| ==> (where(p) <==> PaidOnDay(db, day, p))
  }

  ghost predicate PicksRail(db: Db, day: int, rail: Option<PaymentMethod>, where: nat -> bool) {
    forall p: nat :: p < |db.payments| ==> (where(p) <==> PaidOnDay(db, day, p) && db.payments[p].rail == rail)
  }

  ghost predicate PicksRefunds(db: Db, day: int, where: nat -> bool) {
    forall r: nat :: r < |db.refunds| ==>
      (where(r) <==> db.refunds[r].paymentId < |db.payments| && db.payments[db.refunds[r].paymentId].orderId < |db.orders|
                     && db.orders[db.payments[db.refunds[r].paymentId].orderId].businessDay == day)
  }

  ghost predicate ReadsAmount(db: Db, column: nat -> int) {
    forall p: nat :: p < |db.payments| ==> column(p) == db.payments[p].amountMinor
  }

  ghost predicate ReadsRefund(db: Db, column: nat -> int) {
    forall r: nat :: r < |db.refunds| ==> column(r) == db.refunds[r].amountMinor
  }

  ghost predicate ReadsVat(db: Db, column: nat -> int) {
    forall o: nat :: o < |db.orders| ==> column(o) == db.orders[o].priced.vatMinor
  }

  ghost predicate ReadsTotal(db: Db, column: nat -> int) {
    forall o: nat :: o < |db.orders| ==> column(o) == db.orders[o].priced.totalMinor
  }

  /** The same rows summed over the same column. */
  lemma SameSum(n: nat, a: nat -> bool, b: nat -> bool, f: nat -> int, g: nat -> int)
    requires forall i: nat :: i < n ==> (a(i) <==> b(i)) && f(i) == g(i)
    ensures Select(n, a) == Select(n, b) && SumOf(Select(n, a), f) == SumOf(Select(n, b), g)
  {
    SelectSame(n, a, b);
    SelectIs(n, a);
    SumCongruent(Select(n, a), f, g);
  }

  // ----- The row of a day -----

  /** Each count is the number of the day's orders in the status it is named after. */
  lemma RowCounts(db: Db, day: int, parts: Parts, collate: string -> real, status: OrderStatus, where: nat -> bool)
    requires IsAggregate(db, day, parts) && PicksStatus(db, day, status, where)
    ensures var row, n := RowOf(day, parts, collate), |Select(|db.orders|, where)|;
            && (status == Completed ==> row.ordersCompleted == n) && (status == Refunded ==> row.ordersRefunded == n)
            && (status == OrderStatus.Cancelled ==> row.ordersCancelled == n) && (status == OrderStatus.Expired ==> row.ordersExpired == n)
  {
    CountsAreExact(db, day, parts, status);
    SelectSame(|db.orders|, WithStatus(db, day, status), where);
  }

  /** Sales, their VAT, the money taken and the money given back. */
  lemma RowTotals(db: Db, day: int, parts: Parts, collate: string -> real, sales: nat -> bool, paid: nat -> bool, refunded: nat -> bool,
                  vat: nat -> int, amount: nat -> int, back: nat -> int)
    requires IsAggregate(db, day, parts) && PicksSales(db, day, sales) && PicksPayments(db, day, paid) && PicksRefunds(db, day, refunded)
    requires ReadsVat(db, vat) && ReadsAmount(db, amount) && ReadsRefund(db, back)
    ensures var row := RowOf(day, parts, collate);
            && row.businessDay == day
            && row.ordersSettled == |Select(|db.orders|, sales)|
            && row.vatMinor == SumOf(Select(|db.orders|, sales), vat)
            && row.revenueMinor == SumOf(Select(|db.payments|, paid), amount)
            && row.refundsMinor == SumOf(Select(|db.refunds|, refunded), back)
  {
    SameSum(|db.orders|, SettledOn(db, day), sales, VatIn(db), vat);
    SameSum(|db.refunds|, RefundedOn(db, day), refunded, RefundAmountIn(db), back);
    PaymentsSum(db, day, parts, paid, amount);
  }

  lemma PaymentsSum(db: Db, day: int, parts: Parts, paid: nat -> bool, amount: nat -> int)
    requires IsAggregate(db, day, parts) && PicksPayments(db, day, paid) && ReadsAmount(db, amount)
    ensures SumOf(parts.revenueByMethod, TotalOf()) == SumOf(Select(|db.payments|, paid), amount)
  {
    var rows := PaidPayments(db, day);
    GroupsAddUp(rows, RailIn(db), Reconciliation.AmountIn(db), parts.revenueByMethod, Any());
    SumCongruent(parts.revenueByMethod, TotalOf(), InClass(Any()));
    SumCongruent(rows, Reconciliation.AmountIn(db), RowInClass(RailIn(db), Reconciliation.AmountIn(db), Any()));
    SameSum(|db.payments|, PaidOn(db, day), paid, Reconciliation.AmountIn(db), amount);
  }

  /** The name a rail is reported under. */
  ghost predicate Named(rail: Option<PaymentMethod>, name: MethodLabel) {
    || (rail == Some(Card) && name == CARD) || (rail == Some(PromptPay) && name == PROMPTPAY)
    || (rail == Some(CashInHand) && name == CASH) || (rail == None && name == UNKNOWN)
  }

  /** A method is in the breakdown exactly when the day took money by that rail, with what it took. */
  lemma MethodRevenue(db: Db, day: int, parts: Parts, collate: string -> real, rail: Option<PaymentMethod>, name: MethodLabel, where: nat -> bool, amount: nat -> int)
    requires IsAggregate(db, day, parts) && Named(rail, name) && PicksRail(db, day, rail, where) && ReadsAmount(db, amount)
    ensures var breakdown := RowOf(day, parts, collate).revenueByMethod;
            && (name in breakdown <==> Select(|db.payments|, where) != [])
            && (name in breakdown ==> breakdown[name] == SumOf(Select(|db.payments|, where), amount))
  {
    var groups := parts.revenueByMethod;
    LabelIsRail(groups, rail, name);
    RailTotal(db, day, parts, rail, where, amount);
    RailOccurs(db, day, parts, rail, where);
  }

  /** A label stands for one rail. */
  lemma LabelIsRail(groups: seq<Group<Option<PaymentMethod>>>, rail: Option<PaymentMethod>, name: MethodLabel)
    requires Named(rail, name)
    ensures name in Labels(groups) <==> HasKey(groups, rail)
    ensures name in LabelTotals(groups) ==> LabelTotals(groups)[name] == SumOf(groups, InClass(Is(rail)))
  {
    assert forall r :: Label(r) == name <==> r == rail;
    if HasKey(groups, rail) {
      var i :| 0 <= i < |groups| && groups[i].key == rail;
      assert groups[i] in groups;
    }
    SumCongruent(groups, Labelled(name), InClass(Is(rail)));
  }

  function Is<K(==)>(k: K): K -> bool {
    (x: K) => x == k
  }

  lemma RailTotal(db: Db, day: int, parts: Parts, rail: Option<PaymentMethod>, where: nat -> bool, amount: nat -> int)
    requires IsAggregate(db, day, parts) && PicksRail(db, day, rail, where) && ReadsAmount(db, amount)
    ensures SumOf(parts.revenueByMethod, InClass(Is(rail))) == SumOf(Select(|db.payments|, where), amount)
  {
    var column := RowInClass<nat, Option<PaymentMethod>>(RailIn(db), Reconciliation.AmountIn(db), Is(rail));
    GroupsAddUp(PaidPayments(db, day), RailIn(db), Reconciliation.AmountIn(db), parts.revenueByMethod, Is(rail));
    SumWithin(|db.payments|, PaidOn(db, day), where, column, amount);
  }

  lemma RailOccurs(db: Db, day: int, parts: Parts, rail: Option<PaymentMethod>, where: nat -> bool)
    requires IsAggregate(db, day, parts) && PicksRail(db, day, rail, where)
    ensures HasKey(parts.revenueByMethod, rail) <==> Select(|db.payments|, where) != []
  {
    var rows := PaidPayments(db, day);
    KeysAreRows(rows, RailIn(db), Reconciliation.AmountIn(db), parts.revenueByMethod, rail);
    SelectIs(|db.payments|, PaidOn(db, day));
    SelectIs(|db.payments|, where);
    if i :| 0 <= i < |rows| && RailIn(db)(rows[i]) == rail {
      assert where(rows[i]) && rows[i] in Select(|db.payments|, where);
    }
    if Select(|db.payments|, where) != [] {
      var p := Select(|db.payments|, where)[0];
      assert PaidOn(db, day)(p) && p in rows;
      var k :| 0 <= k < |rows| && rows[k] == p;
      assert RailIn(db)(rows[k]) == rail;
    }
  }

  // ----- The items of a day -----

  /** What one line sold of an item under a name, and for how much. */
  ghost predicate ReadsLine(id: string, name: string, quantity: PricedLine -> int, revenue: PricedLine -> int) {
    forall line: PricedLine ::
      && quantity(line) == (if line.menuItemId == id && line.name == name then line.quantity else 0)
      && revenue(line) == (if line.menuItemId == id && line.name == name then line.lineTotalMinor else 0)
  }

  ghost predicate SumsLines(db: Db, column: PricedLine -> int, perOrder: nat -> int) {
    forall o: nat :: o < |db.orders| ==> perOrder(o) == SumOf(db.orders[o].priced.lines, column)
  }

  lemma {:induction false} LinesPerOrder(db: Db, ids: seq<nat>, column: PricedLine -> int, perOrder: nat -> int)
    requires SumsLines(db, column, perOrder) && forall i :: 0 <= i < |ids| ==> ids[i] < |db.orders|
    ensures SumOf(LinesOf(db, ids), column) == SumOf(ids, perOrder)
  {
    if ids != [] {
      var init, o := ids[..|ids| - 1], ids[|ids| - 1];
      LinesPerOrder(db, init, column, perOrder);
      SumOfConcat(LinesOf(db, init), db.orders[o].priced.lines, column);
    }
  }

  lemma ItemIsGroup(lines: seq<PricedLine>, items: seq<RollupItem>, item: RollupItem, quantity: PricedLine -> int, revenue: PricedLine -> int)
    requires ItemsAre(lines, items) && item in items && ReadsLine(item.menuItemId, item.name, quantity, revenue)
    ensures item.quantity == SumOf(lines, quantity) && item.revenueMinor == SumOf(lines, revenue)
  {
    var i :| 0 <= i < |items| && items[i] == item;
    var groups, k := GroupsOf(items), (item.menuItemId, item.name);
    assert GroupOk(lines, ItemKey(), Quantity(), Firsts(groups)[i]);
    assert GroupOk(lines, ItemKey(), LineTotal(), Seconds(groups)[i]);
    SumCongruent(lines, Under(ItemKey(), Quantity(), k), quantity);
    SumCongruent(lines, Under(ItemKey(), LineTotal(), k), revenue);
  }

  /** An item of the row sold what the day's sales hold of it under that name, and for what they paid. */
  lemma ItemFigures(db: Db, day: int, parts: Parts, collate: string -> real, item: RollupItem, sales: nat -> bool,
                    quantity: PricedLine -> int, revenue: PricedLine -> int, sold: nat -> int, earned: nat -> int)
    requires IsAggregate(db, day, parts) && item in RowOf(day, parts, collate).topItems && PicksSales(db, day, sales)
    requires ReadsLine(item.menuItemId, item.name, quantity, revenue) && SumsLines(db, quantity, sold) && SumsLines(db, revenue, earned)
    ensures item.quantity == SumOf(Select(|db.orders|, sales), sold) && item.revenueMinor == SumOf(Select(|db.orders|, sales), earned)
  {
    assert item in multiset(SortItems(parts.items, collate));
    ItemIsGroup(LinesOf(db, SettledOrders(db, day)), parts.items, item, quantity, revenue);
    SelectIs(|db.orders|, SettledOn(db, day));
    SelectSame(|db.orders|, SettledOn(db, day), sales);
    LinesPerOrder(db, SettledOrders(db, day), quantity, sold);
    LinesPerOrder(db, SettledOrders(db, day), revenue, earned);
  }

  lemma {:induction false} LineIsListed(db: Db, ids: seq<nat>, k: nat, l: nat)
    requires k < |ids| && ids[k] < |db.orders| && l < |db.orders[ids[k]].priced.lines|
    ensures db.orders[ids[k]].priced.lines[l] in LinesOf(db, ids)
    decreases |ids|
  {
    if k < |ids| - 1 {
      LineIsListed(db, ids[..|ids| - 1], k, l);
    }
  }

  lemma LineHasItem(lines: seq<PricedLine>, items: seq<RollupItem>, line: PricedLine)
    requires ItemsAre(lines, items) && line in lines
    ensures exists item :: item in items && item.menuItemId == line.menuItemId && item.name == line.name
  {
    var j :| 0 <= j < |lines| && lines[j] == line;
    var groups := Firsts(GroupsOf(items));
    assert HasKey(groups, ItemKey()(lines[j]));
    var i :| 0 <= i < |groups| && groups[i].key == ItemKey()(lines[j]);
    assert items[i] in items;
  }

  /** Everything sold is listed: each line of each sale has its item in the row. */
  lemma EverySaleIsListed(db: Db, day: int, parts: Parts, collate: string -> real, o: nat, l: nat)
    requires IsAggregate(db, day, parts) && o < |db.orders| && db.orders[o].businessDay == day && HasSuccess(db, o)
    requires l < |db.orders[o].priced.lines|
    ensures var line := db.orders[o].priced.lines[l];
            exists item :: item in RowOf(day, parts, collate).topItems && item.menuItemId == line.menuItemId && item.name == line.name
  {
    var ids, line := SettledOrders(db, day), db.orders[o].priced.lines[l];
    SelectIs(|db.orders|, SettledOn(db, day));
    assert SettledOn(db, day)(o) && o in ids;
    var k :| 0 <= k < |ids| && ids[k] == o;
    LineIsListed(db, ids, k, l);
    LineHasItem(LinesOf(db, ids), parts.items, line);
    var item :| item in parts.items && item.menuItemId == line.menuItemId && item.name == line.name;
    assert item in multiset(SortItems(parts.items, collate));
  }

  // ----- Hours -----

  ghost predicate PicksHour(db: Db, day: int, hour: int, where: nat -> bool) {
    forall o: nat :: o < |db.orders| ==> (where(o) <==> db.orders[o].businessDay == day && db.orders[o].hour == hour && HasSuccess(db, o))
  }

  /** The figure to the nearest unit, halves upward. */
  ghost predicate IsNearest(average: int, total: int, count: int) {
    2 * count * average - count <= 2 * total < 2 * count * average + count
  }

  lemma AverageIsNearest(total: int, count: int)
    requires count > 0
    ensures AvgTicketMinor(total, count).Some? && IsNearest(AvgTicketMinor(total, count).value, total, count)
  {
    Vat.RoundHalfUpBounds(total, count);
  }

  /** A day's bucket is the day's row: its revenue, its sales and, if there were any, the average of them. */
  lemma DayBucketFigures(day: int, row: Row)
    ensures var b := DayBucket(day, row);
            && b.day == day && b.hour == None && b.revenueMinor == row.revenueMinor && b.ordersSettled == row.ordersSettled
            && (row.ordersSettled == 0 ==> b.avgTicketMinor == None)
            && (row.ordersSettled > 0 ==> b.avgTicketMinor.Some? && IsNearest(b.avgTicketMinor.value, row.revenueMinor, row.ordersSettled))
  {
    if row.ordersSettled > 0 {
      AverageIsNearest(row.revenueMinor, row.ordersSettled);
    }
  }

  /** An hour's bucket holds the sales of that day and hour, what they came to and the average of them. */
  lemma HourFigures(db: Db, from: int, to: int, b: SalesBucket, where: nat -> bool, total: nat -> int)
    requires b in HourlyBuckets(db, from, to) && b.hour.Some? && PicksHour(db, b.day, b.hour.value, where) && ReadsTotal(db, total)
    ensures from <= b.day <= to
    ensures b.revenueMinor == SumOf(Select(|db.orders|, where), total)
    ensures b.ordersSettled == |Select(|db.orders|, where)| > 0
    ensures b.avgTicketMinor.Some? && IsNearest(b.avgTicketMinor.value, b.revenueMinor, b.ordersSettled)
  {
    var rows, groups := Select(|db.orders|, SettledBetween(db, from, to)), HourGroups(db, from, to);
    var i :| 0 <= i < |groups| && HourlyBuckets(db, from, to)[i] == b;
    GroupBy2IsGrouping(rows, HourKey(db), TotalIn(db), One<nat>());
    assert GroupOk(rows, HourKey(db), TotalIn(db), Firsts(groups)[i]) && GroupOk(rows, HourKey(db), One<nat>(), Seconds(groups)[i]);
    var k := HourLabel(b.day, b.hour.value);
    HourInRange(db, from, to, k);
    HourSum(db, from, to, k, where, TotalIn(db), total);
    HourSum(db, from, to, k, where, One<nat>(), One<nat>());
    CountIsSum(Select(|db.orders|, where));
    HourHasSale(db, from, to, k, where);
    AverageIsNearest(b.revenueMinor, b.ordersSettled);
  }

  lemma HourInRange(db: Db, from: int, to: int, k: HourLabel)
    requires Occurs(Select(|db.orders|, SettledBetween(db, from, to)), HourKey(db), k)
    ensures from <= k.day <= to
  {
    var rows := Select(|db.orders|, SettledBetween(db, from, to));
    SelectIs(|db.orders|, SettledBetween(db, from, to));
    OccursIs(rows, HourKey(db), k);
    var r :| 0 <= r < |rows| && HourKey(db)(rows[r]) == k;
  }

  lemma HourHasSale(db: Db, from: int, to: int, k: HourLabel, where: nat -> bool)
    requires Occurs(Select(|db.orders|, SettledBetween(db, from, to)), HourKey(db), k) && PicksHour(db, k.day, k.hour, where)
    ensures Select(|db.orders|, where) != []
  {
    var rows := Select(|db.orders|, SettledBetween(db, from, to));
    SelectIs(|db.orders|, SettledBetween(db, from, to));
    SelectIs(|db.orders|, where);
    OccursIs(rows, HourKey(db), k);
    var r :| 0 <= r < |rows| && HourKey(db)(rows[r]) == k;
    assert rows[r] in Select(|db.orders|, where);
  }

  lemma HourSum(db: Db, from: int, to: int, k: HourLabel, where: nat -> bool, f: nat -> int, g: nat -> int)
    requires from <= k.day <= to && PicksHour(db, k.day, k.hour, where) && forall o: nat :: o < |db.orders| ==> f(o) == g(o)
    ensures SumOf(Select(|db.orders|, SettledBetween(db, from, to)), Under<nat, HourLabel>(HourKey(db), f, k)) == SumOf(Select(|db.orders|, where), g)
  {
    var under := Under<nat, HourLabel>(HourKey(db), f, k);
    forall o: nat | o < |db.orders|
      ensures (where(o) ==> SettledBetween(db, from, to)(o) && under(o) == g(o)) && (SettledBetween(db, from, to)(o) && !where(o) ==> under(o) == 0)
    {
      assert HourKey(db)(o) == HourLabel(db.orders[o].businessDay, db.orders[o].hour);
    }
    SumWithin(|db.orders|, SettledBetween(db, from, to), where, under, g);
  }

  /** Every sale of the range is in the bucket of its day and hour, and there is one bucket for each. */
  lemma EverySaleHasItsHour(db: Db, from: int, to: int, o: nat)
    requires o < |db.orders| && from <= db.orders[o].businessDay <= to && HasSuccess(db, o)
    ensures exists b :: b in HourlyBuckets(db, from, to) && b.day == db.orders[o].businessDay && b.hour == Some(db.orders[o].hour)
  {
    var rows, groups := Select(|db.orders|, SettledBetween(db, from, to)), HourGroups(db, from, to);
    GroupBy2IsGrouping(rows, HourKey(db), TotalIn(db), One<nat>());
    SelectIs(|db.orders|, SettledBetween(db, from, to));
    assert SettledBetween(db, from, to)(o) && o in rows;
    var r :| 0 <= r < |rows| && rows[r] == o;
    assert HasKey(Firsts(groups), HourKey(db)(rows[r]));
    var i :| 0 <= i < |groups| && Firsts(groups)[i].key == HourKey(db)(rows[r]);
    assert HourlyBuckets(db, from, to)[i] in HourlyBuckets(db, from, to);
  }

  // ----- Corrections -----

  lemma {:induction false} ChangesAre(fields: seq<Field>, was: Row, now: Row, change: Change)
    ensures change in Changes(fields, was, now) <==>
            && change.field in fields && change.was != change.now
            && change.was == FieldOf(was, change.field) && change.now == FieldOf(now, change.field)
  {
    if fields != [] {
      ChangesAre(fields[..|fields| - 1], was, now, change);
      assert fields == fields[..|fields| - 1] + [fields[|fields| - 1]];
    }
  }

  /** The figure a field of a correction is about. */
  ghost predicate IsFigure(field: Field, row: Row, n: int) {
    match field
    case OrdersCompleted => n == row.ordersCompleted
    case OrdersRefunded => n == row.ordersRefunded
    case OrdersCancelled => n == row.ordersCancelled
    case OrdersExpired => n == row.ordersExpired
    case OrdersSettled => n == row.ordersSettled
    case RevenueMinor => n == row.revenueMinor
    case RefundsMinor => n == row.refundsMinor
    case VatMinor => n == row.vatMinor
  }

  /** A correction names every figure that moved, with what it was and what it is, and no other. */
  lemma CorrectionNames(was: Row, now: Row, change: Change)
    ensures (DescribeCorrection(was, now).Some? && change in DescribeCorrection(was, now).value) <==>
            change.was != change.now && IsFigure(change.field, was, change.was) && IsFigure(change.field, now, change.now)
  {
    ChangesAre(COMPARED_FIELDS, was, now, change);
    EveryFieldCompared(change.field);
    var moved := Changes(COMPARED_FIELDS, was, now);
    assert change in moved ==> moved != [];
  }
}

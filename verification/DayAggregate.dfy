/**
 A business day's figures as five queries over one state of the tables. A query that groups returns its groups in no particular order, so
 each aggregate is first a relation; `AggregateDay` picks one answer.
 */
module DayAggregate {
  import opened Wrappers
  import opened OrderState
  import opened Pricing
  import opened Sums
  import opened Queries
  import opened Tables
  import opened Reconciliation

  /** What was sold of one item under one name. */
  datatype RollupItem = RollupItem(menuItemId: string, name: string, quantity: int, revenueMinor: int)

  datatype Parts = Parts(statusCounts: seq<Group<OrderStatus>>, revenueByMethod: seq<Group<Option<PaymentMethod>>>,
                         refundsMinor: int, vatMinor: int, ordersSettled: nat, items: seq<RollupItem>)

  // ----- Rows -----

  /** This order took money. */
  predicate Settled(db: Db, o: nat) {
    exists p :: 0 <= p < |db.payments| && db.payments[p].orderId == o && db.payments[p].status.Succeeded?
  }

  predicate OfDay(db: Db, o: nat, day: int) {
    o < |db.orders| && db.orders[o].businessDay == day
  }

  function OnDay(db: Db, day: int): nat -> bool {
    (o: nat) => OfDay(db, o, day)
  }

  function SettledOn(db: Db, day: int): nat -> bool {
    (o: nat) => OfDay(db, o, day) && Settled(db, o)
  }

  /** A payment row that settled on the day: filtered row by row, not by order. */
  predicate PaidRow(db: Db, p: nat, day: int) {
    p < |db.payments| && OfDay(db, db.payments[p].orderId, day) && db.payments[p].status.Succeeded?
  }

  function PaidOn(db: Db, day: int): nat -> bool {
    (p: nat) => PaidRow(db, p, day)
  }

  function RefundedOn(db: Db, day: int): nat -> bool {
    (r: nat) => r < |db.refunds| && db.refunds[r].paymentId < |db.payments|
                && OfDay(db, db.payments[db.refunds[r].paymentId].orderId, day)
  }

  function DayOrders(db: Db, day: int): seq<nat> { Select(|db.orders|, OnDay(db, day)) }

  function SettledOrders(db: Db, day: int): seq<nat> { Select(|db.orders|, SettledOn(db, day)) }

  function PaidPayments(db: Db, day: int): seq<nat> { Select(|db.payments|, PaidOn(db, day)) }

  function DayRefunds(db: Db, day: int): seq<nat> { Select(|db.refunds|, RefundedOn(db, day)) }

  /** Every line of the given orders. */
  function LinesOf(db: Db, ids: seq<nat>): seq<PricedLine> {
    if ids == [] then [] else
      var o := ids[|ids| - 1];
      LinesOf(db, ids[..|ids| - 1]) + if o < |db.orders| then db.orders[o].priced.lines else []
  }

  // ----- Columns -----

  function One<T>(): T -> int {
    (x: T) => 1
  }

  function StatusIn(db: Db): nat -> OrderStatus {
    (o: nat) => if o < |db.orders| then db.orders[o].status else Draft
  }

  function RailIn(db: Db): nat -> Option<PaymentMethod> {
    (p: nat) => if p < |db.payments| then db.payments[p].rail else None
  }

  function RefundAmountIn(db: Db): nat -> int {
    (r: nat) => if r < |db.refunds| then db.refunds[r].amountMinor else 0
  }

  function VatIn(db: Db): nat -> int {
    (o: nat) => if o < |db.orders| then db.orders[o].priced.vatMinor else 0
  }

  function TotalIn(db: Db): nat -> int {
    (o: nat) => if o < |db.orders| then Total(db.orders[o]) else 0
  }

  function ItemKey(): PricedLine -> (string, string) {
    (line: PricedLine) => (line.menuItemId, line.name)
  }

  function Quantity(): PricedLine -> int {
    (line: PricedLine) => line.quantity
  }

  function ItemRevenue(): RollupItem -> int {
    (item: RollupItem) => item.revenueMinor
  }

  // ----- The five queries -----

  function ItemOf(g: Group2<(string, string)>): RollupItem {
    RollupItem(g.key.0, g.key.1, g.first, g.second)
  }

  function GroupOf(item: RollupItem): Group2<(string, string)> {
    Group2((item.menuItemId, item.name), item.quantity, item.revenueMinor)
  }

  function GroupsOf(items: seq<RollupItem>): seq<Group2<(string, string)>> {
    seq(|items|, i requires 0 <= i < |items| => GroupOf(items[i]))
  }

  ghost predicate ItemsAre(lines: seq<PricedLine>, items: seq<RollupItem>) {
    IsGrouping2(lines, ItemKey(), Quantity(), LineTotal(), GroupsOf(items))
  }

  /** `parts` is what the five queries may return for the day. */
  ghost predicate IsAggregate(db: Db, day: int, parts: Parts) {
    && IsGrouping(DayOrders(db, day), StatusIn(db), One<nat>(), parts.statusCounts)
    && IsGrouping(PaidPayments(db, day), RailIn(db), AmountIn(db), parts.revenueByMethod)
    && parts.refundsMinor == SumOf(DayRefunds(db, day), RefundAmountIn(db))
    && ItemsAre(LinesOf(db, SettledOrders(db, day)), parts.items)
    && parts.vatMinor == SumOf(SettledOrders(db, day), VatIn(db))
    && parts.ordersSettled == |SettledOrders(db, day)|
  }

  function AggregateDay(db: Db, day: int): Parts {
    var sold := GroupBy2(LinesOf(db, SettledOrders(db, day)), ItemKey(), Quantity(), LineTotal());
    Parts(GroupBy(DayOrders(db, day), StatusIn(db), One<nat>()),
          GroupBy(PaidPayments(db, day), RailIn(db), AmountIn(db)),
          SumOf(DayRefunds(db, day), RefundAmountIn(db)),
          SumOf(SettledOrders(db, day), VatIn(db)),
          |SettledOrders(db, day)|,
          seq(|sold|, i requires 0 <= i < |sold| => ItemOf(sold[i])))
  }

  lemma AggregateDayIs(db: Db, day: int)
    ensures IsAggregate(db, day, AggregateDay(db, day))
  {
    GroupByIsGrouping(DayOrders(db, day), StatusIn(db), One<nat>());
    GroupByIsGrouping(PaidPayments(db, day), RailIn(db), AmountIn(db));
    var lines := LinesOf(db, SettledOrders(db, day));
    var sold := GroupBy2(lines, ItemKey(), Quantity(), LineTotal());
    GroupBy2IsGrouping(lines, ItemKey(), Quantity(), LineTotal());
    assert GroupsOf(AggregateDay(db, day).items) == sold;
  }

  /** Two answers to the item query list the same items. */
  lemma ItemsUnique(lines: seq<PricedLine>, a: seq<RollupItem>, b: seq<RollupItem>)
    requires ItemsAre(lines, a) && ItemsAre(lines, b)
    ensures multiset(a) == multiset(b)
  {
    ItemsIncluded(lines, a, b);
    ItemsIncluded(lines, b, a);
    ItemsDistinct(lines, a);
    ItemsDistinct(lines, b);
    SameElementsPermute(a, b);
  }

  lemma ItemsDistinct(lines: seq<PricedLine>, a: seq<RollupItem>)
    requires ItemsAre(lines, a)
    ensures Unique(a)
  {
    Groups2Unique(lines, ItemKey(), Quantity(), LineTotal(), GroupsOf(a));
    forall i, j | 0 <= i < j < |a| ensures a[i] != a[j] {
      assert GroupsOf(a)[i] != GroupsOf(a)[j];
    }
  }

  lemma ItemsIncluded(lines: seq<PricedLine>, a: seq<RollupItem>, b: seq<RollupItem>)
    requires ItemsAre(lines, a) && ItemsAre(lines, b)
    ensures forall x :: x in a ==> x in b
  {
    Groups2Included(lines, ItemKey(), Quantity(), LineTotal(), GroupsOf(a), GroupsOf(b));
    forall i | 0 <= i < |a| ensures a[i] in b {
      assert GroupsOf(a)[i] in GroupsOf(b);
      var j :| 0 <= j < |b| && GroupsOf(b)[j] == GroupsOf(a)[i];
      assert b[j] == a[i];
    }
  }
}

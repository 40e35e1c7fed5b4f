/** Assembling one day's report row from its aggregates, and saying what a re-roll changed. */
module RollupRow {
  import opened Wrappers
  import opened OrderState
  import opened Sums
  import opened Queries
  import opened Tables
  import opened DayAggregate

  datatype Row = Row(businessDay: int, ordersCompleted: int, ordersRefunded: int, ordersCancelled: int, ordersExpired: int,
                     ordersSettled: nat, revenueMinor: int, revenueByMethod: map<MethodLabel, int>, refundsMinor: int,
                     vatMinor: int, topItems: seq<RollupItem>)

  /** The keys of the breakdown. */
  datatype MethodLabel = CARD | PROMPTPAY | CASH | UNKNOWN

  /** The bucket a rail is reported under; money whose rail was never resolved still has one. */
  function Label(rail: Option<PaymentMethod>): MethodLabel {
    match rail
    case None => UNKNOWN
    case Some(Card) => CARD
    case Some(PromptPay) => PROMPTPAY
    case Some(CashInHand) => CASH
  }

  function CountOf(counts: seq<Group<OrderStatus>>, status: OrderStatus): int {
    if counts == [] then 0
    else if counts[|counts| - 1].key == status then counts[|counts| - 1].total
    else CountOf(counts[..|counts| - 1], status)
  }

  function Labels(rows: seq<Group<Option<PaymentMethod>>>): set<MethodLabel> {
    set g | g in rows :: Label(g.key)
  }

  function Labelled(bucket: MethodLabel): Group<Option<PaymentMethod>> -> int {
    (g: Group<Option<PaymentMethod>>) => if Label(g.key) == bucket then g.total else 0
  }

  /** Each label with the sum of everything reported under it. */
  function LabelTotals(rows: seq<Group<Option<PaymentMethod>>>): map<MethodLabel, int> {
    map l | l in Labels(rows) :: SumOf(rows, Labelled(l))
  }

  // ----- The order of the leaderboard -----

  /** The comparator: more sold first, then by name in the collation's order. */
  predicate Precedes(a: RollupItem, b: RollupItem, collate: string -> real) {
    a.quantity > b.quantity || (a.quantity == b.quantity && collate(a.name) <= collate(b.name))
  }

  predicate SortedItems(items: seq<RollupItem>, collate: string -> real) {
    forall i, j :: 0 <= i < j < |items| ==> Precedes(items[i], items[j], collate)
  }

  /** A stable sort by the comparator. */
  function SortItems(items: seq<RollupItem>, collate: string -> real): (r: seq<RollupItem>)
    ensures multiset(r) == multiset(items) && SortedItems(r, collate)
  {
    if items == [] then [] else
      var init, last := items[..|items| - 1], items[|items| - 1];
      DropLast(items);
      InsertItemIs(SortItems(init, collate), last, collate);
      InsertItem(SortItems(init, collate), last, collate)
  }

  function InsertItem(sorted: seq<RollupItem>, x: RollupItem, collate: string -> real): seq<RollupItem> {
    if sorted == [] || Precedes(sorted[|sorted| - 1], x, collate) then sorted + [x]
    else InsertItem(sorted[..|sorted| - 1], x, collate) + [sorted[|sorted| - 1]]
  }

  lemma {:induction false} InsertItemIs(sorted: seq<RollupItem>, x: RollupItem, collate: string -> real)
    requires SortedItems(sorted, collate)
    ensures multiset(InsertItem(sorted, x, collate)) == multiset(sorted) + multiset{x} && SortedItems(InsertItem(sorted, x, collate), collate)
  {
    if sorted != [] && !Precedes(sorted[|sorted| - 1], x, collate) {
      var init, last := sorted[..|sorted| - 1], sorted[|sorted| - 1];
      InsertItemIs(init, x, collate);
      DropLast(sorted);
      var rest := InsertItem(init, x, collate);
      forall i | 0 <= i < |rest| ensures Precedes(rest[i], last, collate) {
        assert rest[i] in multiset(rest);
        BeforeLast(sorted, x, rest[i], collate);
      }
      EndsSorted(rest, last, collate);
    } else {
      FollowsAll(sorted, x, collate);
      EndsSorted(sorted, x, collate);
    }
  }

  lemma FollowsAll(sorted: seq<RollupItem>, x: RollupItem, collate: string -> real)
    requires SortedItems(sorted, collate) && (sorted == [] || Precedes(sorted[|sorted| - 1], x, collate))
    ensures forall i :: 0 <= i < |sorted| ==> Precedes(sorted[i], x, collate)
  {
  }

  lemma EndsSorted(items: seq<RollupItem>, last: RollupItem, collate: string -> real)
    requires SortedItems(items, collate) && forall i :: 0 <= i < |items| ==> Precedes(items[i], last, collate)
    ensures SortedItems(items + [last], collate)
  {
  }

  lemma BeforeLast(sorted: seq<RollupItem>, x: RollupItem, y: RollupItem, collate: string -> real)
    requires sorted != [] && SortedItems(sorted, collate) && !Precedes(sorted[|sorted| - 1], x, collate)
    requires y in multiset(sorted[..|sorted| - 1]) + multiset{x}
    ensures Precedes(y, sorted[|sorted| - 1], collate)
  {
    if y != x {
      var i :| 0 <= i < |sorted| - 1 && sorted[..|sorted| - 1][i] == y;
    }
  }

  // ----- The row -----

  function RowOf(day: int, parts: Parts, collate: string -> real): Row {
    Row(day, CountOf(parts.statusCounts, Completed), CountOf(parts.statusCounts, Refunded),
        CountOf(parts.statusCounts, OrderStatus.Cancelled), CountOf(parts.statusCounts, OrderStatus.Expired),
        parts.ordersSettled, SumOf(parts.revenueByMethod, TotalOf()), LabelTotals(parts.revenueByMethod),
        parts.refundsMinor, parts.vatMinor, SortItems(parts.items, collate))
  }

  function ValueIn(record: map<MethodLabel, int>): MethodLabel -> int {
    (k: MethodLabel) => if k in record then record[k] else 0
  }

  /** The record and its keys in insertion order hold exactly the given rows. */
  ghost predicate Filled(record: map<MethodLabel, int>, keys: seq<MethodLabel>, rows: seq<Group<Option<PaymentMethod>>>) {
    && record == LabelTotals(rows)
    && (forall k :: k in keys <==> k in record)
    && Unique(keys)
    && SumOf(keys, ValueIn(record)) == SumOf(rows, TotalOf())
  }

  /** Fills the breakdown bucket by bucket. `keys` are the record's keys in insertion order. */
  method FillBuckets(rows: seq<Group<Option<PaymentMethod>>>) returns (record: map<MethodLabel, int>, keys: seq<MethodLabel>)
    ensures Filled(record, keys, rows)
  {
    record, keys := map[], [];
    assert Labels([]) == {};
    for i := 0 to |rows|
      invariant Filled(record, keys, rows[..i])
    {
      var key := Label(rows[i].key);
      assert rows[..i + 1] == rows[..i] + [rows[i]];
      if key in record {
        BucketAdded(record, keys, rows[..i], rows[i]);
        record := record[key := record[key] + rows[i].total];
      } else {
        BucketOpened(record, keys, rows[..i], rows[i]);
        record, keys := record[key := rows[i].total], keys + [key];
      }
    }
    assert rows[..|rows|] == rows;
  }

  /** Revenue is taken from the filled record itself. */
  method BuildRollupRow(day: int, parts: Parts, collate: string -> real) returns (row: Row)
    ensures row == RowOf(day, parts, collate)
  {
    var record, keys := FillBuckets(parts.revenueByMethod);
    row := Row(day, CountOf(parts.statusCounts, Completed), CountOf(parts.statusCounts, Refunded),
               CountOf(parts.statusCounts, OrderStatus.Cancelled), CountOf(parts.statusCounts, OrderStatus.Expired),
               parts.ordersSettled, SumOf(keys, ValueIn(record)), record, parts.refundsMinor, parts.vatMinor,
               SortItems(parts.items, collate));
  }

  lemma BucketAdded(record: map<MethodLabel, int>, keys: seq<MethodLabel>, rows: seq<Group<Option<PaymentMethod>>>, g: Group<Option<PaymentMethod>>)
    requires Filled(record, keys, rows) && Label(g.key) in record
    ensures Filled(record[Label(g.key) := record[Label(g.key)] + g.total], keys, rows + [g])
  {
    var key, all := Label(g.key), rows + [g];
    LabelTotalsStep(rows, g);
    var after := record[key := record[key] + g.total];
    assert after == LabelTotals(all);
    BucketGrows(keys, record, key, g.total);
    AppendSum(rows, g, TotalOf());
    assert key in keys;
  }

  lemma BucketOpened(record: map<MethodLabel, int>, keys: seq<MethodLabel>, rows: seq<Group<Option<PaymentMethod>>>, g: Group<Option<PaymentMethod>>)
    requires Filled(record, keys, rows) && Label(g.key) !in record
    ensures Filled(record[Label(g.key) := g.total], keys + [Label(g.key)], rows + [g])
  {
    var key := Label(g.key);
    var after, more := record[key := g.total], keys + [key];
    LabelTotalsStep(rows, g);
    assert after == LabelTotals(rows + [g]);
    SumCongruent(keys, ValueIn(record), ValueIn(after));
    AppendSum(keys, key, ValueIn(after));
    AppendSum(rows, g, TotalOf());
  }

  lemma LabelTotalsStep(rows: seq<Group<Option<PaymentMethod>>>, g: Group<Option<PaymentMethod>>)
    ensures var k := Label(g.key); var before := LabelTotals(rows);
            LabelTotals(rows + [g]) == before[k := (if k in before then before[k] else 0) + g.total]
  {
    var k, all := Label(g.key), rows + [g];
    LabelsStep(rows, g);
    forall l ensures SumOf(all, Labelled(l)) == SumOf(rows, Labelled(l)) + if l == k then g.total else 0 {
      assert all[..|rows|] == rows;
    }
    if k !in Labels(rows) {
      NothingLabelled(rows, k);
    }
  }

  lemma LabelsStep(rows: seq<Group<Option<PaymentMethod>>>, g: Group<Option<PaymentMethod>>)
    ensures Labels(rows + [g]) == Labels(rows) + {Label(g.key)}
  {
    assert forall x :: x in rows + [g] <==> x in rows || x == g;
  }

  lemma NothingLabelled(rows: seq<Group<Option<PaymentMethod>>>, k: MethodLabel)
    requires k !in Labels(rows)
    ensures SumOf(rows, Labelled(k)) == 0
  {
    forall i | 0 <= i < |rows| ensures Label(rows[i].key) != k {
      assert rows[i] in rows;
      assert Label(rows[i].key) in Labels(rows);
    }
    AllZero(rows, Labelled(k));
  }

  lemma {:induction false} BucketGrows(keys: seq<MethodLabel>, record: map<MethodLabel, int>, key: MethodLabel, amount: int)
    requires Unique(keys) && (forall k :: k in keys ==> k in record) && key in record
    ensures SumOf(keys, ValueIn(record[key := record[key] + amount])) ==
            SumOf(keys, ValueIn(record)) + if key in keys then amount else 0
  {
    if keys != [] {
      var init, last := keys[..|keys| - 1], keys[|keys| - 1];
      assert keys == init + [last];
      BucketGrows(init, record, key, amount);
      assert last !in init;
    }
  }

  // ----- What a re-roll changed -----

  datatype Field = OrdersCompleted | OrdersRefunded | OrdersCancelled | OrdersExpired | OrdersSettled | RevenueMinor | RefundsMinor | VatMinor

  const COMPARED_FIELDS := [OrdersCompleted, OrdersRefunded, OrdersCancelled, OrdersExpired, OrdersSettled, RevenueMinor, RefundsMinor, VatMinor]

  datatype Change = Change(field: Field, was: int, now: int)

  function FieldOf(row: Row, field: Field): int {
    match field
    case OrdersCompleted => row.ordersCompleted
    case OrdersRefunded => row.ordersRefunded
    case OrdersCancelled => row.ordersCancelled
    case OrdersExpired => row.ordersExpired
    case OrdersSettled => row.ordersSettled
    case RevenueMinor => row.revenueMinor
    case RefundsMinor => row.refundsMinor
    case VatMinor => row.vatMinor
  }

  function Changes(fields: seq<Field>, previous: Row, next: Row): seq<Change> {
    if fields == [] then [] else
      var f := fields[|fields| - 1];
      Changes(fields[..|fields| - 1], previous, next)
      + if FieldOf(previous, f) != FieldOf(next, f) then [Change(f, FieldOf(previous, f), FieldOf(next, f))] else []
  }

  /** What re-rolling changed, or nothing when the compared numbers came out identical. */
  function DescribeCorrection(previous: Row, next: Row): Option<seq<Change>> {
    var moved := Changes(COMPARED_FIELDS, previous, next);
    if moved == [] then None else Some(moved)
  }

  lemma {:induction false} NoChanges(fields: seq<Field>, previous: Row, next: Row)
    ensures Changes(fields, previous, next) == [] <==> forall f :: f in fields ==> FieldOf(previous, f) == FieldOf(next, f)
  {
    if fields != [] {
      NoChanges(fields[..|fields| - 1], previous, next);
      assert fields == fields[..|fields| - 1] + [fields[|fields| - 1]];
    }
  }

  lemma EveryFieldCompared(f: Field)
    ensures f in COMPARED_FIELDS
  {
    var c := COMPARED_FIELDS;
    match f
    case OrdersCompleted => assert c[0] == f;
    case OrdersRefunded => assert c[1] == f;
    case OrdersCancelled => assert c[2] == f;
    case OrdersExpired => assert c[3] == f;
    case OrdersSettled => assert c[4] == f;
    case RevenueMinor => assert c[5] == f;
    case RefundsMinor => assert c[6] == f;
    case VatMinor => assert c[7] == f;
  }

  /** Silence means every scalar agrees. */
  lemma SilentIff(previous: Row, next: Row)
    ensures DescribeCorrection(previous, next).None? <==> forall f :: FieldOf(previous, f) == FieldOf(next, f)
  {
    NoChanges(COMPARED_FIELDS, previous, next);
    forall f: Field ensures f in COMPARED_FIELDS {
      EveryFieldCompared(f);
    }
  }
}

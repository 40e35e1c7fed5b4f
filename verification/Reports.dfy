/** The read side of reporting: hourly buckets and average tickets. */
module Reports {
  import opened Wrappers
  import opened Queries
  import opened Tables
  import opened DayAggregate
  import opened RollupRow
  import Vat

  datatype SalesBucket = SalesBucket(day: int, hour: Option<int>, revenueMinor: int, ordersSettled: int, avgTicketMinor: Option<int>)

  /** Revenue per sale to the nearest unit; a day without sales has no average. */
  function AvgTicketMinor(revenueMinor: int, ordersSettled: int): Option<int> {
    if ordersSettled <= 0 then None else Some(Vat.RoundHalfUp(revenueMinor, ordersSettled))
  }

  function DayBucket(day: int, row: Row): SalesBucket {
    SalesBucket(day, None, row.revenueMinor, row.ordersSettled, AvgTicketMinor(row.revenueMinor, row.ordersSettled))
  }

  function SettledBetween(db: Db, from: int, to: int): nat -> bool {
    (o: nat) => o < |db.orders| && from <= db.orders[o].businessDay <= to && Settled(db, o)
  }

  datatype HourLabel = HourLabel(day: int, hour: int)

  /** An hour after midnight still belongs to the business day before it. */
  function HourKey(db: Db): nat -> HourLabel {
    (o: nat) => if o < |db.orders| then HourLabel(db.orders[o].businessDay, db.orders[o].hour) else HourLabel(0, 0)
  }

  function HourBucket(g: Group2<HourLabel>): SalesBucket {
    SalesBucket(g.key.day, Some(g.key.hour), g.first, g.second, AvgTicketMinor(g.first, g.second))
  }

  function HourGroups(db: Db, from: int, to: int): seq<Group2<HourLabel>> {
    GroupBy2(Select(|db.orders|, SettledBetween(db, from, to)), HourKey(db), TotalIn(db), One<nat>())
  }

  function HourlyBuckets(db: Db, from: int, to: int): seq<SalesBucket> {
    var groups := HourGroups(db, from, to);
    seq(|groups|, i requires 0 <= i < |groups| => HourBucket(groups[i]))
  }

  function RevenueOn(day: int): SalesBucket -> int {
    (b: SalesBucket) => if b.day == day then b.revenueMinor else 0
  }

  function SettledCountOn(day: int): SalesBucket -> int {
    (b: SalesBucket) => if b.day == day then b.ordersSettled else 0
  }
}

/**
 Totals for a range of days: a finalized row where there is one, and what the
 queries return now where there is not. `live` is that answer, day by day, each
 from the tables as they were when its turn came.
 */
module DayTotals {
  import opened Wrappers
  import opened Queries
  import opened DayAggregate
  import opened RollupRow
  import opened Rollup
  import opened TopItems

  const MAX_LIVE_DAYS := 31

  // ----- The request -----

  /** The finalized rows of the days from `from` to `until`. */
  function StoredBetween(rollups: map<int, Stored>, from: int, until: int): seq<int>
    decreases until - from
  {
    if from > until then [] else (if Finalized(rollups, from) then [from] else []) + StoredBetween(rollups, from + 1, until)
  }

  lemma {:induction false} StoredBetweenIs(rollups: map<int, Stored>, from: int, until: int)
    ensures forall d :: d in StoredBetween(rollups, from, until) <==> from <= d <= until && Finalized(rollups, d)
    decreases until - from
  {
    if from <= until {
      StoredBetweenIs(rollups, from + 1, until);
    }
  }

  /** A day the range query answers: finalized, and between the first and last day asked for. */
  predicate Answered(rollups: map<int, Stored>, days: seq<int>, day: int) {
    days != [] && days[0] <= day <= days[|days| - 1] && Finalized(rollups, day)
  }

  function MissingFrom(rollups: map<int, Stored>, days: seq<int>): nat -> bool {
    (i: nat) => i < |days| && !Answered(rollups, days, days[i])
  }

  /** How many of the requested days have no usable row. */
  function MissingCount(rollups: map<int, Stored>, days: seq<int>): nat {
    |Select(|days|, MissingFrom(rollups, days))|
  }

  function TotalsOf(rollups: map<int, Stored>, live: int -> Parts, days: seq<int>, day: int, collate: string -> real): Row {
    if Answered(rollups, days, day) then rollups[day].row else RowOf(day, live(day), collate)
  }

  ghost predicate Ascending(days: seq<int>) {
    forall i, j :: 0 <= i < j < |days| ==> days[i] < days[j]
  }

  /** Over days in order, a final row is what is reported, and only a day without one is computed; up to 31 of those. */
  lemma RangeIsStored(rollups: map<int, Stored>, live: int -> Parts, days: seq<int>, missing: nat -> bool, collate: string -> real)
    requires Ascending(days)
    requires forall i: nat :: i < |days| ==> (missing(i) <==> !(days[i] in rollups && rollups[days[i]].finalizedAt.Some?))
    ensures forall i: nat :: i < |days| ==>
              TotalsOf(rollups, live, days, days[i], collate) == if missing(i) then RowOf(days[i], live(days[i]), collate) else rollups[days[i]].row
    ensures MissingCount(rollups, days) <= MAX_LIVE_DAYS <==> |Select(|days|, missing)| <= 31
  {
    SelectSame(|days|, MissingFrom(rollups, days), missing);
  }

  /** The rows the range query brings back. */
  method StoredTotals(rollups: map<int, Stored>, from: int, until: int) returns (totals: map<int, Row>)
    ensures forall d :: d in totals <==> from <= d <= until && Finalized(rollups, d)
    ensures forall d :: d in totals ==> d in rollups && totals[d] == rollups[d].row
  {
    var stored := StoredBetween(rollups, from, until);
    StoredBetweenIs(rollups, from, until);
    assert forall i :: 0 <= i < |stored| ==> stored[i] in stored && Finalized(rollups, stored[i]);
    totals := map[];
    for i := 0 to |stored|
      invariant forall d :: d in totals <==> d in stored[..i]
      invariant forall d :: d in totals ==> d in rollups && totals[d] == rollups[d].row
    {
      assert stored[..i + 1] == stored[..i] + [stored[i]];
      totals := totals[stored[i] := rollups[stored[i]].row];
    }
    assert stored[..|stored|] == stored;
  }

  /** Every missing day, aggregated live. */
  method FillLive(stored: map<int, Row>, live: int -> Parts, missing: seq<int>, collate: string -> real) returns (totals: map<int, Row>)
    requires forall i :: 0 <= i < |missing| ==> missing[i] !in stored
    ensures forall d :: d in totals <==> d in stored || d in missing
    ensures forall d :: d in totals ==> totals[d] == if d in stored then stored[d] else RowOf(d, live(d), collate)
  {
    totals := stored;
    for i := 0 to |missing|
      invariant forall d :: d in totals <==> d in stored || d in missing[..i]
      invariant forall d :: d in totals ==> totals[d] == if d in stored then stored[d] else RowOf(d, live(d), collate)
    {
      assert missing[..i + 1] == missing[..i] + [missing[i]];
      var row := BuildRollupRow(missing[i], live(missing[i]), collate);
      totals := totals[missing[i] := row];
    }
    assert missing[..|missing|] == missing;
  }

  function DaysAt(days: seq<int>, ids: seq<nat>): seq<int>
    requires forall i :: 0 <= i < |ids| ==> ids[i] < |days|
  {
    seq(|ids|, i requires 0 <= i < |ids| => days[ids[i]])
  }

  method DayTotals(rollups: map<int, Stored>, live: int -> Parts, days: seq<int>, collate: string -> real) returns (r: Result<map<int, Row>, string>)
    ensures r.Ok? <==> MissingCount(rollups, days) <= MAX_LIVE_DAYS
    ensures r.Err? ==> r.error == "DEPENDENCY_UNAVAILABLE"
    ensures r.Ok? ==> forall d :: d in days ==> d in r.value && r.value[d] == TotalsOf(rollups, live, days, d, collate)
  {
    if days == [] {
      return Ok(map[]);
    }
    var stored := StoredTotals(rollups, days[0], days[|days| - 1]);
    var ids := Select(|days|, MissingFrom(rollups, days));
    SelectIs(|days|, MissingFrom(rollups, days));
    if |ids| > MAX_LIVE_DAYS {
      return Err("DEPENDENCY_UNAVAILABLE");
    }
    var missing := DaysAt(days, ids);
    var totals := FillLive(stored, live, missing, collate);
    forall d | d in days ensures d in totals {
      var i :| 0 <= i < |days| && days[i] == d;
      if MissingFrom(rollups, days)(i) {
        var j :| 0 <= j < |ids| && ids[j] == i;
        assert missing[j] == d;
      }
    }
    r := Ok(totals);
  }

  // ----- The leaderboard of a range -----

  /** The item lists a range is merged from. */
  function Reported(rollups: map<int, Stored>, live: int -> Parts, days: seq<int>, collate: string -> real): seq<DayItems> {
    seq(|days|, i requires 0 <= i < |days| => DayItems(days[i], TotalsOf(rollups, live, days, days[i], collate).topItems))
  }

  /** Refused exactly when the totals are; otherwise everything the range sold is merged and ranked before it is cut. */
  method TopItemsReport(rollups: map<int, Stored>, live: int -> Parts, days: seq<int>, limit: nat, collate: string -> real)
      returns (r: Result<seq<RollupItem>, string>)
    ensures r.Err? <==> MissingCount(rollups, days) > MAX_LIVE_DAYS
    ensures r.Err? ==> r.error == "DEPENDENCY_UNAVAILABLE"
    ensures r.Ok? ==> Leads(Entries(Reported(rollups, live, days, collate)), r.value, limit, collate)
  {
    var totals := DayTotals(rollups, live, days, collate);
    if totals.Err? {
      return Err(totals.error);
    }
    assert forall i :: 0 <= i < |days| ==> days[i] in days;
    var items := ItemsOf(totals.value, days);
    assert items == Reported(rollups, live, days, collate);
    var top := MergeTopItems(items, limit, collate);
    r := Ok(top);
  }

  function ItemsOf(totals: map<int, Row>, days: seq<int>): seq<DayItems>
    requires forall i :: 0 <= i < |days| ==> days[i] in totals
  {
    seq(|days|, i requires 0 <= i < |days| => DayItems(days[i], totals[days[i]].topItems))
  }
}

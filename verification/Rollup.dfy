/**
 The nightly rollup: a table of final rows, one for a day, a short window of days
 that every night writes anew, and a longer one in which days that have no row yet
 get theirs.
 */
module Rollup {
  import opened Wrappers
  import opened Queries
  import opened Tables
  import opened DayAggregate
  import opened RollupRow

  datatype Stored = Stored(row: Row, finalizedAt: Option<int>)

  const CATCH_UP_DAYS := 30
  const REROLL_DAYS := 3

  predicate Traded(db: Db, day: int) {
    exists o :: 0 <= o < |db.orders| && db.orders[o].businessDay == day
  }

  predicate Finalized(rollups: map<int, Stored>, day: int) {
    day in rollups && rollups[day].finalizedAt.Some?
  }

  // ----- Which days a night visits -----

  predicate NeedsRoll(db: Db, rollups: map<int, Stored>, target: int, day: int) {
    && target - CATCH_UP_DAYS <= day < target
    && Traded(db, day)
    && (target - REROLL_DAYS <= day || !Finalized(rollups, day))
  }

  function NeedingFrom(db: Db, rollups: map<int, Stored>, target: int, day: int): seq<int>
    decreases target - day
  {
    if day >= target then []
    else (if NeedsRoll(db, rollups, target, day) then [day] else []) + NeedingFrom(db, rollups, target, day + 1)
  }

  /** The days a night adds to its target, oldest first. */
  function DaysNeedingRoll(db: Db, rollups: map<int, Stored>, target: int): seq<int> {
    NeedingFrom(db, rollups, target, target - CATCH_UP_DAYS)
  }

  lemma {:induction false} NeedingFromIs(db: Db, rollups: map<int, Stored>, target: int, from: int)
    requires from >= target - CATCH_UP_DAYS
    ensures forall day :: day in NeedingFrom(db, rollups, target, from) <==> from <= day && NeedsRoll(db, rollups, target, day)
    decreases target - from
  {
    if from < target {
      NeedingFromIs(db, rollups, target, from + 1);
    }
  }

  // ----- What a night does -----

  /**
   The table after rolling `days` in turn. `rows` is what each day's queries came
   to when its turn came, `fails` says where something went wrong, and a day that
   has not closed yet is refused.
   */
  function Rolled(rollups: map<int, Stored>, days: seq<int>, rows: int -> Row, fails: int -> bool, current: int, now: int): map<int, Stored> {
    if days == [] then rollups else
      var day := days[|days| - 1];
      var before := Rolled(rollups, days[..|days| - 1], rows, fails, current, now);
      if day >= current || fails(day) then before
      else before[day := Stored(rows(day), Some(now))]
  }

  function Succeeds(days: seq<int>, fails: int -> bool, current: int): nat -> bool {
    (i: nat) => i < |days| && days[i] < current && !fails(days[i])
  }

  /** One night: the target, then every other day that needs it. */
  function Night(rollups: map<int, Stored>, db: Db, target: int, rows: int -> Row, fails: int -> bool, current: int, now: int): map<int, Stored> {
    Rolled(rollups, [target] + DaysNeedingRoll(db, rollups, target), rows, fails, current, now)
  }

  /** The rows that the queries' answers come to. */
  function RowsOf(answers: int -> Parts, collate: string -> real): int -> Row {
    (day: int) => RowOf(day, answers(day), collate)
  }

  class DailyRollups {
    var rollups: map<int, Stored>

    constructor ()
      ensures rollups == map[]
    {
      rollups := map[];
    }

    /** Stores a closed day's row as final, and says what that changed about a row that was final already. */
    method RollDay(day: int, parts: Parts, fails: bool, current: int, now: int, collate: string -> real)
        returns (r: Result<Row, string>, correction: Option<seq<Change>>)
      modifies this
      ensures r.Ok? <==> day < current && !fails
      ensures r.Ok? ==> r.value == RowOf(day, parts, collate) && rollups == old(rollups)[day := Stored(r.value, Some(now))]
      ensures r.Err? ==> rollups == old(rollups) && r.error == if day >= current then "BUSINESS_DAY_NOT_CLOSED" else "UNAVAILABLE"
      ensures correction == if r.Ok? && old(Finalized(rollups, day)) then DescribeCorrection(old(rollups)[day].row, RowOf(day, parts, collate)) else None
    {
      if day >= current {
        return Err("BUSINESS_DAY_NOT_CLOSED"), None;
      }
      if fails {
        return Err("UNAVAILABLE"), None;
      }
      var previous := if day in rollups then Some(rollups[day]) else None;
      var row := BuildRollupRow(day, parts, collate);
      rollups := rollups[day := Stored(row, Some(now))];
      correction := if previous.Some? && previous.value.finalizedAt.Some? then DescribeCorrection(previous.value.row, row) else None;
      r := Ok(row);
    }

    /** One day of a night; a failure is caught. */
    method TryRoll(day: int, answers: int -> Parts, fails: int -> bool, current: int, now: int, collate: string -> real) returns (ok: bool)
      modifies this
      ensures ok <==> day < current && !fails(day)
      ensures rollups == if ok then old(rollups)[day := Stored(RowsOf(answers, collate)(day), Some(now))] else old(rollups)
    {
      var r, _ := RollDay(day, answers(day), fails(day), current, now, collate);
      ok := r.Ok?;
    }

    /** A day that fails leaves its own row as it was and the days after it to be rolled. */
    method RollDays(days: seq<int>, answers: int -> Parts, fails: int -> bool, current: int, now: int, collate: string -> real)
        returns (rolled: nat, failed: nat)
      modifies this
      ensures rollups == Rolled(old(rollups), days, RowsOf(answers, collate), fails, current, now)
      ensures rolled == |Select(|days|, Succeeds(days, fails, current))|
      ensures rolled + failed == |days|
    {
      rolled, failed := 0, 0;
      for i := 0 to |days|
        invariant rollups == Rolled(old(rollups), days[..i], RowsOf(answers, collate), fails, current, now)
        invariant rolled == |Select(i, Succeeds(days, fails, current))|
        invariant rolled + failed == i
      {
        RolledStep(old(rollups), days, i, RowsOf(answers, collate), fails, current, now);
        var ok := TryRoll(days[i], answers, fails, current, now, collate);
        if ok {
          rolled := rolled + 1;
        } else {
          failed := failed + 1;
        }
      }
      assert days[..|days|] == days;
    }

    method RollUpYesterday(db: Db, target: int, answers: int -> Parts, fails: int -> bool, current: int, now: int, collate: string -> real)
        returns (rolled: nat, failed: nat)
      modifies this
      ensures rollups == Night(old(rollups), db, target, RowsOf(answers, collate), fails, current, now)
      ensures rolled + failed == 1 + |DaysNeedingRoll(db, old(rollups), target)|
      ensures var days := [target] + DaysNeedingRoll(db, old(rollups), target); rolled == |Select(|days|, Succeeds(days, fails, current))|
    {
      rolled, failed := RollDays([target] + DaysNeedingRoll(db, rollups, target), answers, fails, current, now, collate);
    }
  }

  lemma RolledStep(rollups: map<int, Stored>, days: seq<int>, i: nat, rows: int -> Row, fails: int -> bool, current: int, now: int)
    requires i < |days|
    ensures var before := Rolled(rollups, days[..i], rows, fails, current, now);
            Rolled(rollups, days[..i + 1], rows, fails, current, now) ==
            if days[i] >= current || fails(days[i]) then before else before[days[i] := Stored(rows(days[i]), Some(now))]
  {
    assert days[..i + 1][..i] == days[..i];
  }

  // ----- What a night leaves behind -----

  lemma {:induction false} RolledIs(rollups: map<int, Stored>, days: seq<int>, rows: int -> Row, fails: int -> bool, current: int, now: int, day: int)
    ensures var after := Rolled(rollups, days, rows, fails, current, now);
            if day in days && day < current && !fails(day) then day in after && after[day] == Stored(rows(day), Some(now))
            else (day in after <==> day in rollups) && (day in rollups ==> after[day] == rollups[day])
  {
    if days != [] {
      var n := |days| - 1;
      RolledIs(rollups, days[..n], rows, fails, current, now, day);
      RolledStep(rollups, days, n, rows, fails, current, now);
      assert days[..n + 1] == days;
      assert day in days <==> day in days[..n] || day == days[n];
    }
  }

  predicate Visits(db: Db, rollups: map<int, Stored>, target: int, day: int) {
    day == target || NeedsRoll(db, rollups, target, day)
  }

  /** Day by day: a day the night visits without failing holds its new row, and every other row is untouched. */
  lemma NightIs(rollups: map<int, Stored>, db: Db, target: int, rows: int -> Row, fails: int -> bool, now: int, day: int)
    ensures var after := Night(rollups, db, target, rows, fails, target + 1, now);
            if Visits(db, rollups, target, day) && !fails(day) then day in after && after[day] == Stored(rows(day), Some(now))
            else (day in after <==> day in rollups) && (day in rollups ==> after[day] == rollups[day])
  {
    NeedingFromIs(db, rollups, target, target - CATCH_UP_DAYS);
    var days := [target] + DaysNeedingRoll(db, rollups, target);
    assert day in days <==> Visits(db, rollups, target, day);
    RolledIs(rollups, days, rows, fails, target + 1, now, day);
  }

  /**
   What a night writes, in days: its target, every traded day of the three before it,
   and every traded day of the thirty before it that has no final row; each unless it
   failed. It writes a final row and leaves every other row as it was.
   */
  lemma NightWrites(rollups: map<int, Stored>, db: Db, target: int, rows: int -> Row, fails: int -> bool, now: int, day: int)
    ensures var after := Night(rollups, db, target, rows, fails, target + 1, now);
            var traded := exists o :: 0 <= o < |db.orders| && db.orders[o].businessDay == day;
            var final := day in rollups && rollups[day].finalizedAt.Some?;
            if !fails(day) && (day == target || (traded && target - 30 <= day < target && (target - 3 <= day || !final)))
            then day in after && after[day].row == rows(day) && after[day].finalizedAt == Some(now)
            else (day in after <==> day in rollups) && (day in rollups ==> after[day] == rollups[day])
  {
    NightIs(rollups, db, target, rows, fails, now, day);
  }

  /**
   After one night, every traded day of the last three that did not fail holds its
   new row, and every traded day of the last thirty that did not fail is finalized.
   */
  lemma NightRefreshesWindow(rollups: map<int, Stored>, db: Db, target: int, rows: int -> Row, fails: int -> bool, now: int, day: int)
    requires Traded(db, day) && !fails(day)
    ensures var after := Night(rollups, db, target, rows, fails, target + 1, now);
            && (target - REROLL_DAYS <= day <= target ==> Finalized(after, day) && after[day].row == rows(day))
            && (target - CATCH_UP_DAYS <= day <= target ==> Finalized(after, day))
  {
    NightIs(rollups, db, target, rows, fails, now, day);
  }
}

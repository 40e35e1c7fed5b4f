/**
 Why a stored day needs a run that no straggler overtook: two instances roll the
 same day, and the older reading is written last.
 */
module Straggler {
  import opened Wrappers
  import opened Queries
  import opened Tables
  import opened Protocol
  import opened Theorems
  import opened DayAggregate
  import opened RollupRow
  import opened Rollup
  import opened CorrectionTheorems
  import opened Nights
  import S = SilentCapture

  /** A day with one order, and nothing else. */
  ghost predicate OneOrderDay(db: Db) {
    |db.orders| == 1 && db.orders[0].businessDay == 1
  }

  /** An order of day 1 is paid after the day was first looked at. */
  lemma PaidLater() returns (s: Sys, t: Sys)
    ensures Reachable(s) && Reaches(s, t) && OneOrderDay(s.core.db) && OneOrderDay(t.core.db)
    ensures s.core.db.payments == [] && t.core.db.payments == [S.BY_CASH]
  {
    var o := S.OneOrder();
    s := S.WithOrder(o, [], [], [], map[]);
    ReachesSelf(s);
    var loaded := S.WithOrder(o, [], [], [], map[2 := SawPayable(S.QUOTE)]);
    assert s.procs[2 := SawPayable(S.QUOTE)] == loaded.procs;
    Then(s, s, LoadOrder(2, 0), loaded);
    t := CashTaken(s, o, loaded);
  }

  lemma CashTaken(s: Sys, o: Order, loaded: Sys) returns (t: Sys)
    requires S.Unpaid(o) && loaded == S.WithOrder(o, [], [], [], map[2 := SawPayable(S.QUOTE)]) && Reaches(s, loaded)
    ensures Reaches(s, t) && |t.core.db.orders| == 1 && t.core.db.orders[0].businessDay == o.businessDay && t.core.db.payments == [S.BY_CASH]
  {
    var checked := S.WithOrder(o, [], [], [], map[2 := Payable(S.QUOTE)]);
    assert loaded.procs[2 := Payable(S.QUOTE)] == checked.procs;
    Then(s, loaded, CheckLive(2), checked);
    var db := TakeCash(checked.core.db, 0, 100, "THB", None).value;
    t := Sys(checked.core.(db := db), map[]);
    assert checked.procs - {2} == map[];
    Then(s, checked, CommitCash(2, 100, None), t);
  }

  lemma SettledChanges(before: Db, after: Db)
    requires OneOrderDay(before) && OneOrderDay(after) && before.payments == [] && after.payments == [S.BY_CASH]
    ensures SettledOrders(before, 1) == [] && SettledOrders(after, 1) != []
  {
    NothingSelected(|before.orders|, SettledOn(before, 1));
    assert after.payments[0] == S.BY_CASH;
    SelectIs(|after.orders|, SettledOn(after, 1));
    assert SettledOn(after, 1)(0);
  }

  /** Days 1 and 11, read over the given tables. */
  function Rolls(db: Db, chosen: nat, written: nat): Nightly {
    Nightly(11, 0, chosen, (d: int) => chosen, (d: int) => written, (d: int) => AggregateDay(db, d), (d: int) => false)
  }

  function BothRows(n: Nightly, collate: string -> real): map<int, Stored> {
    map[1 := RowFrom(n, 1, collate), 11 := RowFrom(n, 11, collate)]
  }

  function Line(s: Sys, t: Sys): nat -> Sys {
    (i: nat) => if i == 0 then s else t
  }

  /** Empty until the newer reading is written at 2 and the older one at 3. */
  function Table(older: Nightly, newer: Nightly, collate: string -> real): nat -> map<int, Stored> {
    (i: nat) => if i <= 2 then map[] else if i == 3 then BothRows(newer, collate) else BothRows(older, collate)
  }

  lemma BothVisit(db: Db, day: int)
    requires OneOrderDay(db)
    ensures Visits(db, map[], 11, day) <==> day == 1 || day == 11
  {
    assert Traded(db, 1);
  }

  /** Both runs have just these two days to write, the newer one at 2 and the older one at 3. */
  ghost predicate BothDue(line: nat -> Sys, older: Nightly, newer: Nightly, table: nat -> map<int, Stored>, day: int) {
    && older.writtenAt(day) == 3 && newer.writtenAt(day) == 2
    && (Writes(line, table, older, day) <==> day == 1 || day == 11)
    && (Writes(line, table, newer, day) <==> day == 1 || day == 11)
  }

  lemma LogHolds(s: Sys, t: Sys, collate: string -> real)
    requires OneOrderDay(s.core.db) && OneOrderDay(t.core.db)
    ensures var older, newer := Rolls(s.core.db, 0, 3), Rolls(t.core.db, 1, 2);
            IsLog(Line(s, t), [older, newer], Table(older, newer, collate), collate)
  {
    var older, newer := Rolls(s.core.db, 0, 3), Rolls(t.core.db, 1, 2);
    forall i: nat, day ensures Instant(Line(s, t), [older, newer], Table(older, newer, collate), i, day, collate) {
      AreDue(s, t, day, collate);
      TableSteps(older, newer, i, collate);
      if 2 <= i <= 3 && day in Table(older, newer, collate)(i) {
        TableHolds(older, newer, i, day, collate);
      }
      InstantHolds(Line(s, t), older, newer, Table(older, newer, collate), i, day, collate);
    }
    assert Table(older, newer, collate)(0) == map[];
  }

  lemma AreDue(s: Sys, t: Sys, day: int, collate: string -> real)
    requires OneOrderDay(s.core.db) && OneOrderDay(t.core.db)
    ensures var older, newer := Rolls(s.core.db, 0, 3), Rolls(t.core.db, 1, 2);
            BothDue(Line(s, t), older, newer, Table(older, newer, collate), day)
  {
    BothVisit(s.core.db, day);
    BothVisit(t.core.db, day);
  }

  lemma InstantHolds(line: nat -> Sys, older: Nightly, newer: Nightly, table: nat -> map<int, Stored>, i: nat, day: int, collate: string -> real)
    requires BothDue(line, older, newer, table, day)
    requires table(i + 1) == if i == 2 then BothRows(newer, collate) else if i == 3 then BothRows(older, collate) else table(i)
    requires 2 <= i <= 3 && day != 1 && day != 11 ==> day !in table(i)
    ensures Instant(line, [older, newer], table, i, day, collate)
  {
    if (i == 2 || i == 3) && (day == 1 || day == 11) {
      RowIsThere(if i == 2 then newer else older, day, collate);
      WrittenHolds(line, older, newer, table, i, day, collate);
    } else {
      QuietHolds(line, older, newer, table, i, day, collate);
    }
  }

  lemma WrittenHolds(line: nat -> Sys, older: Nightly, newer: Nightly, table: nat -> map<int, Stored>, i: nat, day: int, collate: string -> real)
    requires BothDue(line, older, newer, table, day) && (day == 1 || day == 11) && (i == 2 || i == 3)
    requires day in table(i + 1) && table(i + 1)[day] == RowFrom(if i == 2 then newer else older, day, collate)
    ensures Instant(line, [older, newer], table, i, day, collate)
  {
    var k := if i == 2 then 1 else 0;
    assert WritesAt(line, [older, newer], table, k, day, i);
    OneWriter(line, [older, newer], table, k, i, day, collate);
  }

  lemma QuietHolds(line: nat -> Sys, older: Nightly, newer: Nightly, table: nat -> map<int, Stored>, i: nat, day: int, collate: string -> real)
    requires BothDue(line, older, newer, table, day) && ((day != 1 && day != 11) || (i != 2 && i != 3)) && SameAt(table(i + 1), table(i), day)
    ensures Instant(line, [older, newer], table, i, day, collate)
  {
    NoWriter(line, [older, newer], table, i, day, collate);
  }

  lemma RowIsThere(n: Nightly, day: int, collate: string -> real)
    requires day == 1 || day == 11
    ensures day in BothRows(n, collate) && BothRows(n, collate)[day] == RowFrom(n, day, collate)
  {
  }

  lemma OneWriter(line: nat -> Sys, nights: seq<Nightly>, table: nat -> map<int, Stored>, k: nat, i: nat, day: int, collate: string -> real)
    requires WritesAt(line, nights, table, k, day, i) && day in table(i + 1) && table(i + 1)[day] == RowFrom(nights[k], day, collate)
    requires forall j: nat :: j < |nights| && j != k ==> nights[j].writtenAt(day) != i
    ensures Instant(line, nights, table, i, day, collate)
  {
  }

  lemma NoWriter(line: nat -> Sys, nights: seq<Nightly>, table: nat -> map<int, Stored>, i: nat, day: int, collate: string -> real)
    requires forall j: nat :: j < |nights| ==> nights[j].writtenAt(day) != i || !Writes(line, table, nights[j], day)
    requires SameAt(table(i + 1), table(i), day)
    ensures Instant(line, nights, table, i, day, collate)
  {
  }

  lemma TableSteps(older: Nightly, newer: Nightly, i: nat, collate: string -> real)
    ensures var table := Table(older, newer, collate);
            table(i + 1) == if i == 2 then BothRows(newer, collate) else if i == 3 then BothRows(older, collate) else table(i)
  {
  }

  lemma TableHolds(older: Nightly, newer: Nightly, i: nat, day: int, collate: string -> real)
    requires 2 <= i <= 3 && day in Table(older, newer, collate)(i)
    ensures day == 1 || day == 11
  {
    assert Table(older, newer, collate)(i) == if i == 2 then map[] else BothRows(newer, collate);
    assert BothRows(newer, collate).Keys == {1, 11};
  }

  lemma HistoryHolds(s: Sys, t: Sys)
    requires Reachable(s) && Reaches(s, t)
    ensures History(Line(s, t), [Rolls(s.core.db, 0, 3), Rolls(t.core.db, 1, 2)])
  {
    var older, newer := Rolls(s.core.db, 0, 3), Rolls(t.core.db, 1, 2);
    LineHolds(s, t);
    AnswersHold(Line(s, t), 0, 3);
    AnswersHold(Line(s, t), 1, 2);
    assert [older, newer][0] == older && [older, newer][1] == newer;
  }

  lemma LineHolds(s: Sys, t: Sys)
    requires Reachable(s) && Reaches(s, t)
    ensures Timeline(Line(s, t))
  {
    ReachesSelf(t);
  }

  lemma AnswersHold(line: nat -> Sys, chosen: nat, written: nat)
    requires chosen <= written
    ensures InOrder(Rolls(line(chosen).core.db, chosen, written)) && Answers(line, Rolls(line(chosen).core.db, chosen, written))
  {
    forall d ensures IsAggregate(line(chosen).core.db, d, AggregateDay(line(chosen).core.db, d)) {
      AggregateDayIs(line(chosen).core.db, d);
    }
  }

  /**
   Two runs rolled day 1 without failing, and nothing has happened since the second
   one chose its days; but the first, which had read the day earlier, wrote it last.
   Neither found a final row to report a change of.
   */
  ghost predicate WrittenOver(line: nat -> Sys, nights: seq<Nightly>, table: nat -> map<int, Stored>) {
    && |nights| == 2
    && (forall i: nat :: 1 <= i ==> line(i) == line(nights[1].chosenAt))
    && (forall k :: 0 <= k < 2 ==> Writes(line, table, nights[k], 1) && !Finalized(table(nights[k].readAt(1)), 1) && nights[k].target - REROLL_DAYS > 1)
    && nights[0].readAt(1) < nights[1].chosenAt && nights[1].writtenAt(1) < nights[0].writtenAt(1) < 4
  }

  /** The stored row is final and no answer the queries may give now agrees with it. */
  ghost predicate IsStale(db: Db, stored: map<int, Stored>, day: int, collate: string -> real) {
    Finalized(stored, day) && forall parts :: IsAggregate(db, day, parts) ==> !SameUpToTies(stored[day].row, RowOf(day, parts, collate))
  }

  /** The day is out of every later window, so `Nights.StandsIff` leaves it stale. */
  lemma OverlapGoesStale(collate: string -> real) returns (line: nat -> Sys, nights: seq<Nightly>, table: nat -> map<int, Stored>)
    ensures History(line, nights) && IsLog(line, nights, table, collate) && WrittenOver(line, nights, table)
    ensures IsStale(line(4).core.db, table(4), 1, collate)
  {
    var s, t := PaidLater();
    var older, newer := Rolls(s.core.db, 0, 3), Rolls(t.core.db, 1, 2);
    line, nights, table := Line(s, t), [older, newer], Table(older, newer, collate);
    HistoryHolds(s, t);
    LogHolds(s, t, collate);
    OverHolds(s, t, collate);
    StaleHolds(s, t, collate);
  }

  lemma OverHolds(s: Sys, t: Sys, collate: string -> real)
    requires OneOrderDay(s.core.db) && OneOrderDay(t.core.db)
    ensures var older, newer := Rolls(s.core.db, 0, 3), Rolls(t.core.db, 1, 2);
            WrittenOver(Line(s, t), [older, newer], Table(older, newer, collate))
  {
    AreDue(s, t, 1, collate);
  }

  lemma StaleHolds(s: Sys, t: Sys, collate: string -> real)
    requires OneOrderDay(s.core.db) && OneOrderDay(t.core.db) && s.core.db.payments == [] && t.core.db.payments == [S.BY_CASH]
    ensures var older, newer := Rolls(s.core.db, 0, 3), Rolls(t.core.db, 1, 2);
            IsStale(t.core.db, Table(older, newer, collate)(4), 1, collate)
  {
    SettledChanges(s.core.db, t.core.db);
    var older, newer := Rolls(s.core.db, 0, 3), Rolls(t.core.db, 1, 2);
    assert Table(older, newer, collate)(4) == BothRows(older, collate);
    RowIsStale(older, BothRows(older, collate), t.core.db, collate);
  }

  lemma RowIsStale(older: Nightly, stored: map<int, Stored>, db: Db, collate: string -> real)
    requires stored == BothRows(older, collate) && older.answers(1).ordersSettled == 0 && SettledOrders(db, 1) != []
    ensures IsStale(db, stored, 1, collate)
  {
    SettledIsKept(older.answers(1), collate);
    forall parts | IsAggregate(db, 1, parts) ensures !SameUpToTies(stored[1].row, RowOf(1, parts, collate)) {
      SettledIsKept(parts, collate);
    }
  }

  lemma SettledIsKept(parts: Parts, collate: string -> real)
    ensures RowOf(1, parts, collate).ordersSettled == parts.ordersSettled
  {
  }
}

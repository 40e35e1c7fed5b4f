/**
 What the stored rows mean after any history of nightly runs: with days that
 failed, nights that never ran, two instances at work at once, and tables that went
 on changing meanwhile.
 */
module Nights {
  import opened Wrappers
  import opened Sums
  import opened Queries
  import opened Tables
  import opened Protocol
  import opened Invariants
  import opened Theorems
  import opened DayAggregate
  import opened RollupRow
  import opened Rollup
  import opened CorrectionTheorems
  import opened TopItems
  import opened DayTotals
  import Pricing
  import Reconciliation

  // ----- Time -----

  /** One run of the protocol, looked at again and again: each state reaches the next. */
  ghost predicate Timeline(line: nat -> Sys) {
    Reachable(line(0)) && forall i: nat :: Reaches(line(i), line(i + 1))
  }

  lemma {:induction false} TimePasses(line: nat -> Sys, i: nat, j: nat)
    requires Timeline(line) && i <= j
    ensures Reaches(line(i), line(j))
    decreases j
  {
    if i == j {
      ReachesSelf(line(i));
    } else {
      TimePasses(line, i, j - 1);
      assert Reaches(line(j - 1), line((j - 1) + 1));
      ReachesTransitive(line(i), line(j - 1), line(j));
    }
  }

  lemma AlwaysReachable(line: nat -> Sys, i: nat)
    requires Timeline(line)
    ensures Reachable(line(i))
  {
    TimePasses(line, 0, i);
    ReachesTransitive(INITIAL, line(0), line(i));
  }

  /**
   One run of the nightly job by one instance: when it chose its days, when each
   day's queries ran, when the day's row was written, what the queries returned, and
   the days that failed.
   */
  datatype Nightly = Nightly(target: int, now: int, chosenAt: nat, readAt: int -> nat, writtenAt: int -> nat, answers: int -> Parts, fails: int -> bool)

  /** A day is read after the days are chosen and written after it is read. Nothing orders one run against another. */
  ghost predicate InOrder(n: Nightly) {
    forall d {:trigger n.readAt(d)} {:trigger n.writtenAt(d)} :: n.chosenAt <= n.readAt(d) <= n.writtenAt(d)
  }

  /** What the queries returned is what they may return over the tables of that time. */
  ghost predicate Answers(line: nat -> Sys, n: Nightly) {
    forall d :: IsAggregate(line(n.readAt(d)).core.db, d, n.answers(d))
  }

  ghost predicate History(line: nat -> Sys, nights: seq<Nightly>) {
    Timeline(line) && forall k :: 0 <= k < |nights| ==> InOrder(nights[k]) && Answers(line, nights[k])
  }

  // ----- The table, write by write -----

  /** The run writes the day's row: it chose the day from the tables it saw, and the day did not fail. */
  ghost predicate Writes(line: nat -> Sys, table: nat -> map<int, Stored>, n: Nightly, day: int) {
    Visits(line(n.chosenAt).core.db, table(n.chosenAt), n.target, day) && !n.fails(day)
  }

  function RowFrom(n: Nightly, day: int, collate: string -> real): Stored {
    Stored(RowsOf(n.answers, collate)(day), Some(n.now))
  }

  ghost predicate WritesAt(line: nat -> Sys, nights: seq<Nightly>, table: nat -> map<int, Stored>, k: nat, day: int, t: nat) {
    k < |nights| && nights[k].writtenAt(day) == t && Writes(line, table, nights[k], day)
  }

  /** What the instant `t` does to one day: a write replaces its row, and without one the row is as it was. */
  ghost predicate Instant(line: nat -> Sys, nights: seq<Nightly>, table: nat -> map<int, Stored>, t: nat, day: int, collate: string -> real) {
    && (forall k: nat :: WritesAt(line, nights, table, k, day, t) ==> day in table(t + 1) && table(t + 1)[day] == RowFrom(nights[k], day, collate))
    && ((forall k: nat :: !WritesAt(line, nights, table, k, day, t)) ==>
          (day in table(t + 1) <==> day in table(t)) && (day in table(t) ==> table(t + 1)[day] == table(t)[day]))
  }

  /** `table(t)` is the rollup table at time `t`, from the empty one on, with the writes of all runs in the order they came. */
  ghost predicate IsLog(line: nat -> Sys, nights: seq<Nightly>, table: nat -> map<int, Stored>, collate: string -> real) {
    table(0) == map[] && forall t: nat, day :: Instant(line, nights, table, t, day, collate)
  }

  // ----- A run that has the table to itself is one night -----

  /** Between the run's choice and `end` it writes all its days, and nobody else writes. */
  ghost predicate Alone(line: nat -> Sys, nights: seq<Nightly>, table: nat -> map<int, Stored>, k: nat, end: nat) {
    && k < |nights| && (forall d {:trigger nights[k].writtenAt(d)} :: nights[k].writtenAt(d) < end)
    && forall i: nat, d, t: nat {:trigger WritesAt(line, nights, table, i, d, t)} :: WritesAt(line, nights, table, i, d, t) && nights[k].chosenAt <= t < end ==> i == k
  }

  ghost predicate SameAt(a: map<int, Stored>, b: map<int, Stored>, day: int) {
    (day in a <==> day in b) && (day in a ==> a[day] == b[day])
  }

  lemma {:induction false} AloneUntil(line: nat -> Sys, nights: seq<Nightly>, table: nat -> map<int, Stored>, k: nat, end: nat, t: nat, day: int, collate: string -> real)
    requires IsLog(line, nights, table, collate) && Alone(line, nights, table, k, end) && nights[k].chosenAt <= t <= end && nights[k].chosenAt <= nights[k].writtenAt(day)
    ensures AloneSoFar(line, nights[k], table, t, day, collate)
    decreases t
  {
    if t > nights[k].chosenAt {
      var u := t - 1;
      AloneUntil(line, nights, table, k, end, u, day, collate);
      AloneOneMore(line, nights, table, k, u, day, collate);
    }
  }

  lemma AloneOneMore(line: nat -> Sys, nights: seq<Nightly>, table: nat -> map<int, Stored>, k: nat, u: nat, day: int, collate: string -> real)
    requires Instant(line, nights, table, u, day, collate) && k < |nights| && AloneSoFar(line, nights[k], table, u, day, collate)
    requires forall i: nat :: WritesAt(line, nights, table, i, day, u) ==> i == k
    ensures AloneSoFar(line, nights[k], table, u + 1, day, collate)
  {
    if WritesAt(line, nights, table, k, day, u) {
      assert day in table(u + 1);
    } else {
      assert forall i: nat :: !WritesAt(line, nights, table, i, day, u);
    }
  }

  /** The day as the run left it by `t`, having the table to itself. */
  ghost predicate AloneSoFar(line: nat -> Sys, n: Nightly, table: nat -> map<int, Stored>, t: nat, day: int, collate: string -> real) {
    if Writes(line, table, n, day) && n.writtenAt(day) < t then day in table(t) && table(t)[day] == RowFrom(n, day, collate)
    else SameAt(table(t), table(n.chosenAt), day)
  }

  function NightOf(line: nat -> Sys, n: Nightly, before: map<int, Stored>, collate: string -> real): map<int, Stored> {
    Night(before, line(n.chosenAt).core.db, n.target, RowsOf(n.answers, collate), n.fails, n.target + 1, n.now)
  }

  lemma NightOfIs(line: nat -> Sys, n: Nightly, table: nat -> map<int, Stored>, end: nat, day: int, collate: string -> real)
    requires AloneSoFar(line, n, table, end, day, collate) && n.writtenAt(day) < end
    ensures SameAt(table(end), NightOf(line, n, table(n.chosenAt), collate), day)
  {
    NightIs(table(n.chosenAt), line(n.chosenAt).core.db, n.target, RowsOf(n.answers, collate), n.fails, n.now, day);
  }

  lemma SameEverywhere(a: map<int, Stored>, b: map<int, Stored>)
    requires forall day :: SameAt(a, b, day)
    ensures a == b
  {
    forall day ensures (day in a <==> day in b) && (day in a ==> a[day] == b[day]) {
      assert SameAt(a, b, day);
    }
  }

  /** What such a run leaves is what the nightly job computes from the table it found. */
  lemma AloneIsNight(line: nat -> Sys, nights: seq<Nightly>, table: nat -> map<int, Stored>, k: nat, end: nat, collate: string -> real)
    requires IsLog(line, nights, table, collate) && Alone(line, nights, table, k, end) && nights[k].chosenAt <= end && InOrder(nights[k])
    ensures table(end) == NightOf(line, nights[k], table(nights[k].chosenAt), collate)
  {
    var after := NightOf(line, nights[k], table(nights[k].chosenAt), collate);
    forall day ensures SameAt(table(end), after, day) {
      assert nights[k].chosenAt <= nights[k].writtenAt(day) < end;
      AloneUntil(line, nights, table, k, end, end, day, collate);
      NightOfIs(line, nights[k], table, end, day, collate);
    }
    SameEverywhere(table(end), after);
  }

  // ----- A stored row is what its last writer read -----

  /** Of all the writes of the day before `t`, run `k`'s came last. */
  ghost predicate LastWrote(line: nat -> Sys, nights: seq<Nightly>, table: nat -> map<int, Stored>, t: nat, k: nat, day: int) {
    && k < |nights| && Writes(line, table, nights[k], day) && nights[k].writtenAt(day) < t
    && forall i :: 0 <= i < |nights| && Writes(line, table, nights[i], day) && nights[i].writtenAt(day) < t ==> nights[i].writtenAt(day) <= nights[k].writtenAt(day)
  }

  /** Whatever failed, never ran or overlapped, a stored row is final and is the one its last writer brought. */
  lemma {:induction false} RowIsLastWrite(line: nat -> Sys, nights: seq<Nightly>, table: nat -> map<int, Stored>, t: nat, day: int, collate: string -> real) returns (k: nat)
    requires IsLog(line, nights, table, collate) && day in table(t)
    ensures LastWrote(line, nights, table, t, k, day) && table(t)[day] == RowFrom(nights[k], day, collate)
    decreases t
  {
    assert t > 0;
    var u := t - 1;
    assert Instant(line, nights, table, u, day, collate);
    if i: nat :| WritesAt(line, nights, table, i, day, u) {
      k := i;
    } else {
      k := RowIsLastWrite(line, nights, table, u, day, collate);
      forall i | 0 <= i < |nights| && Writes(line, table, nights[i], day) && nights[i].writtenAt(day) < t ensures nights[i].writtenAt(day) <= nights[k].writtenAt(day) {
        assert !WritesAt(line, nights, table, i, day, u);
      }
    }
  }

  /** Two last writers came at the same instant with the same row. */
  lemma LastWritersAgree(line: nat -> Sys, nights: seq<Nightly>, table: nat -> map<int, Stored>, t: nat, j: nat, k: nat, day: int, collate: string -> real)
    requires IsLog(line, nights, table, collate) && LastWrote(line, nights, table, t, j, day) && LastWrote(line, nights, table, t, k, day)
    ensures RowFrom(nights[j], day, collate) == RowFrom(nights[k], day, collate)
  {
    var u := nights[k].writtenAt(day);
    assert Instant(line, nights, table, u, day, collate);
    assert WritesAt(line, nights, table, j, day, u) && WritesAt(line, nights, table, k, day, u);
  }

  /** A day once written stays finalized. */
  lemma {:induction false} StaysFinal(line: nat -> Sys, nights: seq<Nightly>, table: nat -> map<int, Stored>, t: nat, k: nat, day: int, collate: string -> real)
    requires IsLog(line, nights, table, collate) && k < |nights| && Writes(line, table, nights[k], day) && nights[k].writtenAt(day) < t
    ensures Finalized(table(t), day)
    decreases t
  {
    var u := t - 1;
    assert Instant(line, nights, table, u, day, collate);
    if nights[k].writtenAt(day) == u {
      assert WritesAt(line, nights, table, k, day, u);
    } else {
      StaysFinal(line, nights, table, u, k, day, collate);
      if i: nat :| WritesAt(line, nights, table, i, day, u) {
        assert table(t)[day] == RowFrom(nights[i], day, collate);
      }
    }
  }

  /** The run's re-roll window holds the day: it is the target, or it traded and is one of the three before it. */
  ghost predicate InWindow(line: nat -> Sys, n: Nightly, day: int) {
    day == n.target || (Traded(line(n.chosenAt).core.db, day) && n.target - REROLL_DAYS <= day < n.target)
  }

  /** Something makes the run write the day although a row was written at `u`: its window, or a choice it made before that. */
  ghost predicate StillComing(line: nat -> Sys, table: nat -> map<int, Stored>, n: Nightly, day: int, u: nat) {
    InWindow(line, n, day) || (n.chosenAt <= u && Visits(line(n.chosenAt).core.db, table(n.chosenAt), n.target, day))
  }

  /**
   A finalized row outlives a change exactly when nothing writes it again: run
   `k`'s row is still the last one written if and only if every run that came to the
   day later, because its window holds the day or because it had chosen the day
   before the row was there, failed on it.
   */
  lemma StandsIff(line: nat -> Sys, nights: seq<Nightly>, table: nat -> map<int, Stored>, t: nat, k: nat, day: int, collate: string -> real)
    requires IsLog(line, nights, table, collate) && k < |nights| && Writes(line, table, nights[k], day) && nights[k].writtenAt(day) < t
    ensures var u := nights[k].writtenAt(day);
            LastWrote(line, nights, table, t, k, day) <==>
            forall i :: 0 <= i < |nights| && u < nights[i].writtenAt(day) < t && StillComing(line, table, nights[i], day, u) ==> nights[i].fails(day)
  {
    var u := nights[k].writtenAt(day);
    forall i | 0 <= i < |nights| ensures Writes(line, table, nights[i], day) <==> StillComing(line, table, nights[i], day, u) && !nights[i].fails(day) {
      if nights[i].chosenAt > u {
        StaysFinal(line, nights, table, nights[i].chosenAt, k, day, collate);
      }
    }
  }

  // ----- When a stored row is the live one -----

  /**
   A stored row equals the live one, up to tied items, if and only if rolling the
   day now would report nothing. The row is read at `asked`, and the queries may
   answer `parts` at `now`.
   */
  lemma StoredIsLiveIff(line: nat -> Sys, nights: seq<Nightly>, table: nat -> map<int, Stored>, day: int, asked: nat, now: nat, parts: Parts, collate: string -> real)
    requires History(line, nights) && IsLog(line, nights, table, collate) && asked <= now && day in table(asked) && IsAggregate(line(now).core.db, day, parts)
    ensures var row := table(asked)[day].row;
            SameUpToTies(row, RowOf(day, parts, collate)) <==> DescribeCorrection(row, RowOf(day, parts, collate)).None?
  {
    var k := RowIsLastWrite(line, nights, table, asked, day, collate);
    var ran := nights[k].readAt(day);
    assert Answers(line, nights[k]) && ran <= nights[k].writtenAt(day);
    AlwaysReachable(line, ran);
    TimePasses(line, ran, now);
    SilentMeansUnchanged(line(ran), line(now), day, nights[k].answers(day), parts, collate);
  }

  /** From time `u` to now, whatever the queries may have returned for the day equals what they return now, up to tied items. */
  ghost predicate QuietSince(line: nat -> Sys, u: nat, day: int, now: nat, parts: Parts, collate: string -> real) {
    forall t: nat, p {:trigger IsAggregate(line(t).core.db, day, p)} :: u <= t <= now && IsAggregate(line(t).core.db, day, p) ==>
      SameUpToTies(RowOf(day, p, collate), RowOf(day, parts, collate))
  }

  /** The run would roll the day if it traded. */
  ghost predicate Due(n: Nightly, before: map<int, Stored>, day: int) {
    day == n.target || (n.target - CATCH_UP_DAYS <= day < n.target && (n.target - REROLL_DAYS <= day || !Finalized(before, day)))
  }

  /** Along any run days only ever gain orders. */
  lemma TradeGrows(s: Sys, t: Sys, day: int)
    requires Reachable(s) && Reaches(s, t) && Traded(s.core.db, day)
    ensures Traded(t.core.db, day)
  {
    ReachableInv(s);
    ReachesKeeps(s, t);
    var o :| 0 <= o < |s.core.db.orders| && s.core.db.orders[o].businessDay == day;
    assert SameOrder(s.core.db.orders[o], t.core.db.orders[o]);
    assert t.core.db.orders[o].businessDay == day;
  }

  const NOTHING: Parts := Parts([], [], 0, 0, 0, [])

  lemma {:induction false} NothingSelected(n: nat, keep: nat -> bool)
    requires forall i: nat :: i < n ==> !keep(i)
    ensures Select(n, keep) == []
  {
    if n > 0 {
      NothingSelected(n - 1, keep);
    }
  }

  lemma NothingGrouped<T, K>(key: T -> K, value: T -> int, groups: seq<Group<K>>)
    ensures IsGrouping([], key, value, groups) <==> groups == []
  {
    assert groups != [] ==> !GroupOk([], key, value, groups[0]);
  }

  /** A day without orders totals nothing, and that is the only answer the queries may give. */
  lemma ShutDayIsEmpty(db: Db, day: int, parts: Parts)
    requires !Traded(db, day)
    ensures IsAggregate(db, day, parts) <==> parts == NOTHING
  {
    assert forall o: nat :: !OfDay(db, o, day);
    NothingSelected(|db.orders|, OnDay(db, day));
    NothingSelected(|db.orders|, SettledOn(db, day));
    NothingSelected(|db.payments|, PaidOn(db, day));
    NothingSelected(|db.refunds|, RefundedOn(db, day));
    NothingGrouped(StatusIn(db), One<nat>(), parts.statusCounts);
    NothingGrouped(RailIn(db), Reconciliation.AmountIn(db), parts.revenueByMethod);
    NothingSold(parts.items);
  }

  lemma NothingSold(items: seq<RollupItem>)
    ensures ItemsAre([], items) <==> items == []
  {
    NothingGrouped(ItemKey(), Quantity(), Firsts(GroupsOf(items)));
    NothingGrouped(ItemKey(), Pricing.LineTotal(), Seconds(GroupsOf(items)));
  }

  lemma WasShut(line: nat -> Sys, i: nat, j: nat, day: int)
    requires Timeline(line) && i <= j && !Traded(line(j).core.db, day)
    ensures !Traded(line(i).core.db, day)
  {
    AlwaysReachable(line, i);
    TimePasses(line, i, j);
    if Traded(line(i).core.db, day) {
      TradeGrows(line(i), line(j), day);
    }
  }

  /** No run that wrote the day after `w` did, and before `asked`, had read it before `w` chose its days. */
  ghost predicate NoStraggler(line: nat -> Sys, nights: seq<Nightly>, table: nat -> map<int, Stored>, w: nat, day: int, asked: nat) {
    w < |nights| && forall i :: 0 <= i < |nights| && Writes(line, table, nights[i], day) && nights[w].writtenAt(day) < nights[i].writtenAt(day) < asked ==>
      nights[w].chosenAt <= nights[i].readAt(day)
  }

  /**
   Run `w` was due the day, did not fail on it and was done by `asked`; the day has
   not changed since `w` chose it; and no straggler wrote over it.
   */
  ghost predicate KeptBy(line: nat -> Sys, nights: seq<Nightly>, table: nat -> map<int, Stored>, w: nat, day: int, asked: nat, now: nat, parts: Parts, collate: string -> real) {
    && w < |nights| && Due(nights[w], table(nights[w].chosenAt), day) && !nights[w].fails(day) && nights[w].writtenAt(day) < asked <= now
    && QuietSince(line, nights[w].chosenAt, day, now, parts, collate)
    && NoStraggler(line, nights, table, w, day, asked)
  }

  /**
   Stored or live, a day's totals are what the tables say now, up to tied items,
   provided some run kept it. Every other run may have failed on the day, never run,
   or overlapped.
   */
  lemma TotalsAreLive(line: nat -> Sys, nights: seq<Nightly>, table: nat -> map<int, Stored>, w: nat, asked: nat, now: nat, answers: int -> Parts, days: seq<int>, day: int, collate: string -> real)
    requires History(line, nights) && IsLog(line, nights, table, collate)
    requires KeptBy(line, nights, table, w, day, asked, now, answers(day), collate)
    ensures SameUpToTies(TotalsOf(table(asked), answers, days, day, collate), RowOf(day, answers(day), collate))
  {
    if Answered(table(asked), days, day) {
      var k := RowIsLastWrite(line, nights, table, asked, day, collate);
      assert InOrder(nights[w]) && InOrder(nights[k]) && Answers(line, nights[w]) && Answers(line, nights[k]);
      if Writes(line, table, nights[w], day) {
        WrittenIsLive(line, nights, table, w, k, day, asked, now, answers(day), collate);
      } else {
        PassedOverIsLive(line, nights[w], nights[k], table, day, asked, now, answers(day), collate);
      }
    }
  }

  /** The run wrote the day: the last writer is that run, or read the day after it did. */
  lemma WrittenIsLive(line: nat -> Sys, nights: seq<Nightly>, table: nat -> map<int, Stored>, w: nat, k: nat, day: int, asked: nat, now: nat, parts: Parts, collate: string -> real)
    requires IsLog(line, nights, table, collate) && KeptBy(line, nights, table, w, day, asked, now, parts, collate) && LastWrote(line, nights, table, asked, k, day)
    requires Writes(line, table, nights[w], day) && InOrder(nights[w]) && InOrder(nights[k]) && Answers(line, nights[w]) && Answers(line, nights[k])
    ensures SameUpToTies(RowsOf(nights[k].answers, collate)(day), RowOf(day, parts, collate))
  {
    assert nights[w].chosenAt <= nights[w].readAt(day) <= nights[w].writtenAt(day);
    if nights[k].writtenAt(day) == nights[w].writtenAt(day) {
      LastWritersAgree(line, nights, table, asked, w, k, day, collate);
      ReadSinceIsLive(line, nights[w], nights[w].chosenAt, day, now, parts, collate);
    } else {
      assert nights[k].readAt(day) <= nights[k].writtenAt(day);
      ReadSinceIsLive(line, nights[k], nights[w].chosenAt, day, now, parts, collate);
    }
  }

  lemma ReadSinceIsLive(line: nat -> Sys, n: Nightly, u: nat, day: int, now: nat, parts: Parts, collate: string -> real)
    requires QuietSince(line, u, day, now, parts, collate) && u <= n.readAt(day) <= now && Answers(line, n)
    ensures SameUpToTies(RowsOf(n.answers, collate)(day), RowOf(day, parts, collate))
  {
    QuietSays(line, u, n.readAt(day), day, now, n.answers(day), parts, collate);
  }

  lemma PassedOverIsLive(line: nat -> Sys, w: Nightly, k: Nightly, table: nat -> map<int, Stored>, day: int, asked: nat, now: nat, parts: Parts, collate: string -> real)
    requires Timeline(line) && Due(w, table(w.chosenAt), day) && !w.fails(day) && !Writes(line, table, w, day)
    requires w.chosenAt <= now && k.readAt(day) <= now && Answers(line, k) && QuietSince(line, w.chosenAt, day, now, parts, collate)
    ensures SameUpToTies(RowsOf(k.answers, collate)(day), RowOf(day, parts, collate))
  {
    if w.chosenAt <= k.readAt(day) {
      ReadSinceIsLive(line, k, w.chosenAt, day, now, parts, collate);
    } else {
      ShutIsLive(line, k, w.chosenAt, day, now, parts, collate);
    }
  }

  /** A run that passed the day over found it without orders, and so did every run that read it earlier. */
  lemma ShutIsLive(line: nat -> Sys, n: Nightly, chosen: nat, day: int, now: nat, parts: Parts, collate: string -> real)
    requires Timeline(line) && Answers(line, n) && n.readAt(day) <= chosen <= now && !Traded(line(chosen).core.db, day)
    requires QuietSince(line, chosen, day, now, parts, collate)
    ensures SameUpToTies(RowsOf(n.answers, collate)(day), RowOf(day, parts, collate))
  {
    WasShut(line, n.readAt(day), chosen, day);
    ShutDayIsEmpty(line(n.readAt(day)).core.db, day, n.answers(day));
    ShutDayIsEmpty(line(chosen).core.db, day, n.answers(day));
    QuietSays(line, chosen, chosen, day, now, n.answers(day), parts, collate);
  }

  /** Of any two runs, one had written everything before the other chose its days. */
  ghost predicate Apart(nights: seq<Nightly>) {
    forall j, k, d {:trigger nights[j].writtenAt(d), nights[k].chosenAt} ::
      0 <= j < |nights| && 0 <= k < |nights| && j != k ==>
        nights[j].writtenAt(d) <= nights[k].chosenAt || nights[k].writtenAt(d) <= nights[j].chosenAt
  }

  /** Runs that do not overlap leave no straggler. */
  lemma ApartHasNoStraggler(line: nat -> Sys, nights: seq<Nightly>, table: nat -> map<int, Stored>, w: nat, day: int, asked: nat)
    requires History(line, nights) && Apart(nights) && w < |nights|
    ensures NoStraggler(line, nights, table, w, day, asked)
  {
    assert InOrder(nights[w]);
    forall i | 0 <= i < |nights| && nights[w].writtenAt(day) < nights[i].writtenAt(day) ensures nights[w].chosenAt <= nights[i].readAt(day) {
      assert InOrder(nights[i]);
      assert nights[w].chosenAt <= nights[w].readAt(day) <= nights[w].writtenAt(day);
      assert nights[i].chosenAt <= nights[i].readAt(day) <= nights[i].writtenAt(day);
    }
  }

  lemma QuietSays(line: nat -> Sys, u: nat, t: nat, day: int, now: nat, p: Parts, parts: Parts, collate: string -> real)
    requires QuietSince(line, u, day, now, parts, collate) && u <= t <= now && IsAggregate(line(t).core.db, day, p)
    ensures SameUpToTies(RowOf(day, p, collate), RowOf(day, parts, collate))
  {
  }

  // ----- The leaderboard -----

  /** The item lists the tables would give now. */
  function LiveItems(answers: int -> Parts, days: seq<int>, collate: string -> real): seq<DayItems> {
    seq(|days|, i requires 0 <= i < |days| => DayItems(days[i], RowOf(days[i], answers(days[i]), collate).topItems))
  }

  lemma {:induction false} EntriesPermute(a: seq<DayItems>, b: seq<DayItems>)
    requires |a| == |b|
    requires forall i :: 0 <= i < |a| ==> a[i].businessDay == b[i].businessDay && multiset(a[i].topItems) == multiset(b[i].topItems)
    ensures multiset(Entries(a)) == multiset(Entries(b))
  {
    if a != [] {
      var n := |a| - 1;
      EntriesPermute(a[..n], b[..n]);
      DayEntriesPermute(a[n], b[n]);
    }
  }

  function Tag(day: int): RollupItem -> Entry {
    (item: RollupItem) => Entry(day, item)
  }

  lemma DayEntriesPermute(a: DayItems, b: DayItems)
    requires a.businessDay == b.businessDay && multiset(a.topItems) == multiset(b.topItems)
    ensures multiset(EntriesOf(a)) == multiset(EntriesOf(b))
  {
    MapPermutes(a.topItems, b.topItems, Tag(a.businessDay));
    assert EntriesOf(a) == Map(a.topItems, Tag(a.businessDay));
    assert EntriesOf(b) == Map(b.topItems, Tag(a.businessDay));
  }

  /** Each day of the range has no usable row, or some run kept the one it has. */
  ghost predicate AllKept(line: nat -> Sys, nights: seq<Nightly>, table: nat -> map<int, Stored>, days: seq<int>, asked: nat, liveAt: int -> nat, answers: int -> Parts, collate: string -> real) {
    forall i :: 0 <= i < |days| ==>
      !Answered(table(asked), days, days[i]) || exists w :: KeptBy(line, nights, table, w, days[i], asked, liveAt(days[i]), answers(days[i]), collate)
  }

  lemma RangeIsLive(line: nat -> Sys, nights: seq<Nightly>, table: nat -> map<int, Stored>, days: seq<int>, asked: nat, liveAt: int -> nat, answers: int -> Parts, collate: string -> real)
    requires History(line, nights) && IsLog(line, nights, table, collate) && AllKept(line, nights, table, days, asked, liveAt, answers, collate)
    requires forall i :: 0 <= i < |days| ==> IsAggregate(line(liveAt(days[i])).core.db, days[i], answers(days[i]))
    ensures forall i :: 0 <= i < |days| ==> SameUpToTies(TotalsOf(table(asked), answers, days, days[i], collate), RowOf(days[i], answers(days[i]), collate))
    ensures multiset(Entries(Reported(table(asked), answers, days, collate))) == multiset(Entries(LiveItems(answers, days, collate)))
  {
    forall i | 0 <= i < |days| ensures SameUpToTies(TotalsOf(table(asked), answers, days, days[i], collate), RowOf(days[i], answers(days[i]), collate)) {
      if Answered(table(asked), days, days[i]) {
        var w :| KeptBy(line, nights, table, w, days[i], asked, liveAt(days[i]), answers(days[i]), collate);
        TotalsAreLive(line, nights, table, w, asked, liveAt(days[i]), answers, days, days[i], collate);
      }
    }
    EntriesPermute(Reported(table(asked), answers, days, collate), LiveItems(answers, days, collate));
  }

  /**
   From the nights to the leaderboard: along any history in which some run kept each
   stored day, the reported board has the sales of a board built from the live tables
   and, if no item went by two names on one day, the same rank at every place.
   */
  lemma LeaderboardIsLive(line: nat -> Sys, nights: seq<Nightly>, table: nat -> map<int, Stored>, days: seq<int>, asked: nat, liveAt: int -> nat, answers: int -> Parts,
                          a: seq<RollupItem>, b: seq<RollupItem>, limit: nat, collate: string -> real)
    requires History(line, nights) && IsLog(line, nights, table, collate) && AllKept(line, nights, table, days, asked, liveAt, answers, collate)
    requires forall i :: 0 <= i < |days| ==> IsAggregate(line(liveAt(days[i])).core.db, days[i], answers(days[i]))
    requires Leads(Entries(Reported(table(asked), answers, days, collate)), a, limit, collate)
    requires Leads(Entries(LiveItems(answers, days, collate)), b, limit, collate)
    ensures SameSales(a, b, |Ids(Entries(LiveItems(answers, days, collate)))|, limit)
    ensures OneNameADay(Entries(LiveItems(answers, days, collate))) ==>
              |a| == |b| && forall i :: 0 <= i < |a| ==> RankIn(collate)(a[i]) == RankIn(collate)(b[i])
  {
    var x, y := Entries(Reported(table(asked), answers, days, collate)), Entries(LiveItems(answers, days, collate));
    RangeIsLive(line, nights, table, days, asked, liveAt, answers, collate);
    LeadsPermute(y, x, b, a, limit, collate);
    if OneNameADay(y) {
      NamedLeadsPermute(y, x, b, a, limit, collate);
    }
  }
}

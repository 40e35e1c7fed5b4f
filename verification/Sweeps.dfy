/**
 What the two sweeps achieve: whoever is in the batch is dealt with on its own terms,
 whatever became of the others, and a tick with room for all leaves nobody out.
 */
module Sweeps {
  import opened Wrappers
  import opened OrderState
  import opened Sums
  import opened Queries
  import opened Tables
  import opened Protocol
  import opened Invariants
  import opened Theorems
  import opened Services
  import opened ServiceRuns
  import opened OrderEffects

  // ----- Who is in the batch -----

  /** Distinct members of a set as large as the set are all of it. */
  lemma {:induction false} AllThere(batch: seq<nat>, all: seq<nat>)
    requires Unique(batch) && Unique(all) && |batch| == |all| && forall x :: x in batch ==> x in all
    ensures forall x :: x in all ==> x in batch
    decreases |batch|
  {
    if batch != [] {
      var n := |batch| - 1;
      var x := batch[n];
      assert x in all;
      var i :| 0 <= i < |all| && all[i] == x;
      var rest := all[..i] + all[i + 1..];
      RestOf(all, i);
      assert batch == batch[..n] + [x];
      forall y | y in batch[..n] ensures y in rest {
        var j :| 0 <= j < n && batch[j] == y;
        assert y in batch && y != x;
      }
      AllThere(batch[..n], rest);
    }
  }

  lemma RestOf(all: seq<nat>, i: nat)
    requires Unique(all) && i < |all|
    ensures Unique(all[..i] + all[i + 1..]) && forall x :: x in all[..i] + all[i + 1..] <==> x in all && x != all[i]
  {
    var rest := all[..i] + all[i + 1..];
    forall x | x in all && x != all[i] ensures x in rest {
      var j :| 0 <= j < |all| && all[j] == x;
      assert rest[if j < i then j else j - 1] == x;
    }
  }

  lemma BatchIsAll(n: nat, where: nat -> bool, limit: nat, ids: seq<nat>, i: nat)
    requires IsBatch(n, where, limit, ids) && |Select(n, where)| <= limit && i < n && where(i)
    ensures i in ids
  {
    SelectIs(n, where);
    forall x | x in ids ensures x in Select(n, where) {
      var k :| 0 <= k < |ids| && ids[k] == x;
    }
    AllThere(ids, Select(n, where));
    assert i in Select(n, where);
  }

  /** With no more than a hundred events waiting, a tick takes them all; otherwise a hundred of them. */
  lemma DrainTakesAll(db: Db, pending: seq<nat>, waiting: nat -> bool, e: nat)
    requires IsBatch(|db.events|, UnprocessedIn(db), MAX_EVENTS_PER_TICK, pending)
    requires forall i: nat :: i < |db.events| ==> (waiting(i) <==> !db.events[i].processed)
    ensures |pending| == if |Select(|db.events|, waiting)| <= 100 then |Select(|db.events|, waiting)| else 100
    ensures |Select(|db.events|, waiting)| <= 100 && e < |db.events| && !db.events[e].processed ==> e in pending
  {
    SelectSame(|db.events|, UnprocessedIn(db), waiting);
    if |Select(|db.events|, waiting)| <= 100 && e < |db.events| && !db.events[e].processed {
      BatchIsAll(|db.events|, UnprocessedIn(db), MAX_EVENTS_PER_TICK, pending, e);
    }
  }

  /** With no more than two hundred orders overdue, a tick takes them all; otherwise two hundred of them. */
  lemma SweepTakesAll(db: Db, now: int, overdue: seq<nat>, late: nat -> bool, o: nat)
    requires IsBatch(|db.orders|, OverdueAt(db, now), MAX_ORDERS_PER_TICK, overdue)
    requires forall i: nat :: i < |db.orders| ==>
               (late(i) <==> db.orders[i].status == PendingPayment && db.orders[i].expiresAt.Some? && db.orders[i].expiresAt.value < now)
    ensures |overdue| == if |Select(|db.orders|, late)| <= 200 then |Select(|db.orders|, late)| else 200
    ensures |Select(|db.orders|, late)| <= 200 && o < |db.orders| && late(o) ==> o in overdue
  {
    SelectSame(|db.orders|, OverdueAt(db, now), late);
    if |Select(|db.orders|, late)| <= 200 && o < |db.orders| && late(o) {
      BatchIsAll(|db.orders|, OverdueAt(db, now), MAX_ORDERS_PER_TICK, overdue, o);
    }
  }

  // ----- What becomes of one order of a sweep -----

  /** Everything that decides what closing the order does: its row, its payments and their intents. */
  ghost predicate SameFor(a: Core, b: Core, o: nat) {
    && |b.db.orders| == |a.db.orders| && |b.db.payments| == |a.db.payments| && |b.gateway| == |a.gateway|
    && (o < |a.db.orders| ==> b.db.orders[o] == a.db.orders[o])
    && (forall p :: 0 <= p < |a.db.payments| ==> b.db.payments[p].orderId == a.db.payments[p].orderId)
    && (forall p :: 0 <= p < |a.db.payments| && a.db.payments[p].orderId == o ==> b.db.payments[p] == a.db.payments[p])
    && (forall p, i :: 0 <= p < |a.db.payments| && a.db.payments[p].orderId == o && a.db.payments[p].intentId == Some(i) && i < |a.gateway| ==>
          b.gateway[i] == a.gateway[i])
  }

  lemma SameTransitive(a: Core, b: Core, c: Core, o: nat)
    requires SameFor(a, b, o) && SameFor(b, c, o)
    ensures SameFor(a, c, o)
  {
    forall p, i | 0 <= p < |a.db.payments| && a.db.payments[p].orderId == o && a.db.payments[p].intentId == Some(i) && i < |a.gateway| ensures c.gateway[i] == a.gateway[i] {
      assert b.db.payments[p] == a.db.payments[p];
      assert b.gateway[i] == a.gateway[i];
    }
  }

  /** Expiring one order touches nothing of another. */
  lemma ExpiryLeavesOthers(c: Core, other: nat, reachable: bool, o: nat)
    requires CoreInv(c) && other != o && MayClose(c.db, ExpiryDoor, other, PendingPayment)
    ensures SameFor(c, Closed(c, ExpiryDoor, other, PendingPayment, System, None, reachable).0, o)
  {
    if p: nat :| LiveFor(c.db, other, p) {
      CloseLive(c, ExpiryDoor, other, PendingPayment, System, None, reachable, p);
      assert UniqueIntents(c.db);
    } else {
      CloseUnpaid(c, ExpiryDoor, other, PendingPayment, System, None, reachable);
    }
  }

  lemma ExpiryKeepsInv(c: Core, o: nat, reachable: bool)
    requires CoreInv(c)
    ensures CoreInv(Closed(c, ExpiryDoor, o, PendingPayment, System, None, reachable).0)
  {
    var procs := map[0 := Closing(ExpiryDoor, o, PendingPayment)];
    assert Inv(Sys(c, procs));
    ClosedRuns(c, procs, 0, System, None, reachable);
    ReachesKeeps(Sys(c, procs), Sys(Closed(c, ExpiryDoor, o, PendingPayment, System, None, reachable).0, procs - {0}));
  }

  ghost predicate AllPending(c: Core, batch: seq<nat>) {
    Unique(batch) && forall k :: 0 <= k < |batch| ==> MayClose(c.db, ExpiryDoor, batch[k], PendingPayment)
  }

  /** After part of a sweep, an order that is not in that part is as it was. */
  lemma {:induction false} SweptLeavesOthers(c: Core, batch: seq<nat>, reachable: nat -> bool, o: nat)
    requires CoreInv(c) && AllPending(c, batch) && o !in batch
    ensures CoreInv(Swept(c, batch, reachable).0) && SameFor(c, Swept(c, batch, reachable).0, o)
  {
    if batch != [] {
      var n := |batch| - 1;
      var init, last := batch[..n], batch[n];
      assert batch == init + [last] && last !in init;
      assert forall k :: 0 <= k < n ==> init[k] == batch[k];
      SweptLeavesOthers(c, init, reachable, o);
      SweptLeavesOthers(c, init, reachable, last);
      var before := Swept(c, init, reachable).0;
      assert MayClose(before.db, ExpiryDoor, last, PendingPayment);
      ExpiryLeavesOthers(before, last, reachable(last), o);
      ExpiryKeepsInv(before, last, reachable(last));
      SameTransitive(c, before, Swept(c, batch, reachable).0, o);
    }
  }

  /** The gateway keeps the order from expiring: it has the money for the live payment, or cannot be asked. */
  ghost predicate Held(c: Core, o: nat, reachable: bool) {
    exists p: nat :: LiveFor(c.db, o, p) && c.db.payments[p].intentId.Some? && c.db.payments[p].intentId.value < |c.gateway|
                     && (!reachable || c.gateway[c.db.payments[p].intentId.value].state.IntentSucceeded?)
  }

  lemma HeldIsSame(a: Core, b: Core, o: nat, reachable: bool)
    requires SameFor(a, b, o)
    ensures Held(a, o, reachable) <==> Held(b, o, reachable)
  {
    forall p: nat | p < |a.db.payments| ensures LiveFor(a.db, o, p) <==> LiveFor(b.db, o, p) {
    }
    if p: nat :| LiveFor(a.db, o, p) && a.db.payments[p].intentId.Some? && a.db.payments[p].intentId.value < |a.gateway|
                 && (!reachable || a.gateway[a.db.payments[p].intentId.value].state.IntentSucceeded?) {
      assert b.db.payments[p] == a.db.payments[p];
    }
    if p: nat :| LiveFor(b.db, o, p) && b.db.payments[p].intentId.Some? && b.db.payments[p].intentId.value < |b.gateway|
                 && (!reachable || b.gateway[b.db.payments[p].intentId.value].state.IntentSucceeded?) {
      assert LiveFor(a.db, o, p) && b.db.payments[p] == a.db.payments[p];
    }
  }

  lemma ExpiryDecides(c: Core, o: nat, reachable: bool)
    requires CoreInv(c) && MayClose(c.db, ExpiryDoor, o, PendingPayment)
    ensures var (after, expired) := Closed(c, ExpiryDoor, o, PendingPayment, System, None, reachable);
            && (expired <==> !Held(c, o, reachable)) && |after.db.orders| == |c.db.orders|
            && after.db.orders[o].status == (if expired then OrderStatus.Expired else PendingPayment)
            && (expired ==> !HasLive(after.db, o))
  {
    ClosedHasNoLivePayment(c, ExpiryDoor, o, PendingPayment, System, None, reachable);
    if p: nat :| LiveFor(c.db, o, p) {
      CloseLive(c, ExpiryDoor, o, PendingPayment, System, None, reachable, p);
      forall q: nat | LiveFor(c.db, o, q) ensures q == p {
        LiveIsFound(c, o, p);
        LiveIsFound(c, o, q);
      }
    } else {
      CloseUnpaid(c, ExpiryDoor, o, PendingPayment, System, None, reachable);
    }
  }

  /**
   A sweep expires every order of its batch that the gateway did not hold back when
   the sweep began, leaves it no live payment, and leaves the held ones waiting:
   whatever it did with the others.
   */
  lemma {:induction false} SweepExpires(c: Core, batch: seq<nat>, reachable: nat -> bool, o: nat)
    requires CoreInv(c) && AllPending(c, batch) && o in batch
    ensures var after := Swept(c, batch, reachable).0;
            && o < |after.db.orders|
            && after.db.orders[o].status == (if Held(c, o, reachable(o)) then PendingPayment else OrderStatus.Expired)
            && (!Held(c, o, reachable(o)) ==> !HasLive(after.db, o))
    decreases |batch|
  {
    var n := |batch| - 1;
    var init, last := batch[..n], batch[n];
    assert batch == init + [last] && last !in init;
    assert forall k :: 0 <= k < n ==> init[k] == batch[k];
    var before := Swept(c, init, reachable).0;
    SweptLeavesOthers(c, init, reachable, last);
    assert MayClose(before.db, ExpiryDoor, last, PendingPayment);
    if o == last {
      HeldIsSame(c, before, o, reachable(o));
      ExpiryDecides(before, o, reachable(o));
    } else {
      SweepExpires(c, init, reachable, o);
      ExpiryLeavesOthers(before, last, reachable(last), o);
      LiveIsSame(before, Swept(c, batch, reachable).0, o);
    }
  }

  lemma LiveIsSame(a: Core, b: Core, o: nat)
    requires SameFor(a, b, o)
    ensures HasLive(a.db, o) <==> HasLive(b.db, o)
  {
    forall p: nat | p < |a.db.payments| ensures LiveFor(a.db, o, p) <==> LiveFor(b.db, o, p) {
    }
    if HasLive(a.db, o) {
      var p: nat :| LiveFor(a.db, o, p);
    }
    if HasLive(b.db, o) {
      var p: nat :| LiveFor(b.db, o, p);
    }
  }

  // ----- What the sweeps report -----

  /** `free` says of each order of the batch whether the gateway let it go. */
  ghost predicate Tells(c: Core, batch: seq<nat>, reachable: nat -> bool, free: nat -> bool) {
    forall k: nat :: k < |batch| ==> (free(k) <==> !Held(c, batch[k], reachable(batch[k])))
  }

  lemma BatchSplits(c: Core, batch: seq<nat>, reachable: nat -> bool, free: nat -> bool)
    requires AllPending(c, batch) && Tells(c, batch, reachable, free) && batch != []
    ensures var n := |batch| - 1;
            && batch == batch[..n] + [batch[n]] && AllPending(c, batch[..n]) && Tells(c, batch[..n], reachable, free)
            && MayClose(c.db, ExpiryDoor, batch[n], PendingPayment) && batch[n] !in batch[..n]
            && (free(n) <==> !Held(c, batch[n], reachable(batch[n])))
  {
    var n := |batch| - 1;
    assert forall k :: 0 <= k < n ==> batch[..n][k] == batch[k];
  }

  /** The count is how many orders of the batch were not held back. */
  lemma {:induction false} SweepCounts(c: Core, batch: seq<nat>, reachable: nat -> bool, free: nat -> bool)
    requires CoreInv(c) && AllPending(c, batch) && Tells(c, batch, reachable, free)
    ensures Swept(c, batch, reachable).1 == |Select(|batch|, free)|
    decreases |batch|
  {
    if batch != [] {
      var n := |batch| - 1;
      BatchSplits(c, batch, reachable, free);
      SweepCounts(c, batch[..n], reachable, free);
      LastCounts(c, batch[..n], batch[n], reachable);
    }
  }

  lemma LastCounts(c: Core, init: seq<nat>, last: nat, reachable: nat -> bool)
    requires CoreInv(c) && AllPending(c, init) && MayClose(c.db, ExpiryDoor, last, PendingPayment) && last !in init
    ensures Swept(c, init + [last], reachable).1 == Swept(c, init, reachable).1 + if Held(c, last, reachable(last)) then 0 else 1
  {
    var before := Swept(c, init, reachable).0;
    SweptLeavesOthers(c, init, reachable, last);
    assert MayClose(before.db, ExpiryDoor, last, PendingPayment);
    HeldIsSame(c, before, last, reachable(last));
    ExpiryDecides(before, last, reachable(last));
    assert (init + [last])[..|init|] == init;
  }

  /** The count is how many events of the batch were acted on when their turn came. */
  lemma {:induction false} DrainCounts(db: Db, batch: seq<nat>, rails: nat -> Option<PaymentMethod>, acted: nat -> bool)
    requires forall k: nat :: k < |batch| ==> (acted(k) <==> Acts(Drained(db, batch[..k], rails), batch[k]))
    ensures ActedOn(db, batch, rails) == |Select(|batch|, acted)|
    decreases |batch|
  {
    if batch != [] {
      var n := |batch| - 1;
      var init := batch[..n];
      forall k: nat | k < n ensures acted(k) <==> Acts(Drained(db, init[..k], rails), init[k]) {
        assert init[..k] == batch[..k];
      }
      DrainCounts(db, init, rails, acted);
    }
  }
}

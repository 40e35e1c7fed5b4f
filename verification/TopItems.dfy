/** Merging the item lists of several days into one leaderboard. */
module TopItems {
  import opened Wrappers
  import opened Sums
  import opened Queries
  import opened DayAggregate
  import opened RollupRow

  datatype DayItems = DayItems(businessDay: int, topItems: seq<RollupItem>)

  /** An item of one day's list, with its day. */
  datatype Entry = Entry(day: int, item: RollupItem)

  datatype Running = Running(item: RollupItem, nameFrom: int)

  function EntriesOf(day: DayItems): seq<Entry> {
    seq(|day.topItems|, i requires 0 <= i < |day.topItems| => Entry(day.businessDay, day.topItems[i]))
  }

  function Entries(days: seq<DayItems>): seq<Entry> {
    if days == [] then [] else Entries(days[..|days| - 1]) + EntriesOf(days[|days| - 1])
  }

  /** The entries are the items of all the days: whatever is summed over them is the days' own sums. */
  lemma {:induction false} EntriesSum(days: seq<DayItems>, f: Entry -> int, perItem: (int, RollupItem) -> int, perDay: DayItems -> int)
    requires forall e: Entry :: f(e) == perItem(e.day, e.item)
    requires forall d: DayItems, g: RollupItem -> int :: (forall item: RollupItem :: g(item) == perItem(d.businessDay, item)) ==> perDay(d) == SumOf(d.topItems, g)
    ensures SumOf(Entries(days), f) == SumOf(days, perDay)
  {
    if days != [] {
      var init, d := days[..|days| - 1], days[|days| - 1];
      EntriesSum(init, f, perItem, perDay);
      SumOfConcat(Entries(init), EntriesOf(d), f);
      var g := (item: RollupItem) => perItem(d.businessDay, item);
      SumZip(EntriesOf(d), d.topItems, f, g);
    }
  }

  function EntryId(): Entry -> string { (e: Entry) => e.item.menuItemId }

  function EntryQuantity(): Entry -> int { (e: Entry) => e.item.quantity }

  function EntryRevenue(): Entry -> int { (e: Entry) => e.item.revenueMinor }

  /** The entry whose name a merged item carries. */
  function Latest(entries: seq<Entry>, id: string): Option<Entry> {
    if entries == [] then None else
      var before, last := Latest(entries[..|entries| - 1], id), entries[|entries| - 1];
      if last.item.menuItemId == id && (before.None? || last.day >= before.value.day) then Some(last) else before
  }

  /** It is the last entry among those of the item's latest day. */
  lemma {:induction false} LatestIs(entries: seq<Entry>, id: string)
    ensures match Latest(entries, id)
            case None => forall i :: 0 <= i < |entries| ==> entries[i].item.menuItemId != id
            case Some(e) => e.item.menuItemId == id && exists i :: IsLatestAt(entries, id, i) && entries[i] == e
  {
    if entries != [] {
      var init, n := entries[..|entries| - 1], |entries| - 1;
      LatestIs(init, id);
      var before := Latest(init, id);
      if Latest(entries, id) == Some(entries[n]) && entries[n].item.menuItemId == id && (before.None? || entries[n].day >= before.value.day) {
        if before.Some? {
          var i :| IsLatestAt(init, id, i) && init[i] == before.value;
          assert forall j :: 0 <= j < |init| ==> init[j] == entries[j];
        }
        assert IsLatestAt(entries, id, n);
      } else if before.Some? {
        var i :| IsLatestAt(init, id, i) && init[i] == before.value;
        assert forall j :: 0 <= j < |init| ==> init[j] == entries[j];
        assert IsLatestAt(entries, id, i);
      }
    }
  }

  ghost predicate IsLatestAt(entries: seq<Entry>, id: string, i: int) {
    && 0 <= i < |entries| && entries[i].item.menuItemId == id
    && forall j :: 0 <= j < |entries| && entries[j].item.menuItemId == id ==>
         entries[j].day < entries[i].day || (entries[j].day == entries[i].day && j <= i)
  }

  // ----- The merged list -----

  function QuantityUnder(id: string): Entry -> int { Under(EntryId(), EntryQuantity(), id) }

  function RevenueUnder(id: string): Entry -> int { Under(EntryId(), EntryRevenue(), id) }

  /** What the running total of one item must be after the given entries. */
  ghost predicate RunningIs(r: Running, entries: seq<Entry>, id: string) {
    && Latest(entries, id).Some?
    && r.item == RollupItem(id, Latest(entries, id).value.item.name, SumOf(entries, QuantityUnder(id)), SumOf(entries, RevenueUnder(id)))
    && r.nameFrom == Latest(entries, id).value.day
  }

  /** The totals, keyed by item, and their keys in insertion order. */
  ghost predicate Tallied(totals: map<string, Running>, order: seq<string>, entries: seq<Entry>) {
    && Unique(order)
    && (forall id :: id in order <==> id in totals)
    && (forall id :: id in totals <==> Latest(entries, id).Some?)
    && (forall id :: id in totals ==> RunningIs(totals[id], entries, id))
  }

  lemma {:induction false} AbsentSumsToZero(entries: seq<Entry>, id: string)
    requires Latest(entries, id).None?
    ensures SumOf(entries, QuantityUnder(id)) == 0 && SumOf(entries, RevenueUnder(id)) == 0
  {
    if entries != [] {
      AbsentSumsToZero(entries[..|entries| - 1], id);
    }
  }

  lemma TallyOther(entries: seq<Entry>, e: Entry, id: string)
    requires id != e.item.menuItemId
    ensures Latest(entries + [e], id) == Latest(entries, id)
    ensures SumOf(entries + [e], QuantityUnder(id)) == SumOf(entries, QuantityUnder(id))
    ensures SumOf(entries + [e], RevenueUnder(id)) == SumOf(entries, RevenueUnder(id))
  {
    assert (entries + [e])[..|entries|] == entries;
  }

  lemma TallySame(entries: seq<Entry>, e: Entry)
    ensures var id := e.item.menuItemId; var before := Latest(entries, id);
            && Latest(entries + [e], id) == (if before.None? || e.day >= before.value.day then Some(e) else before)
            && SumOf(entries + [e], QuantityUnder(id)) == SumOf(entries, QuantityUnder(id)) + e.item.quantity
            && SumOf(entries + [e], RevenueUnder(id)) == SumOf(entries, RevenueUnder(id)) + e.item.revenueMinor
  {
    assert (entries + [e])[..|entries|] == entries;
  }

  /** Adds one stored item to the running totals. */
  method Tally(totals: map<string, Running>, order: seq<string>, e: Entry, ghost done: seq<Entry>)
      returns (totals': map<string, Running>, order': seq<string>)
    requires Tallied(totals, order, done)
    ensures Tallied(totals', order', done + [e])
  {
    var id := e.item.menuItemId;
    TallySame(done, e);
    if id !in totals {
      AbsentSumsToZero(done, id);
      totals', order' := totals[id := Running(e.item, e.day)], order + [id];
    } else {
      var running := totals[id];
      var item := running.item.(quantity := running.item.quantity + e.item.quantity,
                                revenueMinor := running.item.revenueMinor + e.item.revenueMinor);
      totals' := totals[id := if e.day >= running.nameFrom then Running(item.(name := e.item.name), e.day)
                              else Running(item, running.nameFrom)];
      order' := order;
    }
    forall other ensures other in totals' <==> Latest(done + [e], other).Some?
                 ensures other in totals' ==> RunningIs(totals'[other], done + [e], other)
    {
      if other != id {
        TallyOther(done, e, other);
      }
    }
  }

  /** The merged items in the order their ids first appeared. */
  function Values(totals: map<string, Running>, order: seq<string>): seq<RollupItem>
    requires forall i :: 0 <= i < |order| ==> order[i] in totals
  {
    seq(|order|, i requires 0 <= i < |order| => totals[order[i]].item)
  }

  /** `merged` lists every item once, with its exact totals and its latest name. */
  ghost predicate Merges(entries: seq<Entry>, merged: seq<RollupItem>) {
    && (forall i, j :: 0 <= i < j < |merged| ==> merged[i].menuItemId != merged[j].menuItemId)
    && (forall e :: 0 <= e < |entries| ==> Listed(merged, entries[e].item.menuItemId))
    && (forall i :: 0 <= i < |merged| ==> MergedItem(entries, merged[i]))
  }

  ghost predicate Listed(merged: seq<RollupItem>, id: string) {
    exists i :: 0 <= i < |merged| && merged[i].menuItemId == id
  }

  ghost predicate MergedItem(entries: seq<Entry>, item: RollupItem) {
    && Latest(entries, item.menuItemId).Some?
    && item.name == Latest(entries, item.menuItemId).value.item.name
    && item.quantity == SumOf(entries, QuantityUnder(item.menuItemId))
    && item.revenueMinor == SumOf(entries, RevenueUnder(item.menuItemId))
  }

  lemma TalliedMerges(totals: map<string, Running>, order: seq<string>, entries: seq<Entry>)
    requires Tallied(totals, order, entries)
    ensures Merges(entries, Values(totals, order))
  {
    var merged := Values(totals, order);
    forall e | 0 <= e < |entries| ensures Listed(merged, entries[e].item.menuItemId) {
      var id := entries[e].item.menuItemId;
      LatestIs(entries, id);
      assert id in order;
      var i :| 0 <= i < |order| && order[i] == id;
      assert RunningIs(totals[id], entries, id);
      assert merged[i].menuItemId == id;
    }
    forall i | 0 <= i < |merged| ensures merged[i].menuItemId == order[i] && MergedItem(entries, merged[i]) {
      assert RunningIs(totals[order[i]], entries, order[i]);
    }
  }

  /** `top` is the start of a ranking of everything the entries merge into. */
  ghost predicate Leads(entries: seq<Entry>, top: seq<RollupItem>, limit: nat, collate: string -> real) {
    exists merged :: Merges(entries, merged) && top == Cut(SortItems(merged, collate), limit)
  }

  /** The leaderboard of a range: everything merged, then ranked, and only then cut to the limit. */
  method MergeTopItems(days: seq<DayItems>, limit: nat, collate: string -> real) returns (top: seq<RollupItem>)
    ensures Leads(Entries(days), top, limit, collate)
  {
    var totals: map<string, Running>, order: seq<string> := map[], [];
    ghost var done: seq<Entry> := [];
    for d := 0 to |days|
      invariant done == Entries(days[..d]) && Tallied(totals, order, done)
    {
      ghost var start := done;
      assert days[..d + 1][..d] == days[..d];
      for k := 0 to |days[d].topItems|
        invariant done == start + EntriesOf(days[d])[..k] && Tallied(totals, order, done)
      {
        var e := Entry(days[d].businessDay, days[d].topItems[k]);
        assert EntriesOf(days[d])[..k + 1] == EntriesOf(days[d])[..k] + [e];
        totals, order := Tally(totals, order, e, done);
        done := done + [e];
      }
      assert EntriesOf(days[d])[..|days[d].topItems|] == EntriesOf(days[d]);
    }
    assert days[..|days|] == days;
    TalliedMerges(totals, order, done);
    top := Cut(SortItems(Values(totals, order), collate), limit);
  }

  function Cut(items: seq<RollupItem>, limit: nat): seq<RollupItem> {
    if |items| <= limit then items else items[..limit]
  }

  // ----- What the leaderboard means -----

  /** The merged list is determined by the entries, up to order. */
  lemma MergeUnique(entries: seq<Entry>, a: seq<RollupItem>, b: seq<RollupItem>)
    requires Merges(entries, a) && Merges(entries, b)
    ensures multiset(a) == multiset(b)
  {
    MergeIncluded(entries, a, b);
    MergeIncluded(entries, b, a);
    SameElementsPermute(a, b);
  }

  lemma MergeIncluded(entries: seq<Entry>, a: seq<RollupItem>, b: seq<RollupItem>)
    requires Merges(entries, a) && Merges(entries, b)
    ensures forall x :: x in a ==> x in b
  {
    forall i | 0 <= i < |a| ensures a[i] in b {
      var j := SameItem(entries, entries, a, b, i);
      assert MergedItem(entries, a[i]) && MergedItem(entries, b[j]);
      assert b[j] == a[i];
    }
  }

  /** An item merged from some entries is found again in what a rearrangement of them merges into. */
  lemma SameItem(x: seq<Entry>, y: seq<Entry>, a: seq<RollupItem>, b: seq<RollupItem>, i: nat) returns (j: nat)
    requires Merges(x, a) && Merges(y, b) && multiset(x) == multiset(y) && i < |a|
    ensures j < |b| && b[j].menuItemId == a[i].menuItemId
  {
    assert MergedItem(x, a[i]);
    LatestIs(x, a[i].menuItemId);
    var e :| 0 <= e < |x| && x[e].item.menuItemId == a[i].menuItemId;
    assert x[e] in multiset(y);
    var f :| 0 <= f < |y| && y[f] == x[e];
    assert Listed(b, y[f].item.menuItemId);
    j :| 0 <= j < |b| && b[j].menuItemId == y[f].item.menuItemId;
  }

  /** Where an item stands: what was sold of it, then the collation's key of its name. */
  datatype Rank = Rank(sold: int, key: real)

  predicate RankedBefore(a: Rank, b: Rank) {
    a.sold > b.sold || (a.sold == b.sold && a.key <= b.key)
  }

  predicate RanksSorted(ranks: seq<Rank>) {
    forall i, j :: 0 <= i < j < |ranks| ==> RankedBefore(ranks[i], ranks[j])
  }

  function RankIn(collate: string -> real): RollupItem -> Rank {
    (item: RollupItem) => Rank(item.quantity, collate(item.name))
  }

  function SoldOnly(): RollupItem -> Rank {
    (item: RollupItem) => Rank(item.quantity, 0.0)
  }

  /** A sorted list of ranks is determined by which ranks there are. */
  lemma {:induction false} SortedRanksUnique(a: seq<Rank>, b: seq<Rank>)
    requires RanksSorted(a) && RanksSorted(b) && multiset(a) == multiset(b)
    ensures a == b
    decreases |a|
  {
    assert |multiset(a)| == |a| && |multiset(b)| == |b|;
    if a != [] {
      var n := |a| - 1;
      LastRank(a, b);
      LastRank(b, a);
      RestRanks(a, b);
      SortedRanksUnique(a[..n], b[..n]);
      assert a == a[..n] + [a[n]] && b == b[..n] + [b[n]];
    }
  }

  lemma RestRanks(a: seq<Rank>, b: seq<Rank>)
    requires |a| == |b| > 0 && multiset(a) == multiset(b) && a[|a| - 1] == b[|b| - 1]
    ensures multiset(a[..|a| - 1]) == multiset(b[..|b| - 1])
  {
    DropLast(a);
    DropLast(b);
  }

  lemma LastRank(a: seq<Rank>, b: seq<Rank>)
    requires |a| == |b| > 0 && RanksSorted(a) && multiset(a) == multiset(b)
    ensures RankedBefore(b[|b| - 1], a[|a| - 1])
  {
    assert b[|b| - 1] in multiset(a);
    var i :| 0 <= i < |a| && a[i] == b[|b| - 1];
  }

  /** Two sorted rearrangements of each other agree in rank at every place. */
  lemma RanksAgree(p: seq<RollupItem>, q: seq<RollupItem>, rank: RollupItem -> Rank)
    requires multiset(Map(p, rank)) == multiset(Map(q, rank)) && RanksSorted(Map(p, rank)) && RanksSorted(Map(q, rank))
    ensures |p| == |q| && forall i :: 0 <= i < |p| ==> rank(p[i]) == rank(q[i])
  {
    SortedRanksUnique(Map(p, rank), Map(q, rank));
    assert |p| == |Map(p, rank)| && |q| == |Map(q, rank)|;
    forall i | 0 <= i < |p| ensures rank(p[i]) == rank(q[i]) {
      assert Map(p, rank)[i] == Map(q, rank)[i];
    }
  }

  lemma SortedIsRanked(p: seq<RollupItem>, collate: string -> real)
    requires SortedItems(p, collate)
    ensures RanksSorted(Map(p, RankIn(collate))) && RanksSorted(Map(p, SoldOnly()))
  {
  }

  /** Any two leaderboards of the same entries hold the same rank at every place. */
  lemma LeadsDetermined(entries: seq<Entry>, a: seq<RollupItem>, b: seq<RollupItem>, limit: nat, collate: string -> real)
    requires Leads(entries, a, limit, collate) && Leads(entries, b, limit, collate)
    ensures |a| == |b| && forall i :: 0 <= i < |a| ==> RankIn(collate)(a[i]) == RankIn(collate)(b[i])
  {
    var x :| Merges(entries, x) && a == Cut(SortItems(x, collate), limit);
    var y :| Merges(entries, y) && b == Cut(SortItems(y, collate), limit);
    MergeUnique(entries, x, y);
    BoardsAgree(x, y, limit, collate);
  }

  lemma BoardsAgree(x: seq<RollupItem>, y: seq<RollupItem>, limit: nat, collate: string -> real)
    requires multiset(x) == multiset(y)
    ensures var a, b := Cut(SortItems(x, collate), limit), Cut(SortItems(y, collate), limit);
            |a| == |b| && forall i :: 0 <= i < |a| ==> RankIn(collate)(a[i]) == RankIn(collate)(b[i])
  {
    var p, q := SortItems(x, collate), SortItems(y, collate);
    RanksInOrder(p, q, collate);
    CutRanks(p, q, limit, collate);
  }

  lemma RanksInOrder(p: seq<RollupItem>, q: seq<RollupItem>, collate: string -> real)
    requires multiset(p) == multiset(q) && SortedItems(p, collate) && SortedItems(q, collate)
    ensures |p| == |q| && forall i :: 0 <= i < |p| ==> RankIn(collate)(p[i]) == RankIn(collate)(q[i])
  {
    SortedIsRanked(p, collate);
    SortedIsRanked(q, collate);
    MapPermutes(p, q, RankIn(collate));
    RanksAgree(p, q, RankIn(collate));
  }

  lemma CutRanks(p: seq<RollupItem>, q: seq<RollupItem>, limit: nat, collate: string -> real)
    requires |p| == |q| && forall i :: 0 <= i < |p| ==> RankIn(collate)(p[i]) == RankIn(collate)(q[i])
    ensures |Cut(p, limit)| == |Cut(q, limit)|
    ensures forall i :: 0 <= i < |Cut(p, limit)| ==> RankIn(collate)(Cut(p, limit)[i]) == RankIn(collate)(Cut(q, limit)[i])
  {
  }

  function Bare(): RollupItem -> RollupItem {
    (item: RollupItem) => item.(name := "")
  }

  /** Rearranged entries merge into the same items, names aside: a name can hang on how ties within one day fell. */
  lemma MergePermutes(x: seq<Entry>, y: seq<Entry>, a: seq<RollupItem>, b: seq<RollupItem>)
    requires multiset(x) == multiset(y) && Merges(x, a) && Merges(y, b)
    ensures multiset(Map(a, Bare())) == multiset(Map(b, Bare()))
  {
    BareIncluded(x, y, a, b);
    BareIncluded(y, x, b, a);
    SameElementsPermute(Map(a, Bare()), Map(b, Bare()));
  }

  lemma BareIncluded(x: seq<Entry>, y: seq<Entry>, a: seq<RollupItem>, b: seq<RollupItem>)
    requires multiset(x) == multiset(y) && Merges(x, a) && Merges(y, b)
    ensures Unique(Map(a, Bare())) && forall z :: z in Map(a, Bare()) ==> z in Map(b, Bare())
  {
    forall i, j | 0 <= i < j < |a| ensures Map(a, Bare())[i] != Map(a, Bare())[j] {
      assert a[i].menuItemId != a[j].menuItemId;
    }
    forall i | 0 <= i < |a| ensures Map(a, Bare())[i] in Map(b, Bare()) {
      var j := SameItem(x, y, a, b, i);
      SumPermutes(x, y, QuantityUnder(a[i].menuItemId));
      SumPermutes(x, y, RevenueUnder(a[i].menuItemId));
      assert MergedItem(x, a[i]) && MergedItem(y, b[j]);
      assert Map(b, Bare())[j] == Map(a, Bare())[i];
    }
  }

  // ----- What two leaderboards of rearranged entries share -----

  function Ids(entries: seq<Entry>): set<string> {
    set e | e in entries :: e.item.menuItemId
  }

  /** The same item with the same totals is on the other board, perhaps under another of the day's names. */
  ghost predicate AlsoOn(board: seq<RollupItem>, item: RollupItem) {
    exists j :: 0 <= j < |board| && Bare()(board[j]) == Bare()(item)
  }

  /**
   Two boards of the same sales: as many places with as many sold at each; every
   item that beats the last place is on both with the same totals; and a board with
   room for everything holds exactly the same items.
   */
  ghost predicate SameSales(a: seq<RollupItem>, b: seq<RollupItem>, items: nat, limit: nat) {
    && |a| == |b| && (forall i :: 0 <= i < |a| ==> a[i].quantity == b[i].quantity)
    && (forall i :: 0 <= i < |a| && a[i].quantity > a[|a| - 1].quantity ==> AlsoOn(b, a[i]))
    && (forall i :: 0 <= i < |b| && b[i].quantity > b[|b| - 1].quantity ==> AlsoOn(a, b[i]))
    && (items <= limit ==> multiset(Map(a, Bare())) == multiset(Map(b, Bare())))
  }

  /** Rearranging the entries changes no sales on the leaderboard. */
  lemma LeadsPermute(x: seq<Entry>, y: seq<Entry>, a: seq<RollupItem>, b: seq<RollupItem>, limit: nat, collate: string -> real)
    requires multiset(x) == multiset(y) && Leads(x, a, limit, collate) && Leads(y, b, limit, collate)
    ensures SameSales(a, b, |Ids(x)|, limit)
  {
    var m :| Merges(x, m) && a == Cut(SortItems(m, collate), limit);
    var n :| Merges(y, n) && b == Cut(SortItems(n, collate), limit);
    MergePermutes(x, y, m, n);
    MergedCount(x, m);
    SortedBare(m, n, collate);
    BoardsShare(SortItems(m, collate), SortItems(n, collate), limit, collate);
  }

  lemma SortedBare(m: seq<RollupItem>, n: seq<RollupItem>, collate: string -> real)
    requires multiset(Map(m, Bare())) == multiset(Map(n, Bare()))
    ensures var p, q := SortItems(m, collate), SortItems(n, collate);
            |p| == |m| && SortedItems(p, collate) && SortedItems(q, collate) && multiset(Map(p, Bare())) == multiset(Map(q, Bare()))
  {
    var p, q := SortItems(m, collate), SortItems(n, collate);
    MapPermutes(p, m, Bare());
    MapPermutes(q, n, Bare());
    assert |multiset(p)| == |p| && |multiset(m)| == |m|;
  }

  lemma BoardsShare(p: seq<RollupItem>, q: seq<RollupItem>, limit: nat, collate: string -> real)
    requires SortedItems(p, collate) && SortedItems(q, collate) && multiset(Map(p, Bare())) == multiset(Map(q, Bare()))
    ensures SameSales(Cut(p, limit), Cut(q, limit), |p|, limit)
  {
    SoldInOrder(p, q, collate);
    CutAgrees(p, q, limit);
    forall i | 0 <= i < |Cut(p, limit)| && Cut(p, limit)[i].quantity > Cut(p, limit)[|Cut(p, limit)| - 1].quantity ensures AlsoOn(Cut(q, limit), Cut(p, limit)[i]) {
      BestAlsoOn(p, q, limit, i, collate);
    }
    forall i | 0 <= i < |Cut(q, limit)| && Cut(q, limit)[i].quantity > Cut(q, limit)[|Cut(q, limit)| - 1].quantity ensures AlsoOn(Cut(p, limit), Cut(q, limit)[i]) {
      BestAlsoOn(q, p, limit, i, collate);
    }
  }

  /** What beats the last place of one board is on the other. */
  lemma BestAlsoOn(p: seq<RollupItem>, q: seq<RollupItem>, limit: nat, i: nat, collate: string -> real)
    requires SortedItems(q, collate) && multiset(Map(p, Bare())) == multiset(Map(q, Bare()))
    requires |p| == |q| && forall i :: 0 <= i < |p| ==> p[i].quantity == q[i].quantity
    requires i < |Cut(p, limit)| && p[i].quantity > p[|Cut(p, limit)| - 1].quantity
    ensures AlsoOn(Cut(q, limit), p[i])
  {
    var j := Twin(p, q, i);
    MakesTheCut(q, limit, j, collate);
    assert Cut(q, limit)[j] == q[j];
  }

  /** An item's counterpart in the other ranking. */
  lemma Twin(p: seq<RollupItem>, q: seq<RollupItem>, i: nat) returns (j: nat)
    requires multiset(Map(p, Bare())) == multiset(Map(q, Bare())) && i < |p|
    ensures j < |q| && Bare()(q[j]) == Bare()(p[i])
  {
    assert Map(p, Bare())[i] in multiset(Map(q, Bare()));
    j :| 0 <= j < |Map(q, Bare())| && Map(q, Bare())[j] == Map(p, Bare())[i];
  }

  /** What outsells the last place on the board is on the board. */
  lemma MakesTheCut(q: seq<RollupItem>, limit: nat, j: nat, collate: string -> real)
    requires SortedItems(q, collate) && j < |q| && |Cut(q, limit)| > 0 && q[j].quantity > q[|Cut(q, limit)| - 1].quantity
    ensures j < |Cut(q, limit)|
  {
  }

  /** There are as many merged items as there are ids. */
  lemma MergedCount(entries: seq<Entry>, merged: seq<RollupItem>)
    requires Merges(entries, merged)
    ensures |merged| == |Ids(entries)|
  {
    var ids := seq(|merged|, i requires 0 <= i < |merged| => merged[i].menuItemId);
    forall id ensures id in ids <==> id in Ids(entries) {
      if id in ids {
        var i :| 0 <= i < |ids| && ids[i] == id;
        assert MergedItem(entries, merged[i]);
        LatestIs(entries, id);
      }
      if id in Ids(entries) {
        var e :| 0 <= e < |entries| && entries[e].item.menuItemId == id;
        assert Listed(merged, entries[e].item.menuItemId);
        var i :| 0 <= i < |merged| && merged[i].menuItemId == id;
        assert ids[i] == id;
      }
    }
    UniqueSize(ids, Ids(entries));
  }

  lemma {:induction false} UniqueSize<T(!new)>(s: seq<T>, elements: set<T>)
    requires Unique(s) && forall x :: x in s <==> x in elements
    ensures |s| == |elements|
    decreases |s|
  {
    if s != [] {
      var n := |s| - 1;
      assert s == s[..n] + [s[n]];
      UniqueSize(s[..n], elements - {s[n]});
    } else {
      assert elements == {};
    }
  }

  // ----- One name a day -----

  predicate SameItemAndDay(e: Entry, f: Entry) {
    e.day == f.day && e.item.menuItemId == f.item.menuItemId
  }

  /** No item goes by two names on one day. */
  ghost predicate OneNameADay(entries: seq<Entry>) {
    forall i, j :: 0 <= i < |entries| && 0 <= j < |entries| && SameItemAndDay(entries[i], entries[j]) ==> entries[i].item.name == entries[j].item.name
  }

  /** Then the entries alone decide the name, whatever their order. */
  lemma NameIsDecided(x: seq<Entry>, y: seq<Entry>, id: string)
    requires multiset(x) == multiset(y) && OneNameADay(x) && Latest(x, id).Some? && Latest(y, id).Some?
    ensures Latest(x, id).value.item.name == Latest(y, id).value.item.name
  {
    LatestIs(x, id);
    LatestIs(y, id);
    var i :| IsLatestAt(x, id, i) && x[i] == Latest(x, id).value;
    var j :| IsLatestAt(y, id, j) && y[j] == Latest(y, id).value;
    assert y[j] in multiset(x) && x[i] in multiset(y);
    var k :| 0 <= k < |x| && x[k] == y[j];
    var l :| 0 <= l < |y| && y[l] == x[i];
  }

  lemma NamedIncluded(x: seq<Entry>, y: seq<Entry>, a: seq<RollupItem>, b: seq<RollupItem>)
    requires multiset(x) == multiset(y) && OneNameADay(x) && Merges(x, a) && Merges(y, b)
    ensures Unique(a) && forall z :: z in a ==> z in b
  {
    forall i | 0 <= i < |a| ensures a[i] in b {
      var j := SameItem(x, y, a, b, i);
      SumPermutes(x, y, QuantityUnder(a[i].menuItemId));
      SumPermutes(x, y, RevenueUnder(a[i].menuItemId));
      assert MergedItem(x, a[i]) && MergedItem(y, b[j]);
      NameIsDecided(x, y, a[i].menuItemId);
      assert b[j] == a[i];
    }
  }

  lemma OneNamePermutes(x: seq<Entry>, y: seq<Entry>)
    requires multiset(x) == multiset(y) && OneNameADay(x)
    ensures OneNameADay(y)
  {
    forall i, j | 0 <= i < |y| && 0 <= j < |y| && SameItemAndDay(y[i], y[j])
      ensures y[i].item.name == y[j].item.name
    {
      assert y[i] in multiset(x) && y[j] in multiset(x);
      var k :| 0 <= k < |x| && x[k] == y[i];
      var l :| 0 <= l < |x| && x[l] == y[j];
    }
  }

  /** With one name a day, rearranging the entries changes no rank on the leaderboard. */
  lemma NamedLeadsPermute(x: seq<Entry>, y: seq<Entry>, a: seq<RollupItem>, b: seq<RollupItem>, limit: nat, collate: string -> real)
    requires multiset(x) == multiset(y) && OneNameADay(x) && Leads(x, a, limit, collate) && Leads(y, b, limit, collate)
    ensures |a| == |b| && forall i :: 0 <= i < |a| ==> RankIn(collate)(a[i]) == RankIn(collate)(b[i])
  {
    var m :| Merges(x, m) && a == Cut(SortItems(m, collate), limit);
    var n :| Merges(y, n) && b == Cut(SortItems(n, collate), limit);
    OneNamePermutes(x, y);
    NamedIncluded(x, y, m, n);
    NamedIncluded(y, x, n, m);
    SameElementsPermute(m, n);
    BoardsAgree(m, n, limit, collate);
  }

  // ----- Which name a renamed item keeps -----

  /** Within a day, entries come in the order of the day's ranking. */
  ghost predicate RankedWithinDays(entries: seq<Entry>, collate: string -> real) {
    forall i, j :: 0 <= i < j < |entries| && entries[i].day == entries[j].day ==> Precedes(entries[i].item, entries[j].item, collate)
  }

  ghost predicate DaysAscend(days: seq<DayItems>) {
    forall i, j :: 0 <= i < j < |days| ==> days[i].businessDay < days[j].businessDay
  }

  lemma {:induction false} EntriesRanked(days: seq<DayItems>, collate: string -> real)
    requires DaysAscend(days) && forall i :: 0 <= i < |days| ==> SortedItems(days[i].topItems, collate)
    ensures RankedWithinDays(Entries(days), collate)
    ensures forall i :: 0 <= i < |Entries(days)| ==> days != [] && Entries(days)[i].day <= days[|days| - 1].businessDay
  {
    if days != [] {
      var n := |days| - 1;
      EntriesRanked(days[..n], collate);
      var before, last := Entries(days[..n]), EntriesOf(days[n]);
      assert Entries(days) == before + last;
      assert n > 0 ==> days[..n][n - 1].businessDay < days[n].businessDay;
    }
  }

  /**
   Day lists are ranked by what was sold, so among the names an item went by on its
   latest day the one kept is the one that sold least, whichever is newer.
   */
  lemma KeptNameSoldLeast(days: seq<DayItems>, id: string, i: nat, collate: string -> real)
    requires DaysAscend(days) && forall d :: 0 <= d < |days| ==> SortedItems(days[d].topItems, collate)
    requires i < |Entries(days)| && Entries(days)[i].item.menuItemId == id
    ensures Latest(Entries(days), id).Some?
    ensures var e, kept := Entries(days)[i], Latest(Entries(days), id).value;
            kept.item.menuItemId == id && (e.day < kept.day || (e.day == kept.day && Precedes(e.item, kept.item, collate)))
  {
    EntriesRanked(days, collate);
    LatestIs(Entries(days), id);
    var k :| IsLatestAt(Entries(days), id, k) && Entries(days)[k] == Latest(Entries(days), id).value;
  }

  /**
   An item renamed in the course of its latest day keeps the second name if and only
   if less of it was sold under that name, or as much and the name sorts later.
   */
  lemma RenameShowsIff(days: seq<DayItems>, id: string, i: nat, j: nat, collate: string -> real)
    requires DaysAscend(days) && forall d :: 0 <= d < |days| ==> SortedItems(days[d].topItems, collate)
    requires i < |Entries(days)| && j < |Entries(days)| && Entries(days)[i].item.menuItemId == Entries(days)[j].item.menuItemId == id
    requires forall k :: 0 <= k < |Entries(days)| && Entries(days)[k].item.menuItemId == id && Entries(days)[k].day >= Entries(days)[i].day ==> k == i || k == j
    requires var first, renamed := Entries(days)[i], Entries(days)[j];
             first.day == renamed.day && first.item.name != renamed.item.name && RankIn(collate)(first.item) != RankIn(collate)(renamed.item)
    ensures Latest(Entries(days), id).Some?
    ensures var first, renamed := Entries(days)[i].item, Entries(days)[j].item;
            Latest(Entries(days), id).value.item.name == renamed.name <==>
            renamed.quantity < first.quantity || (renamed.quantity == first.quantity && collate(first.name) < collate(renamed.name))
  {
    KeptNameSoldLeast(days, id, i, collate);
    KeptNameSoldLeast(days, id, j, collate);
    LatestIs(Entries(days), id);
    var k :| IsLatestAt(Entries(days), id, k) && Entries(days)[k] == Latest(Entries(days), id).value;
  }

  lemma CutAgrees(p: seq<RollupItem>, q: seq<RollupItem>, limit: nat)
    requires |p| == |q| && forall i :: 0 <= i < |p| ==> p[i].quantity == q[i].quantity
    ensures |Cut(p, limit)| == |Cut(q, limit)| && forall i :: 0 <= i < |Cut(p, limit)| ==> Cut(p, limit)[i].quantity == Cut(q, limit)[i].quantity
  {
  }

  lemma SoldInOrder(p: seq<RollupItem>, q: seq<RollupItem>, collate: string -> real)
    requires multiset(Map(p, Bare())) == multiset(Map(q, Bare())) && SortedItems(p, collate) && SortedItems(q, collate)
    ensures |p| == |q| && forall i :: 0 <= i < |p| ==> p[i].quantity == q[i].quantity
  {
    SortedIsRanked(p, collate);
    SortedIsRanked(q, collate);
    MapPermutes(Map(p, Bare()), Map(q, Bare()), SoldOnly());
    SoldIsBare(p);
    SoldIsBare(q);
    RanksAgree(p, q, SoldOnly());
    forall i | 0 <= i < |p| ensures p[i].quantity == q[i].quantity {
      assert SoldOnly()(p[i]) == SoldOnly()(q[i]);
    }
  }

  lemma SoldIsBare(items: seq<RollupItem>)
    ensures Map(Map(items, Bare()), SoldOnly()) == Map(items, SoldOnly())
  {
  }

  /** Nothing left off the leaderboard outranks anything on it. */
  lemma CutKeepsTheBest(merged: seq<RollupItem>, limit: nat, collate: string -> real, i: nat, x: RollupItem)
    requires i < |Cut(SortItems(merged, collate), limit)|
    requires x in multiset(merged) - multiset(Cut(SortItems(merged, collate), limit))
    ensures Precedes(Cut(SortItems(merged, collate), limit)[i], x, collate)
  {
    var sorted := SortItems(merged, collate);
    LeftOff(sorted, limit, x);
    var j :| limit <= j < |sorted| && sorted[j] == x;
    assert Precedes(sorted[i], sorted[j], collate);
  }

  lemma LeftOff(sorted: seq<RollupItem>, limit: nat, x: RollupItem)
    requires x in multiset(sorted) - multiset(Cut(sorted, limit))
    ensures exists j :: limit <= j < |sorted| && sorted[j] == x
  {
    if |sorted| > limit {
      var rest := sorted[limit..];
      assert sorted == sorted[..limit] + rest;
      assert multiset(sorted) == multiset(sorted[..limit]) + multiset(rest);
      assert x in multiset(rest);
      var k :| 0 <= k < |rest| && rest[k] == x;
      assert sorted[limit + k] == x;
    }
  }

  /** A leaderboard has a place for every item there is, up to the limit, and each place shows what was merged for it. */
  lemma BoardHolds(entries: seq<Entry>, top: seq<RollupItem>, limit: nat, collate: string -> real)
    requires Leads(entries, top, limit, collate)
    ensures |top| == if |Ids(entries)| <= limit then |Ids(entries)| else limit
    ensures forall i :: 0 <= i < |top| ==> MergedItem(entries, top[i])
    ensures forall i, j :: 0 <= i < j < |top| ==> Precedes(top[i], top[j], collate)
  {
    var merged :| Merges(entries, merged) && top == Cut(SortItems(merged, collate), limit);
    MergedCount(entries, merged);
    var sorted := SortItems(merged, collate);
    assert |multiset(sorted)| == |sorted| && |multiset(merged)| == |merged|;
    forall i | 0 <= i < |top| ensures MergedItem(entries, top[i]) {
      assert top[i] == sorted[i] && sorted[i] in multiset(merged);
      var k :| 0 <= k < |merged| && merged[k] == sorted[i];
    }
  }

  function ItemGroups(merged: seq<RollupItem>): seq<Group<string>> {
    seq(|merged|, i requires 0 <= i < |merged| => Group(merged[i].menuItemId, merged[i].revenueMinor))
  }

  /** Merging conserves money: before the cut, the items add up to everything the days sold. */
  lemma MergeConserves(entries: seq<Entry>, merged: seq<RollupItem>)
    requires Merges(entries, merged)
    ensures SumOf(merged, ItemRevenue()) == SumOf(entries, EntryRevenue())
  {
    var groups := ItemGroups(merged);
    forall e | 0 <= e < |entries| ensures HasKey(groups, EntryId()(entries[e])) {
      assert Listed(merged, entries[e].item.menuItemId);
      var i :| 0 <= i < |merged| && merged[i].menuItemId == entries[e].item.menuItemId;
      assert groups[i].key == EntryId()(entries[e]);
    }
    forall i | 0 <= i < |groups| ensures GroupOk(entries, EntryId(), EntryRevenue(), groups[i]) {
      assert MergedItem(entries, merged[i]);
      LatestIs(entries, merged[i].menuItemId);
      OccursIs(entries, EntryId(), merged[i].menuItemId);
    }
    GroupsAddUp(entries, EntryId(), EntryRevenue(), groups, Any());
    SumZip(merged, groups, ItemRevenue(), InClass(Any()));
    SumCongruent(entries, RowInClass(EntryId(), EntryRevenue(), Any()), EntryRevenue());
  }

  /** Cutting each day before merging can lose the best seller of the range. */
  lemma CuttingDaysIsWrong()
    ensures var steady, mon, tue := "c", "a", "b";
            var monday := DayItems(1, [RollupItem(mon, mon, 3, 3), RollupItem(steady, steady, 2, 2)]);
            var tuesday := DayItems(2, [RollupItem(tue, tue, 3, 3), RollupItem(steady, steady, 2, 2)]);
            var cutEach := [monday.(topItems := monday.topItems[..1]), tuesday.(topItems := tuesday.topItems[..1])];
            && Latest(Entries(cutEach), steady).None?
            && SumOf(Entries([monday, tuesday]), QuantityUnder(steady)) == 4
            && SumOf(Entries([monday, tuesday]), QuantityUnder(mon)) == 3
            && SumOf(Entries([monday, tuesday]), QuantityUnder(tue)) == 3
  {
    var monday := DayItems(1, [RollupItem("a", "a", 3, 3), RollupItem("c", "c", 2, 2)]);
    var tuesday := DayItems(2, [RollupItem("b", "b", 3, 3), RollupItem("c", "c", 2, 2)]);
    var m, t := monday.(topItems := monday.topItems[..1]), tuesday.(topItems := tuesday.topItems[..1]);
    TwoDays(m, t);
    TwoDays(monday, tuesday);
    var a, b := Entry(1, RollupItem("a", "a", 3, 3)), Entry(1, RollupItem("c", "c", 2, 2));
    var c, d := Entry(2, RollupItem("b", "b", 3, 3)), Entry(2, RollupItem("c", "c", 2, 2));
    assert EntriesOf(m) == [a] && EntriesOf(t) == [c];
    assert EntriesOf(monday) == [a, b] && EntriesOf(tuesday) == [c, d];
    assert Entries([m, t]) == [a, c];
    assert [a, c][..1] == [a] && [a][..0] == [];
    assert Latest([a], "c").None?;
    assert Entries([monday, tuesday]) == [a, b, c, d];
    SumOfFour([a, b, c, d], QuantityUnder("a"));
    SumOfFour([a, b, c, d], QuantityUnder("b"));
    SumOfFour([a, b, c, d], QuantityUnder("c"));
  }

  lemma TwoDays(x: DayItems, y: DayItems)
    ensures Entries([x, y]) == EntriesOf(x) + EntriesOf(y)
  {
    assert [x, y][..1] == [x] && [x][..0] == [];
    assert Entries([x]) == EntriesOf(x);
  }
}

/** Queries over tables: selecting rows by id, and grouping rows under keys. */
module Queries {
  import opened Sums

  // ----- select ... where -----

  /** The ids below `n` that satisfy `keep`, in order. */
  function Select(n: nat, keep: nat -> bool): seq<nat> {
    if n == 0 then []
    else if keep(n - 1) then Select(n - 1, keep) + [n - 1]
    else Select(n - 1, keep)
  }

  lemma {:induction false} SelectIs(n: nat, keep: nat -> bool)
    ensures forall i: nat :: i in Select(n, keep) <==> i < n && keep(i)
    ensures Unique(Select(n, keep))
    ensures forall i :: 0 <= i < |Select(n, keep)| ==> Select(n, keep)[i] < n && keep(Select(n, keep)[i])
  {
    if n > 0 {
      SelectIs(n - 1, keep);
    }
  }

  lemma {:induction false} SelectSame(n: nat, a: nat -> bool, b: nat -> bool)
    requires forall i: nat :: i < n ==> (a(i) <==> b(i))
    ensures Select(n, a) == Select(n, b)
  {
    if n > 0 {
      SelectSame(n - 1, a, b);
    }
  }

  lemma Appended(n: nat, keep: nat -> bool, f: nat -> int)
    ensures SumOf(Select(n + 1, keep), f) == SumOf(Select(n, keep), f) + if keep(n) then f(n) else 0
  {
    if keep(n) {
      assert Select(n + 1, keep)[..|Select(n, keep)|] == Select(n, keep);
    }
  }

  /**
   A selection that can only have grown, with positive weights, has the same total
   only if it is the same selection.
   */
  lemma EqualSumSameSelection(n: nat, m: nat, a: nat -> bool, b: nat -> bool, f: nat -> int, g: nat -> int)
    requires n <= m
    requires forall i: nat :: i < n && a(i) ==> b(i) && f(i) == g(i)
    requires forall i: nat :: i < m && b(i) ==> g(i) > 0
    ensures SumOf(Select(n, a), f) <= SumOf(Select(m, b), g)
    ensures SumOf(Select(n, a), f) == SumOf(Select(m, b), g) ==> Select(n, a) == Select(m, b)
  {
    SumsTell(n, m, a, b, f, g);
  }

  /** The second sum is no smaller, and equal only for the same selection. */
  ghost predicate Tells(x: seq<nat>, y: seq<nat>, f: nat -> int, g: nat -> int) {
    SumOf(x, f) <= SumOf(y, g) && (SumOf(x, f) == SumOf(y, g) ==> x == y)
  }

  lemma {:induction false} SumsTell(n: nat, m: nat, a: nat -> bool, b: nat -> bool, f: nat -> int, g: nat -> int)
    requires n <= m
    requires forall i: nat :: i < n && a(i) ==> b(i) && f(i) == g(i)
    requires forall i: nat :: i < m && b(i) ==> g(i) > 0
    ensures Tells(Select(n, a), Select(m, b), f, g)
    decreases m
  {
    if m > 0 {
      if n == m {
        SumsTell(n - 1, m - 1, a, b, f, g);
        BothGrow(n - 1, a, b, f, g);
      } else {
        SumsTell(n, m - 1, a, b, f, g);
        OneGrows(n, m - 1, a, b, f, g);
      }
    }
  }

  lemma OneGrows(n: nat, m: nat, a: nat -> bool, b: nat -> bool, f: nat -> int, g: nat -> int)
    requires (b(m) ==> g(m) > 0) && Tells(Select(n, a), Select(m, b), f, g)
    ensures Tells(Select(n, a), Select(m + 1, b), f, g)
  {
    Appended(m, b, g);
  }

  lemma BothGrow(n: nat, a: nat -> bool, b: nat -> bool, f: nat -> int, g: nat -> int)
    requires (a(n) ==> b(n) && f(n) == g(n)) && (b(n) ==> g(n) > 0) && Tells(Select(n, a), Select(n, b), f, g)
    ensures Tells(Select(n + 1, a), Select(n + 1, b), f, g)
  {
    Appended(n, a, f);
    Appended(n, b, g);
    if a(n) == b(n) && Select(n, a) == Select(n, b) {
      LastRow(n, a, b);
    }
  }

  lemma LastRow(n: nat, a: nat -> bool, b: nat -> bool)
    requires Select(n, a) == Select(n, b) && a(n) == b(n)
    ensures Select(n + 1, a) == Select(n + 1, b)
  {
  }

  // ----- group by -----

  datatype Group<K> = Group(key: K, total: int)

  /** What the rows under key `k` contribute. */
  function Under<T, K(==)>(key: T -> K, value: T -> int, k: K): T -> int {
    t => if key(t) == k then value(t) else 0
  }

  /**
   `groups` is the result of grouping `rows` by `key` and summing `value`: one
   group for each key that occurs, in no particular order.
   */
  ghost predicate IsGrouping<T, K>(rows: seq<T>, key: T -> K, value: T -> int, groups: seq<Group<K>>) {
    && (forall i, j :: 0 <= i < j < |groups| ==> groups[i].key != groups[j].key)
    && (forall i :: 0 <= i < |rows| ==> HasKey(groups, key(rows[i])))
    && (forall i :: 0 <= i < |groups| ==> GroupOk(rows, key, value, groups[i]))
  }

  /** The group's key occurs among the rows, and its total is what they contribute under it. */
  ghost predicate GroupOk<T, K>(rows: seq<T>, key: T -> K, value: T -> int, g: Group<K>) {
    Occurs(rows, key, g.key) && g.total == SumOf(rows, Under(key, value, g.key))
  }

  predicate Occurs<T, K(==)>(rows: seq<T>, key: T -> K, k: K) {
    rows != [] && (key(rows[|rows| - 1]) == k || Occurs(rows[..|rows| - 1], key, k))
  }

  lemma {:induction false} OccursIs<T, K>(rows: seq<T>, key: T -> K, k: K)
    ensures Occurs(rows, key, k) <==> exists i :: 0 <= i < |rows| && key(rows[i]) == k
  {
    if rows != [] {
      var init := rows[..|rows| - 1];
      OccursIs(init, key, k);
      if Occurs(init, key, k) {
        var i :| 0 <= i < |init| && key(init[i]) == k;
        assert key(rows[i]) == k;
      }
      forall i | 0 <= i < |rows| && key(rows[i]) == k ensures Occurs(rows, key, k) {
        if i < |init| {
          assert key(init[i]) == k;
        }
      }
    }
  }

  ghost predicate HasKey<K>(groups: seq<Group<K>>, k: K) {
    exists i :: 0 <= i < |groups| && groups[i].key == k
  }

  /** The keys of a grouping are those of the rows. */
  lemma KeysAreRows<T, K>(rows: seq<T>, key: T -> K, value: T -> int, groups: seq<Group<K>>, k: K)
    requires IsGrouping(rows, key, value, groups)
    ensures HasKey(groups, k) <==> exists i :: 0 <= i < |rows| && key(rows[i]) == k
  {
    if HasKey(groups, k) {
      var i :| 0 <= i < |groups| && groups[i].key == k;
      assert GroupOk(rows, key, value, groups[i]);
      OccursIs(rows, key, k);
    }
  }

  /** The grouping, with groups in order of first appearance. */
  function GroupBy<T, K(==)>(rows: seq<T>, key: T -> K, value: T -> int): seq<Group<K>> {
    if rows == [] then [] else
      var last := rows[|rows| - 1];
      AddTo(GroupBy(rows[..|rows| - 1], key, value), key(last), value(last))
  }

  function AddTo<K(==)>(groups: seq<Group<K>>, k: K, amount: int): seq<Group<K>> {
    if groups == [] then [Group(k, amount)]
    else if groups[0].key == k then [Group(k, groups[0].total + amount)] + groups[1..]
    else [groups[0]] + AddTo(groups[1..], k, amount)
  }

  function TotalOf<K>(): Group<K> -> int {
    (g: Group<K>) => g.total
  }

  function InClass<K>(within: K -> bool): Group<K> -> int {
    (g: Group<K>) => if within(g.key) then g.total else 0
  }

  function RowInClass<T, K>(key: T -> K, value: T -> int, within: K -> bool): T -> int {
    t => if within(key(t)) then value(t) else 0
  }

  /** Every key. */
  function Any<K>(): K -> bool {
    (k: K) => true
  }

  lemma {:induction false} AddToIs<K>(groups: seq<Group<K>>, k: K, amount: int)
    requires forall i, j :: 0 <= i < j < |groups| ==> groups[i].key != groups[j].key
    ensures var r := AddTo(groups, k, amount);
            && |groups| <= |r| <= |groups| + 1
            && (forall i :: 0 <= i < |groups| ==> r[i] == Group(groups[i].key, groups[i].total + if groups[i].key == k then amount else 0))
            && (|r| == |groups| <==> HasKey(groups, k))
            && (|r| > |groups| ==> r[|groups|] == Group(k, amount))
  {
    HasKeyIn(groups, k);
    if groups != [] && groups[0].key != k {
      AddToIs(groups[1..], k, amount);
    }
  }

  lemma HasKeyIn<K>(groups: seq<Group<K>>, k: K)
    ensures HasKey(groups, k) <==> groups != [] && (groups[0].key == k || HasKey(groups[1..], k))
  {
    if HasKey(groups, k) {
      var i :| 0 <= i < |groups| && groups[i].key == k;
      if i > 0 {
        assert groups[1..][i - 1].key == k;
      }
    }
    if groups != [] && HasKey(groups[1..], k) {
      var i :| 0 <= i < |groups[1..]| && groups[1..][i].key == k;
      assert groups[i + 1].key == k;
    }
  }

  /** The result exists: grouping by first appearance is a grouping. */
  lemma {:induction false} GroupByIsGrouping<T, K>(rows: seq<T>, key: T -> K, value: T -> int)
    ensures IsGrouping(rows, key, value, GroupBy(rows, key, value))
  {
    if rows != [] {
      var init, last := rows[..|rows| - 1], rows[|rows| - 1];
      var before, after := GroupBy(init, key, value), GroupBy(rows, key, value);
      GroupByIsGrouping(init, key, value);
      AddToIs(before, key(last), value(last));
      KeysAdded(before, after, key(last));
      forall i | 0 <= i < |rows| ensures HasKey(after, key(rows[i])) {
        if i < |init| {
          assert HasKey(before, key(init[i]));
        }
      }
      forall i | 0 <= i < |after| ensures GroupOk(rows, key, value, after[i]) {
        GroupStaysOk(rows, key, value, before, i);
      }
    }
  }

  /** The last row counts under its own key, old or new, and under no other. */
  lemma GroupStaysOk<T, K>(rows: seq<T>, key: T -> K, value: T -> int, before: seq<Group<K>>, i: nat)
    requires rows != [] && var init, last := rows[..|rows| - 1], rows[|rows| - 1];
                           IsGrouping(init, key, value, before) && i < |AddTo(before, key(last), value(last))|
    ensures var last := rows[|rows| - 1]; GroupOk(rows, key, value, AddTo(before, key(last), value(last))[i])
  {
    var init, last := rows[..|rows| - 1], rows[|rows| - 1];
    var after := AddTo(before, key(last), value(last));
    AddToIs(before, key(last), value(last));
    if |after| > |before| {
      NothingUnder(init, key, value, key(last), before);
    }
    if i < |before| {
      assert GroupOk(init, key, value, before[i]);
    }
    GroupGrows(rows, key, value, after[i].key);
  }

  lemma GroupGrows<T, K>(rows: seq<T>, key: T -> K, value: T -> int, k: K)
    requires rows != []
    ensures var init, last := rows[..|rows| - 1], rows[|rows| - 1];
            && (Occurs(rows, key, k) <==> Occurs(init, key, k) || key(last) == k)
            && SumOf(rows, Under(key, value, k)) == SumOf(init, Under(key, value, k)) + if key(last) == k then value(last) else 0
  {
  }

  lemma KeysAdded<K>(before: seq<Group<K>>, after: seq<Group<K>>, k: K)
    requires |before| <= |after| && (forall i :: 0 <= i < |before| ==> after[i].key == before[i].key)
    requires |after| == |before| ==> HasKey(before, k)
    requires |after| > |before| ==> after[|before|].key == k
    ensures HasKey(after, k)
    ensures forall x :: HasKey(before, x) ==> HasKey(after, x)
  {
    forall x | HasKey(before, x) ensures HasKey(after, x) {
      var i :| 0 <= i < |before| && before[i].key == x;
      assert after[i].key == x;
    }
  }

  lemma {:induction false} NothingUnder<T, K>(rows: seq<T>, key: T -> K, value: T -> int, k: K, groups: seq<Group<K>>)
    requires forall i :: 0 <= i < |rows| ==> HasKey(groups, key(rows[i]))
    requires !HasKey(groups, k)
    ensures SumOf(rows, Under(key, value, k)) == 0
  {
    if rows != [] {
      NothingUnder(rows[..|rows| - 1], key, value, k, groups);
      assert HasKey(groups, key(rows[|rows| - 1]));
    }
  }

  /** Grouping loses nothing: over any class of keys the groups add up to the rows. */
  lemma GroupsAddUp<T, K>(rows: seq<T>, key: T -> K, value: T -> int, groups: seq<Group<K>>, within: K -> bool)
    requires IsGrouping(rows, key, value, groups)
    ensures SumOf(groups, InClass(within)) == SumOf(rows, RowInClass(key, value, within))
  {
    GroupsAddUpFor(rows, key, value, groups, within);
    assert forall i :: 0 <= i < |groups| ==> GroupOk(rows, key, value, groups[i]);
    var sumIn := SumIn(rows, key, value, within);
    SumCongruent(groups, InClass(within), sumIn);
  }

  /** What a group contributes to a class, computed from the rows. */
  ghost function SumIn<T, K>(rows: seq<T>, key: T -> K, value: T -> int, within: K -> bool): Group<K> -> int {
    (g: Group<K>) => if within(g.key) then SumOf(rows, Under(key, value, g.key)) else 0
  }

  lemma {:induction false} GroupsAddUpFor<T, K>(rows: seq<T>, key: T -> K, value: T -> int, groups: seq<Group<K>>, within: K -> bool)
    requires forall i, j :: 0 <= i < j < |groups| ==> groups[i].key != groups[j].key
    requires forall i :: 0 <= i < |rows| ==> HasKey(groups, key(rows[i]))
    ensures SumOf(groups, SumIn(rows, key, value, within)) == SumOf(rows, RowInClass(key, value, within))
    decreases |rows|
  {
    if rows == [] {
      assert forall i :: 0 <= i < |groups| ==> SumOf(rows, Under(key, value, groups[i].key)) == 0;
      AllZero(groups, SumIn(rows, key, value, within));
    } else {
      var init, last := rows[..|rows| - 1], rows[|rows| - 1];
      GroupsAddUpFor(init, key, value, groups, within);
      assert HasKey(groups, key(last));
      OneRowCountedOnce(groups, init, last, key, value, within);
      assert rows == init + [last];
    }
  }

  lemma {:induction false} AllZero<T>(s: seq<T>, f: T -> int)
    requires forall i :: 0 <= i < |s| ==> f(s[i]) == 0
    ensures SumOf(s, f) == 0
  {
    if s != [] {
      AllZero(s[..|s| - 1], f);
    }
  }

  lemma {:induction false} OneRowCountedOnce<T, K>(groups: seq<Group<K>>, init: seq<T>, last: T, key: T -> K, value: T -> int, within: K -> bool)
    requires forall i, j :: 0 <= i < j < |groups| ==> groups[i].key != groups[j].key
    ensures SumOf(groups, SumIn(init + [last], key, value, within)) ==
            SumOf(groups, SumIn(init, key, value, within))
            + if HasKey(groups, key(last)) && within(key(last)) then value(last) else 0
  {
    if groups != [] {
      var rest, g := groups[..|groups| - 1], groups[|groups| - 1];
      OneRowCountedOnce(rest, init, last, key, value, within);
      assert (init + [last])[..|init|] == init;
      if HasKey(rest, key(last)) {
        var i :| 0 <= i < |rest| && rest[i].key == key(last);
        assert groups[i].key == key(last);
      }
    }
  }

  /** A grouping is determined by its rows, up to the order of the groups. */
  lemma GroupingUnique<T, K>(rows: seq<T>, key: T -> K, value: T -> int, a: seq<Group<K>>, b: seq<Group<K>>)
    requires IsGrouping(rows, key, value, a) && IsGrouping(rows, key, value, b)
    ensures multiset(a) == multiset(b)
  {
    GroupsIncluded(rows, key, value, a, b);
    GroupsIncluded(rows, key, value, b, a);
    SameElementsPermute(a, b);
  }

  lemma GroupsIncluded<T, K>(rows: seq<T>, key: T -> K, value: T -> int, a: seq<Group<K>>, b: seq<Group<K>>)
    requires IsGrouping(rows, key, value, a) && IsGrouping(rows, key, value, b)
    ensures forall g :: g in a ==> g in b
  {
    forall i | 0 <= i < |a| ensures a[i] in b {
      assert GroupOk(rows, key, value, a[i]);
      OccursIs(rows, key, a[i].key);
      var r :| 0 <= r < |rows| && key(rows[r]) == a[i].key;
      assert HasKey(b, key(rows[r]));
      var j :| 0 <= j < |b| && b[j].key == a[i].key;
      assert GroupOk(rows, key, value, b[j]);
    }
  }

  // ----- group by, with two sums -----

  datatype Group2<K> = Group2(key: K, first: int, second: int)

  function Firsts<K>(groups: seq<Group2<K>>): seq<Group<K>> {
    seq(|groups|, i requires 0 <= i < |groups| => Group(groups[i].key, groups[i].first))
  }

  function Seconds<K>(groups: seq<Group2<K>>): seq<Group<K>> {
    seq(|groups|, i requires 0 <= i < |groups| => Group(groups[i].key, groups[i].second))
  }

  /** Grouping `rows` by `key` and summing two columns. */
  ghost predicate IsGrouping2<T, K>(rows: seq<T>, key: T -> K, f: T -> int, g: T -> int, groups: seq<Group2<K>>) {
    IsGrouping(rows, key, f, Firsts(groups)) && IsGrouping(rows, key, g, Seconds(groups))
  }

  function GroupBy2<T, K(==)>(rows: seq<T>, key: T -> K, f: T -> int, g: T -> int): seq<Group2<K>> {
    SameKeys(rows, key, f, g);
    var a, b := GroupBy(rows, key, f), GroupBy(rows, key, g);
    seq(|a|, i requires 0 <= i < |a| => Group2(a[i].key, a[i].total, b[i].total))
  }

  /** Which groups there are, and in what order, does not depend on the column summed. */
  lemma {:induction false} SameKeys<T, K>(rows: seq<T>, key: T -> K, f: T -> int, g: T -> int)
    ensures var a, b := GroupBy(rows, key, f), GroupBy(rows, key, g);
            |a| == |b| && forall i :: 0 <= i < |a| ==> a[i].key == b[i].key
  {
    if rows != [] {
      var init, last := rows[..|rows| - 1], rows[|rows| - 1];
      SameKeys(init, key, f, g);
      AddToKeys(GroupBy(init, key, f), GroupBy(init, key, g), key(last), f(last), g(last));
    }
  }

  lemma {:induction false} AddToKeys<K>(a: seq<Group<K>>, b: seq<Group<K>>, k: K, x: int, y: int)
    requires |a| == |b| && forall i :: 0 <= i < |a| ==> a[i].key == b[i].key
    ensures var ra, rb := AddTo(a, k, x), AddTo(b, k, y);
            |ra| == |rb| && forall i :: 0 <= i < |ra| ==> ra[i].key == rb[i].key
  {
    if a != [] && a[0].key != k {
      AddToKeys(a[1..], b[1..], k, x, y);
    }
  }

  lemma GroupBy2IsGrouping<T, K>(rows: seq<T>, key: T -> K, f: T -> int, g: T -> int)
    ensures IsGrouping2(rows, key, f, g, GroupBy2(rows, key, f, g))
  {
    SameKeys(rows, key, f, g);
    GroupByIsGrouping(rows, key, f);
    GroupByIsGrouping(rows, key, g);
    var groups := GroupBy2(rows, key, f, g);
    assert Firsts(groups) == GroupBy(rows, key, f);
    assert Seconds(groups) == GroupBy(rows, key, g);
  }

  lemma Groups2Unique<T, K>(rows: seq<T>, key: T -> K, f: T -> int, g: T -> int, a: seq<Group2<K>>)
    requires IsGrouping2(rows, key, f, g, a)
    ensures Unique(a)
  {
    forall i, j | 0 <= i < j < |a| ensures a[i] != a[j] {
      assert Firsts(a)[i].key != Firsts(a)[j].key;
    }
  }

  lemma Groups2Included<T, K>(rows: seq<T>, key: T -> K, f: T -> int, g: T -> int, a: seq<Group2<K>>, b: seq<Group2<K>>)
    requires IsGrouping2(rows, key, f, g, a) && IsGrouping2(rows, key, f, g, b)
    ensures forall x :: x in a ==> x in b
  {
    forall i | 0 <= i < |a| ensures a[i] in b {
      assert GroupOk(rows, key, f, Firsts(a)[i]) && GroupOk(rows, key, g, Seconds(a)[i]);
      OccursIs(rows, key, a[i].key);
      var r :| 0 <= r < |rows| && key(rows[r]) == a[i].key;
      assert HasKey(Firsts(b), key(rows[r]));
      var j :| 0 <= j < |b| && Firsts(b)[j].key == a[i].key;
      assert GroupOk(rows, key, f, Firsts(b)[j]) && GroupOk(rows, key, g, Seconds(b)[j]);
    }
  }
}

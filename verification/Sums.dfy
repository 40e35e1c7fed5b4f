/** Sums over sequences and what leaves them unchanged, and the few facts about sequences that needs. */
module Sums {

  /** The sum of `f` over the elements of `s`. */
  function SumOf<T>(s: seq<T>, f: T -> int): int {
    if s == [] then 0 else SumOf(s[..|s| - 1], f) + f(s[|s| - 1])
  }

  lemma {:induction false} SumOfConcat<T>(a: seq<T>, b: seq<T>, f: T -> int)
    ensures SumOf(a + b, f) == SumOf(a, f) + SumOf(b, f)
  {
    if b == [] {
      assert a + b == a;
    } else {
      var init := b[..|b| - 1];
      assert (a + b)[..|a + b| - 1] == a + init;
      SumOfConcat(a, init, f);
    }
  }

  lemma SumOfSingle<T>(x: T, f: T -> int)
    ensures SumOf([x], f) == f(x)
  {
    assert [x][..0] == [];
  }

  lemma DropLast<T>(s: seq<T>)
    requires s != []
    ensures multiset(s) == multiset(s[..|s| - 1]) + multiset{s[|s| - 1]}
    ensures multiset(s[..|s| - 1]) == multiset(s) - multiset{s[|s| - 1]}
  {
    assert s == s[..|s| - 1] + [s[|s| - 1]];
  }

  lemma DropAt<T>(s: seq<T>, i: nat)
    requires i < |s|
    ensures s == s[..i] + [s[i]] + s[i + 1..]
    ensures multiset(s[..i] + s[i + 1..]) == multiset(s) - multiset{s[i]}
  {
    assert s == s[..i] + [s[i]] + s[i + 1..];
    assert multiset(s) == multiset(s[..i]) + multiset{s[i]} + multiset(s[i + 1..]);
    assert multiset(s[..i] + s[i + 1..]) == multiset(s[..i]) + multiset(s[i + 1..]);
  }

  /** Taking the last element of `a` out of a rearrangement of `a`. */
  lemma RemoveLast<T>(a: seq<T>, b: seq<T>) returns (i: nat)
    requires a != [] && multiset(a) == multiset(b)
    ensures i < |b| && b[i] == a[|a| - 1]
    ensures b == b[..i] + [b[i]] + b[i + 1..]
    ensures multiset(a[..|a| - 1]) == multiset(b[..i] + b[i + 1..])
  {
    assert a[|a| - 1] in multiset(b);
    i :| 0 <= i < |b| && b[i] == a[|a| - 1];
    DropLast(a);
    DropAt(b, i);
  }

  /** A sum does not depend on the order of its terms. */
  lemma {:induction false} SumPermutes<T>(a: seq<T>, b: seq<T>, f: T -> int)
    requires multiset(a) == multiset(b)
    ensures SumOf(a, f) == SumOf(b, f)
    decreases |a|
  {
    if a == [] {
      assert |multiset(b)| == |b|;
    } else {
      var i := RemoveLast(a, b);
      var rest := b[..i] + b[i + 1..];
      SumPermutes(a[..|a| - 1], rest, f);
      SumOfConcat(b[..i], b[i + 1..], f);
      SumOfConcat(b[..i] + [b[i]], b[i + 1..], f);
      SumOfConcat(b[..i], [b[i]], f);
      SumOfSingle(b[i], f);
    }
  }

  lemma {:induction false} SumMonotone<T>(s: seq<T>, f: T -> int, g: T -> int)
    requires forall i :: 0 <= i < |s| ==> f(s[i]) <= g(s[i])
    ensures SumOf(s, f) <= SumOf(s, g)
  {
    if s != [] {
      SumMonotone(s[..|s| - 1], f, g);
    }
  }

  lemma {:induction false} SumCongruent<T>(s: seq<T>, f: T -> int, g: T -> int)
    requires forall i :: 0 <= i < |s| ==> f(s[i]) == g(s[i])
    ensures SumOf(s, f) == SumOf(s, g)
  {
    if s != [] {
      SumCongruent(s[..|s| - 1], f, g);
    }
  }

  lemma {:induction false} SumNonNegative<T>(s: seq<T>, f: T -> int)
    requires forall i :: 0 <= i < |s| ==> f(s[i]) >= 0
    ensures SumOf(s, f) >= 0
  {
    if s != [] {
      SumNonNegative(s[..|s| - 1], f);
    }
  }

  lemma {:induction false} SumZip<S, T>(a: seq<S>, b: seq<T>, f: S -> int, g: T -> int)
    requires |a| == |b| && forall i :: 0 <= i < |a| ==> f(a[i]) == g(b[i])
    ensures SumOf(a, f) == SumOf(b, g)
  {
    if a != [] {
      SumZip(a[..|a| - 1], b[..|b| - 1], f, g);
    }
  }

  lemma SumOfFour<T>(s: seq<T>, f: T -> int)
    requires |s| == 4
    ensures SumOf(s, f) == f(s[0]) + f(s[1]) + f(s[2]) + f(s[3])
  {
    var a, b, c := [s[0]], [s[0], s[1]], [s[0], s[1], s[2]];
    assert s[..3] == c && c[..2] == b && b[..1] == a && a[..0] == [];
    assert SumOf(a, f) == f(s[0]);
    assert SumOf(b, f) == SumOf(a, f) + f(s[1]);
    assert SumOf(c, f) == SumOf(b, f) + f(s[2]);
  }

  lemma AppendSum<T>(s: seq<T>, x: T, f: T -> int)
    ensures SumOf(s + [x], f) == SumOf(s, f) + f(x)
  {
    assert (s + [x])[..|s|] == s;
  }

  function Map<S, T>(s: seq<S>, f: S -> T): (r: seq<T>) {
    seq(|s|, i requires 0 <= i < |s| => f(s[i]))
  }

  lemma MapConcat<S, T>(a: seq<S>, b: seq<S>, f: S -> T)
    ensures Map(a + b, f) == Map(a, f) + Map(b, f)
  {
  }

  /** The images of a rearrangement are a rearrangement of the images. */
  lemma {:induction false} MapPermutes<S, T>(a: seq<S>, b: seq<S>, f: S -> T)
    requires multiset(a) == multiset(b)
    ensures multiset(Map(a, f)) == multiset(Map(b, f))
    decreases |a|
  {
    if a == [] {
      assert |multiset(b)| == |b|;
    } else {
      var i := RemoveLast(a, b);
      MapPermutes(a[..|a| - 1], b[..i] + b[i + 1..], f);
      assert a == a[..|a| - 1] + [b[i]];
      MapConcat(a[..|a| - 1], [b[i]], f);
      MapConcat(b[..i] + [b[i]], b[i + 1..], f);
      MapConcat(b[..i], [b[i]], f);
      MapConcat(b[..i], b[i + 1..], f);
    }
  }

  /** The parts one after another. */
  function Flat<T>(parts: seq<seq<T>>): seq<T> {
    if parts == [] then [] else Flat(parts[..|parts| - 1]) + parts[|parts| - 1]
  }

  lemma {:induction false} FlatEmpty<T>(parts: seq<seq<T>>)
    ensures Flat(parts) == [] <==> forall i :: 0 <= i < |parts| ==> parts[i] == []
  {
    if parts != [] {
      var n := |parts| - 1;
      FlatEmpty(parts[..n]);
      assert forall i :: 0 <= i < n ==> parts[..n][i] == parts[i];
    }
  }

  lemma {:induction false} FlatHas<T>(parts: seq<seq<T>>, x: T)
    ensures x in Flat(parts) <==> exists i :: 0 <= i < |parts| && x in parts[i]
  {
    if parts != [] {
      var n := |parts| - 1;
      FlatHas(parts[..n], x);
      assert forall i :: 0 <= i < n ==> parts[..n][i] == parts[i];
    }
  }

  // ----- Lists without repeats -----

  ghost predicate Unique<T>(s: seq<T>) {
    forall i, j :: 0 <= i < j < |s| ==> s[i] != s[j]
  }

  /** Two duplicate-free lists of the same elements are permutations of each other. */
  lemma {:induction false} SameElementsPermute<T>(a: seq<T>, b: seq<T>)
    requires Unique(a) && Unique(b) && forall x :: x in a <==> x in b
    ensures multiset(a) == multiset(b)
  {
    forall x ensures multiset(a)[x] == multiset(b)[x] {
      OccursOnce(a, x);
      OccursOnce(b, x);
    }
  }

  lemma {:induction false} OccursOnce<T>(s: seq<T>, x: T)
    requires Unique(s)
    ensures multiset(s)[x] == if x in s then 1 else 0
  {
    if s != [] {
      var init, last := s[..|s| - 1], s[|s| - 1];
      assert s == init + [last];
      OccursOnce(init, x);
      assert last !in init;
    }
  }
}

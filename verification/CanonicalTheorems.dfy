/** Equal canonical text means equal meaning, and the other way round. */
module CanonicalTheorems {
  import opened Decimal
  import opened Wrappers
  import opened Canonical

  // ----- Concatenation cancels -----

  lemma CancelPrefix<T>(p: seq<T>, x: seq<T>, y: seq<T>)
    requires p + x == p + y
    ensures x == y
  {
    assert x == (p + x)[|p|..];
    assert y == (p + y)[|p|..];
  }

  lemma SameLengthSplit<T>(p: seq<T>, x: seq<T>, q: seq<T>, y: seq<T>)
    requires p + x == q + y && |p| == |q|
    ensures p == q && x == y
  {
    assert p == (p + x)[..|p|];
    assert q == (q + y)[..|q|];
    CancelPrefix(p, x, y);
  }

  lemma ShorterPrefix<T>(p: seq<T>, x: seq<T>, q: seq<T>, y: seq<T>)
    requires p + x == q + y && |p| < |q|
    ensures |x| > 0 && x[0] == q[|p|]
  {
    assert (p + x)[|p|] == (q + y)[|p|];
    assert |p| + |x| == |q| + |y|;
  }

  lemma Regroup3<T>(a: seq<T>, b: seq<T>, c: seq<T>, x: seq<T>)
    ensures a + b + c + x == a + (b + c + x)
    ensures a + b + c + x == a + (b + (c + x))
  {
  }

  lemma Regroup4<T>(a: seq<T>, b: seq<T>, c: seq<T>, d: seq<T>, x: seq<T>)
    ensures a + b + c + d + x == a + (b + (c + d + x))
  {
  }

  lemma Regroup2<T>(b: seq<T>, c: seq<T>, d: seq<T>, x: seq<T>)
    ensures b + c + d + x == b + (c + d + x)
  {
  }

  lemma NothingBefore<T>(d: seq<T>, x: seq<T>)
    ensures [] + d + x == d + x
  {
    assert [] + d == d;
  }

  // ----- Strings can be read back -----

  lemma HexDigitInjective(c: nat, d: nat)
    requires c < 16 && d < 16 && HexDigit(c) == HexDigit(d)
    ensures c == d
  {
  }

  lemma Hex4Injective(u: Unit, v: Unit)
    requires u < 0x1_0000 && v < 0x1_0000 && Hex4(u) == Hex4(v)
    ensures u == v
  {
    assert Hex4(u)[0] == Hex4(v)[0] && Hex4(u)[1] == Hex4(v)[1] && Hex4(u)[2] == Hex4(v)[2] && Hex4(u)[3] == Hex4(v)[3];
    HexDigitInjective(u / 4096, v / 4096);
    HexDigitInjective(u / 256 % 16, v / 256 % 16);
    HexDigitInjective(u / 16 % 16, v / 16 % 16);
    HexDigitInjective(u % 16, v % 16);
    HexExpansion(u);
    HexExpansion(v);
  }

  lemma HexExpansion(u: nat)
    ensures u == 4096 * (u / 4096) + 256 * (u / 256 % 16) + 16 * (u / 16 % 16) + u % 16
  {
    assert u / 256 == u / 16 / 16 && u / 4096 == u / 256 / 16;
  }

  lemma ChunkStarts(t: Text, i: nat)
    requires i < |t|
    ensures |Chunk(t, i)| > 0 && Chunk(t, i)[0] != QUOTE
    ensures Chunk(t, i)[0] == BACKSLASH <==> |Chunk(t, i)| > 1
    ensures |Chunk(t, i)| > 1 ==> (Chunk(t, i)[1] == LOWER_U <==> |Chunk(t, i)| == 6)
  {
  }

  /** Each printed unit can be told from what follows it. */
  lemma ChunkFree(s: Text, i: nat, x: Text, t: Text, j: nat, y: Text)
    requires TextOk(s) && TextOk(t) && i < |s| && j < |t|
    requires Chunk(s, i) + x == Chunk(t, j) + y
    ensures s[i] == t[j] && x == y
  {
    var p, q := Chunk(s, i), Chunk(t, j);
    ChunkStarts(s, i);
    ChunkStarts(t, j);
    assert (p + x)[0] == p[0] && (q + y)[0] == q[0];
    if |p| > 1 && |q| > 1 {
      assert (p + x)[1] == p[1] && (q + y)[1] == q[1];
    }
    assert |p| == |q|;
    SameLengthSplit(p, x, q, y);
    if |p| == 6 {
      assert Hex4(s[i]) == p[2..] && Hex4(t[j]) == q[2..];
      Hex4Injective(s[i], t[j]);
    } else if |p| == 2 {
      ShortEscapeInjective(s[i], t[j]);
    }
  }

  lemma ShortEscapeInjective(u: Unit, v: Unit)
    requires ShortEscape(u).Some? && ShortEscape(u) == ShortEscape(v)
    ensures u == v
  {
  }

  /** The rest of a string, its closing quote and what follows: it starts with a quote exactly when the string is used up. */
  lemma ChunksStart(t: Text, i: nat, x: Text)
    requires i <= |t|
    ensures var all := Chunks(t, i) + [QUOTE] + x;
            && |all| > 0 && (all[0] == QUOTE <==> i == |t|)
            && (i == |t| ==> all == [QUOTE] + x)
            && (i < |t| ==> all == Chunk(t, i) + (Chunks(t, i + 1) + [QUOTE] + x))
  {
    if i == |t| {
      NothingBefore([QUOTE], x);
    } else {
      ChunkStarts(t, i);
      Regroup2(Chunk(t, i), Chunks(t, i + 1), [QUOTE], x);
    }
  }

  lemma SliceStarts(s: Text, i: nat)
    requires i < |s|
    ensures s[i..] == [s[i]] + s[i + 1..]
  {
  }

  lemma {:induction false} ChunksFree(s: Text, i: nat, x: Text, t: Text, j: nat, y: Text)
    requires TextOk(s) && TextOk(t) && i <= |s| && j <= |t|
    requires Chunks(s, i) + [QUOTE] + x == Chunks(t, j) + [QUOTE] + y
    ensures s[i..] == t[j..] && x == y
    decreases |s| - i
  {
    ChunksStart(s, i, x);
    ChunksStart(t, j, y);
    if i == |s| {
      CancelPrefix([QUOTE], x, y);
    } else {
      ChunkFree(s, i, Chunks(s, i + 1) + [QUOTE] + x, t, j, Chunks(t, j + 1) + [QUOTE] + y);
      ChunksFree(s, i + 1, x, t, j + 1, y);
      SliceStarts(s, i);
      SliceStarts(t, j);
    }
  }

  lemma QuotedFree(s: Text, x: Text, t: Text, y: Text)
    requires TextOk(s) && TextOk(t) && Quoted(s) + x == Quoted(t) + y
    ensures s == t && x == y
  {
    Regroup3([QUOTE], Chunks(s, 0), [QUOTE], x);
    Regroup3([QUOTE], Chunks(t, 0), [QUOTE], y);
    CancelPrefix([QUOTE], Chunks(s, 0) + [QUOTE] + x, Chunks(t, 0) + [QUOTE] + y);
    ChunksFree(s, 0, x, t, 0, y);
    assert s[0..] == s && t[0..] == t;
  }

  // ----- Values can be read back -----

  /** What may follow a value: nothing, or a unit no numeral contains. */
  ghost predicate Stops(r: Text) {
    r == [] || !InNumeral(r[0])
  }

  lemma NumeralFree(n: Text, x: Text, m: Text, y: Text)
    requires NumeralOk(n) && NumeralOk(m) && Stops(x) && Stops(y) && n + x == m + y
    ensures n == m && x == y
  {
    if |n| < |m| {
      ShorterPrefix(n, x, m, y);
    } else if |m| < |n| {
      ShorterPrefix(m, y, n, x);
    }
    SameLengthSplit(n, x, m, y);
  }

  /** The first unit says which kind of value follows. */
  function Kind(u: Unit): nat {
    if u == 110 then 0 else if u == 116 then 1 else if u == 102 then 2 else if u == QUOTE then 3
    else if u == OPEN then 4 else if u == BEGIN then 5 else if InNumeral(u) then 6 else 7
  }

  function KindOf(v: Json): nat {
    match v
    case Null => 0
    case Bool(b) => if b then 1 else 2
    case Str(_) => 3
    case Arr(_) => 4
    case Obj(_) => 5
    case Number(_) => 6
  }

  lemma StartsWithKind(v: Json)
    requires Wf(v)
    ensures |Canonicalize(v)| > 0 && Kind(Canonicalize(v)[0]) == KindOf(v)
  {
  }

  /**
   No canonical text is a proper prefix of another: a value can be told from
   whatever follows it, and it then says the same thing.
   */
  lemma {:induction false} ValueFree(a: Json, x: Text, b: Json, y: Text)
    requires Wf(a) && Wf(b) && Stops(x) && Stops(y)
    requires Canonicalize(a) + x == Canonicalize(b) + y
    ensures Denote(a) == Denote(b) && x == y
    decreases Size(a), 0
  {
    SameKind(a, x, b, y);
    match a
    case Null => WordFree(a, x, b, y);
    case Bool(_) => WordFree(a, x, b, y);
    case Number(n) => NumeralFree(n, x, b.numeral, y);
    case Str(t) => QuotedFree(t, x, b.text, y);
    case Arr(items) => ArrayFree(items, x, b.items, y);
    case Obj(members) => ObjectFree(members, x, b.members, y);
  }

  lemma SameKind(a: Json, x: Text, b: Json, y: Text)
    requires Wf(a) && Wf(b) && Canonicalize(a) + x == Canonicalize(b) + y
    ensures KindOf(a) == KindOf(b)
  {
    StartsWithKind(a);
    StartsWithKind(b);
    assert (Canonicalize(a) + x)[0] == Canonicalize(a)[0] && (Canonicalize(b) + y)[0] == Canonicalize(b)[0];
  }

  lemma WordFree(a: Json, x: Text, b: Json, y: Text)
    requires (a.Null? || a.Bool?) && KindOf(a) == KindOf(b) && Canonicalize(a) + x == Canonicalize(b) + y
    ensures Denote(a) == Denote(b) && x == y
  {
    assert a == b;
    CancelPrefix(Canonicalize(a), x, y);
  }

  lemma {:induction false} ArrayFree(a: seq<Json>, x: Text, b: seq<Json>, y: Text)
    requires WfItems(a) && WfItems(b)
    requires Canonicalize(Arr(a)) + x == Canonicalize(Arr(b)) + y
    ensures Denote(Arr(a)) == Denote(Arr(b)) && x == y
    decreases SizeItems(a), 3
  {
    Regroup3([OPEN], JoinItems(a), [CLOSE], x);
    Regroup3([OPEN], JoinItems(b), [CLOSE], y);
    CancelPrefix([OPEN], JoinItems(a) + [CLOSE] + x, JoinItems(b) + [CLOSE] + y);
    JoinItemsFree(a, x, b, y);
  }

  lemma {:induction false} JoinItemsFree(a: seq<Json>, x: Text, b: seq<Json>, y: Text)
    requires WfItems(a) && WfItems(b)
    requires JoinItems(a) + [CLOSE] + x == JoinItems(b) + [CLOSE] + y
    ensures DenoteItems(a) == DenoteItems(b) && x == y
    decreases SizeItems(a), 2
  {
    var p, q := JoinItems(a) + [CLOSE] + x, JoinItems(b) + [CLOSE] + y;
    if a != [] {
      StartsWithKind(a[0]);
      assert p[0] == Canonicalize(a[0])[0];
    } else {
      assert p[0] == CLOSE;
    }
    if b != [] {
      StartsWithKind(b[0]);
      assert q[0] == Canonicalize(b[0])[0];
    } else {
      assert q[0] == CLOSE;
    }
    if a == [] {
      NothingBefore([CLOSE], x);
      NothingBefore([CLOSE], y);
      CancelPrefix([CLOSE], x, y);
    } else {
      var restA, restB := TailItems(a[1..]) + [CLOSE] + x, TailItems(b[1..]) + [CLOSE] + y;
      Regroup2(Canonicalize(a[0]), TailItems(a[1..]), [CLOSE], x);
      Regroup2(Canonicalize(b[0]), TailItems(b[1..]), [CLOSE], y);
      TailItemsStop(a[1..], x);
      TailItemsStop(b[1..], y);
      ValueFree(a[0], restA, b[0], restB);
      TailItemsFree(a[1..], x, b[1..], y);
    }
  }

  lemma TailItemsStop(a: seq<Json>, x: Text)
    ensures |TailItems(a) + [CLOSE] + x| > 0
    ensures (TailItems(a) + [CLOSE] + x)[0] == if a == [] then CLOSE else COMMA
  {
    if a != [] {
      assert TailItems(a)[0] == COMMA;
    }
  }

  lemma {:induction false} TailItemsFree(a: seq<Json>, x: Text, b: seq<Json>, y: Text)
    requires WfItems(a) && WfItems(b)
    requires TailItems(a) + [CLOSE] + x == TailItems(b) + [CLOSE] + y
    ensures DenoteItems(a) == DenoteItems(b) && x == y
    decreases SizeItems(a), 1
  {
    TailItemsStop(a, x);
    TailItemsStop(b, y);
    if a == [] {
      NothingBefore([CLOSE], x);
      NothingBefore([CLOSE], y);
      CancelPrefix([CLOSE], x, y);
    } else {
      var restA, restB := TailItems(a[1..]) + [CLOSE] + x, TailItems(b[1..]) + [CLOSE] + y;
      Regroup4([COMMA], Canonicalize(a[0]), TailItems(a[1..]), [CLOSE], x);
      Regroup4([COMMA], Canonicalize(b[0]), TailItems(b[1..]), [CLOSE], y);
      CancelPrefix([COMMA], Canonicalize(a[0]) + restA, Canonicalize(b[0]) + restB);
      TailItemsStop(a[1..], x);
      TailItemsStop(b[1..], y);
      ValueFree(a[0], restA, b[0], restB);
      TailItemsFree(a[1..], x, b[1..], y);
    }
  }

  lemma {:induction false} EntryFree(a: Entry, x: Text, b: Entry, y: Text)
    requires TextOk(a.key) && TextOk(b.key) && Wf(a.value) && Wf(b.value) && Stops(x) && Stops(y)
    requires PrintEntry(a) + x == PrintEntry(b) + y
    ensures a.key == b.key && Denote(a.value) == Denote(b.value) && x == y
    decreases Size(a.value), 1
  {
    var restA, restB := [COLON] + (Canonicalize(a.value) + x), [COLON] + (Canonicalize(b.value) + y);
    Regroup3(Quoted(a.key), [COLON], Canonicalize(a.value), x);
    Regroup3(Quoted(b.key), [COLON], Canonicalize(b.value), y);
    QuotedFree(a.key, restA, b.key, restB);
    CancelPrefix([COLON], Canonicalize(a.value) + x, Canonicalize(b.value) + y);
    ValueFree(a.value, x, b.value, y);
  }

  lemma EntryStarts(e: Entry)
    ensures |PrintEntry(e)| > 0 && PrintEntry(e)[0] == QUOTE
  {
  }

  lemma TailEntriesStop(a: seq<Entry>, x: Text)
    ensures |TailEntries(a) + [END] + x| > 0
    ensures (TailEntries(a) + [END] + x)[0] == if a == [] then END else COMMA
  {
    if a != [] {
      assert TailEntries(a)[0] == COMMA;
    }
  }

  lemma {:induction false} JoinEntriesFree(a: seq<Entry>, x: Text, b: seq<Entry>, y: Text)
    requires WfEntries(a) && WfEntries(b)
    requires JoinEntries(a) + [END] + x == JoinEntries(b) + [END] + y
    ensures DenoteEntries(a) == DenoteEntries(b) && x == y
    decreases SizeEntries(a), 2
  {
    var p, q := JoinEntries(a) + [END] + x, JoinEntries(b) + [END] + y;
    if a != [] {
      EntryStarts(a[0]);
      assert p[0] == QUOTE;
    } else {
      assert p[0] == END;
    }
    if b != [] {
      EntryStarts(b[0]);
      assert q[0] == QUOTE;
    } else {
      assert q[0] == END;
    }
    if a == [] {
      NothingBefore([END], x);
      NothingBefore([END], y);
      CancelPrefix([END], x, y);
    } else {
      var restA, restB := TailEntries(a[1..]) + [END] + x, TailEntries(b[1..]) + [END] + y;
      Regroup2(PrintEntry(a[0]), TailEntries(a[1..]), [END], x);
      Regroup2(PrintEntry(b[0]), TailEntries(b[1..]), [END], y);
      TailEntriesStop(a[1..], x);
      TailEntriesStop(b[1..], y);
      EntryFree(a[0], restA, b[0], restB);
      TailEntriesFree(a[1..], x, b[1..], y);
    }
  }

  lemma {:induction false} TailEntriesFree(a: seq<Entry>, x: Text, b: seq<Entry>, y: Text)
    requires WfEntries(a) && WfEntries(b)
    requires TailEntries(a) + [END] + x == TailEntries(b) + [END] + y
    ensures DenoteEntries(a) == DenoteEntries(b) && x == y
    decreases SizeEntries(a), 1
  {
    TailEntriesStop(a, x);
    TailEntriesStop(b, y);
    if a == [] {
      NothingBefore([END], x);
      NothingBefore([END], y);
      CancelPrefix([END], x, y);
    } else {
      var restA, restB := TailEntries(a[1..]) + [END] + x, TailEntries(b[1..]) + [END] + y;
      Regroup4([COMMA], PrintEntry(a[0]), TailEntries(a[1..]), [END], x);
      Regroup4([COMMA], PrintEntry(b[0]), TailEntries(b[1..]), [END], y);
      CancelPrefix([COMMA], PrintEntry(a[0]) + restA, PrintEntry(b[0]) + restB);
      TailEntriesStop(a[1..], x);
      TailEntriesStop(b[1..], y);
      EntryFree(a[0], restA, b[0], restB);
      TailEntriesFree(a[1..], x, b[1..], y);
    }
  }

  lemma {:induction false} ObjectFree(a: seq<Member>, x: Text, b: seq<Member>, y: Text)
    requires Wf(Obj(a)) && Wf(Obj(b))
    requires Canonicalize(Obj(a)) + x == Canonicalize(Obj(b)) + y
    ensures Denote(Obj(a)) == Denote(Obj(b)) && x == y
    decreases SizeMembers(a), 3
  {
    var s, t := Sort(Defined(a)), Sort(Defined(b));
    Regroup3([BEGIN], JoinEntries(s), [END], x);
    Regroup3([BEGIN], JoinEntries(t), [END], y);
    CancelPrefix([BEGIN], JoinEntries(s) + [END] + x, JoinEntries(t) + [END] + y);
    SortIs(Defined(a));
    SortIs(Defined(b));
    JoinEntriesFree(s, x, t, y);
  }

  // ----- Sorting keys keeps the meaning -----

  lemma {:induction false} LessTransitive(a: Text, b: Text, c: Text)
    requires Less(a, b) && Less(b, c)
    ensures Less(a, c)
  {
    if a != [] && a[0] == b[0] && b[0] == c[0] {
      LessTransitive(a[1..], b[1..], c[1..]);
    }
  }

  lemma {:induction false} LessTotal(a: Text, b: Text)
    requires a != b
    ensures Less(a, b) || Less(b, a)
  {
    if a != [] && b != [] && a[0] == b[0] {
      assert a == [a[0]] + a[1..] && b == [b[0]] + b[1..];
      LessTotal(a[1..], b[1..]);
    }
  }

  lemma {:induction false} LessIrreflexive(a: Text)
    ensures !Less(a, a)
  {
    if a != [] {
      LessIrreflexive(a[1..]);
    }
  }

  ghost predicate KeyIn(k: Text, es: seq<Entry>) {
    exists i :: 0 <= i < |es| && es[i].key == k
  }

  lemma {:induction false} InsertKeys(e: Entry, es: seq<Entry>)
    ensures forall k :: KeyIn(k, Insert(e, es)) <==> k == e.key || KeyIn(k, es)
  {
    var r := Insert(e, es);
    KeysOfCons(r);
    if es == [] || Less(e.key, es[0].key) {
      assert r[1..] == es;
    } else {
      assert r[1..] == Insert(e, es[1..]);
      InsertKeys(e, es[1..]);
      KeysOfCons(es);
    }
  }

  lemma {:induction false} InsertAscends(e: Entry, es: seq<Entry>)
    requires Ascending(es) && !KeyIn(e.key, es)
    ensures Ascending(Insert(e, es))
  {
    if es == [] || Less(e.key, es[0].key) {
      InsertFront(e, es);
    } else {
      var rest := Insert(e, es[1..]);
      KeysOfCons(es);
      InsertAscends(e, es[1..]);
      InsertKeys(e, es[1..]);
      assert es[0].key != e.key;
      LessTotal(e.key, es[0].key);
      forall j | 0 <= j < |rest| ensures Less(es[0].key, rest[j].key) {
        assert KeyIn(rest[j].key, rest);
        if rest[j].key != e.key {
          var i :| 0 <= i < |es[1..]| && es[1..][i].key == rest[j].key;
          assert es[i + 1].key == rest[j].key;
        }
      }
      AscendingCons(es[0], rest);
    }
  }

  lemma {:induction false} InsertDenotes(e: Entry, es: seq<Entry>)
    requires !KeyIn(e.key, es) && WfEntries(es) && TextOk(e.key) && Wf(e.value)
    ensures WfEntries(Insert(e, es)) && DenoteEntries(Insert(e, es)) == DenoteEntries(es)[e.key := Denote(e.value)]
  {
    var r := Insert(e, es);
    if es == [] || Less(e.key, es[0].key) {
      assert r[1..] == es;
    } else {
      assert r[1..] == Insert(e, es[1..]);
      KeysOfCons(es);
      InsertDenotes(e, es[1..]);
    }
  }

  lemma InsertFront(e: Entry, es: seq<Entry>)
    requires Ascending(es) && (es == [] || Less(e.key, es[0].key))
    ensures Ascending([e] + es) && forall k :: KeyIn(k, [e] + es) <==> k == e.key || KeyIn(k, es)
  {
    forall j | 0 <= j < |es| ensures Less(e.key, es[j].key) {
      if j > 0 {
        LessTransitive(e.key, es[0].key, es[j].key);
      }
    }
    AscendingCons(e, es);
    assert ([e] + es)[1..] == es;
    KeysOfCons([e] + es);
  }

  lemma AscendingCons(e: Entry, es: seq<Entry>)
    requires Ascending(es) && forall j :: 0 <= j < |es| ==> Less(e.key, es[j].key)
    ensures Ascending([e] + es)
  {
  }

  lemma KeysOfCons(es: seq<Entry>)
    requires es != []
    ensures forall k :: KeyIn(k, es) <==> k == es[0].key || KeyIn(k, es[1..])
  {
    forall k ensures KeyIn(k, es) <==> k == es[0].key || KeyIn(k, es[1..]) {
      if KeyIn(k, es) {
        var i :| 0 <= i < |es| && es[i].key == k;
        if i > 0 {
          assert es[1..][i - 1].key == k;
        }
      }
      if KeyIn(k, es[1..]) {
        var i :| 0 <= i < |es[1..]| && es[1..][i].key == k;
        assert es[i + 1].key == k;
      }
    }
  }

  lemma {:induction false} SortIs(es: seq<Entry>)
    requires WfEntries(es) && DistinctKeys(es)
    ensures var r := Sort(es);
            && Ascending(r) && WfEntries(r)
            && (forall k :: KeyIn(k, r) <==> KeyIn(k, es))
            && DenoteEntries(r) == DenoteEntries(es)
  {
    if es != [] {
      SortIs(es[1..]);
      KeysOfCons(es);
      assert !KeyIn(es[0].key, es[1..]);
      InsertKeys(es[0], Sort(es[1..]));
      InsertAscends(es[0], Sort(es[1..]));
      InsertDenotes(es[0], Sort(es[1..]));
    }
  }

  // ----- Equal meaning prints equal text -----

  lemma {:induction false} DenoteDomain(es: seq<Entry>)
    ensures forall k :: k in DenoteEntries(es) <==> KeyIn(k, es)
  {
    if es != [] {
      DenoteDomain(es[1..]);
      KeysOfCons(es);
    }
  }

  /** The first key of an ascending list is the least key it denotes. */
  lemma FirstIsLeast(es: seq<Entry>, fs: seq<Entry>)
    requires es != [] && Ascending(es) && Ascending(fs) && DenoteEntries(es) == DenoteEntries(fs)
    ensures fs != [] && !Less(fs[0].key, es[0].key)
  {
    DenoteDomain(es);
    DenoteDomain(fs);
    assert KeyIn(es[0].key, es);
    assert es[0].key in DenoteEntries(fs);
    assert KeyIn(fs[0].key, fs);
    assert KeyIn(fs[0].key, es);
    var i :| 0 <= i < |es| && es[i].key == fs[0].key;
    LessIrreflexive(es[0].key);
    if Less(fs[0].key, es[0].key) {
      if i > 0 {
        LessTransitive(es[0].key, es[i].key, es[0].key);
      }
    }
  }

  lemma HeadsAgree(es: seq<Entry>, fs: seq<Entry>)
    requires es != [] && Ascending(es) && Ascending(fs) && DenoteEntries(es) == DenoteEntries(fs)
    ensures fs != [] && es[0].key == fs[0].key && Denote(es[0].value) == Denote(fs[0].value)
    ensures DenoteEntries(es[1..]) == DenoteEntries(fs[1..])
  {
    FirstIsLeast(es, fs);
    FirstIsLeast(fs, es);
    if es[0].key != fs[0].key {
      LessTotal(es[0].key, fs[0].key);
    }
    assert DenoteEntries(es)[es[0].key] == Denote(es[0].value);
    assert DenoteEntries(fs)[fs[0].key] == Denote(fs[0].value);
    TailLacksHead(es);
    TailLacksHead(fs);
    assert DenoteEntries(es[1..]) == DenoteEntries(es) - {es[0].key};
    assert DenoteEntries(fs[1..]) == DenoteEntries(fs) - {fs[0].key};
  }

  lemma TailLacksHead(es: seq<Entry>)
    requires es != [] && Ascending(es)
    ensures es[0].key !in DenoteEntries(es[1..])
  {
    DenoteDomain(es[1..]);
    LessIrreflexive(es[0].key);
    forall i | 0 <= i < |es[1..]| ensures es[1..][i].key != es[0].key {
      assert Less(es[0].key, es[i + 1].key);
    }
  }

  lemma {:induction false} EqualMeaningPrintsEqual(a: Json, b: Json)
    requires Wf(a) && Wf(b) && Denote(a) == Denote(b)
    ensures Canonicalize(a) == Canonicalize(b)
    decreases Size(a), 0
  {
    match a
    case Arr(items) => EqualItemsPrintEqual(items, b.items);
    case Obj(members) =>
      SortIs(Defined(members));
      SortIs(Defined(b.members));
      EqualEntriesPrintEqual(Sort(Defined(members)), Sort(Defined(b.members)));
    case _ =>
  }

  lemma {:induction false} EqualItemsPrintEqual(a: seq<Json>, b: seq<Json>)
    requires WfItems(a) && WfItems(b) && DenoteItems(a) == DenoteItems(b)
    ensures JoinItems(a) == JoinItems(b) && TailItems(a) == TailItems(b)
    decreases SizeItems(a), 1
  {
    DenoteItemsLength(a);
    DenoteItemsLength(b);
    if a != [] {
      assert DenoteItems(a)[0] == DenoteItems(b)[0];
      assert DenoteItems(a)[1..] == DenoteItems(a[1..]) && DenoteItems(b)[1..] == DenoteItems(b[1..]);
      EqualMeaningPrintsEqual(a[0], b[0]);
      EqualItemsPrintEqual(a[1..], b[1..]);
    }
  }

  lemma {:induction false} DenoteItemsLength(a: seq<Json>)
    ensures |DenoteItems(a)| == |a|
  {
    if a != [] {
      DenoteItemsLength(a[1..]);
    }
  }

  lemma {:induction false} EqualEntriesPrintEqual(a: seq<Entry>, b: seq<Entry>)
    requires WfEntries(a) && WfEntries(b) && Ascending(a) && Ascending(b) && DenoteEntries(a) == DenoteEntries(b)
    ensures JoinEntries(a) == JoinEntries(b) && TailEntries(a) == TailEntries(b)
    decreases SizeEntries(a), 1
  {
    if a != [] {
      HeadsAgree(a, b);
      EqualMeaningPrintsEqual(a[0].value, b[0].value);
      EqualEntriesPrintEqual(a[1..], b[1..]);
    } else if b != [] {
      DenoteDomain(b);
      assert KeyIn(b[0].key, b);
    }
  }

  // ----- The theorem -----

  /** Two bodies print the same text if and only if they are equal up to the order of keys, at every depth. */
  lemma CanonicalizeExact(a: Json, b: Json)
    requires Wf(a) && Wf(b)
    ensures Canonicalize(a) == Canonicalize(b) <==> Denote(a) == Denote(b)
  {
    if Canonicalize(a) == Canonicalize(b) {
      ValueFree(a, [], b, []);
    }
    if Denote(a) == Denote(b) {
      EqualMeaningPrintsEqual(a, b);
    }
  }

  // ----- What a body says, member by member -----

  lemma {:induction false} DefinedAre(members: seq<Member>, e: Entry)
    ensures e in Defined(members) <==> exists i :: 0 <= i < |members| && members[i] == Member(e.key, Some(e.value))
  {
    if members != [] {
      DefinedAre(members[1..], e);
      assert members == [members[0]] + members[1..];
      if i :| 0 <= i < |members[1..]| && members[1..][i] == Member(e.key, Some(e.value)) {
        assert members[i + 1] == Member(e.key, Some(e.value));
      }
      if i :| 0 <= i < |members| && members[i] == Member(e.key, Some(e.value)) {
        assert i > 0 ==> members[1..][i - 1] == Member(e.key, Some(e.value));
      }
    }
  }

  lemma {:induction false} EntrySays(es: seq<Entry>, i: nat)
    requires DistinctKeys(es) && i < |es|
    ensures es[i].key in DenoteEntries(es) && DenoteEntries(es)[es[i].key] == Denote(es[i].value)
    decreases |es|
  {
    if i > 0 {
      assert es[1..][i - 1] == es[i];
      EntrySays(es[1..], i - 1);
    }
  }

  /** An object says its defined members, each with its value, and nothing else. */
  lemma ObjectSays(members: seq<Member>, key: Text)
    requires Wf(Obj(members))
    ensures Denote(Obj(members)).VObj?
    ensures key in Denote(Obj(members)).fields <==> exists i :: 0 <= i < |members| && members[i].key == key && members[i].value.Some?
    ensures forall i :: 0 <= i < |members| && members[i].key == key && members[i].value.Some? ==>
              key in Denote(Obj(members)).fields && Denote(Obj(members)).fields[key] == Denote(members[i].value.value)
  {
    var es := Defined(members);
    DenoteDomain(es);
    forall i | 0 <= i < |members| && members[i].key == key && members[i].value.Some?
      ensures key in DenoteEntries(es) && DenoteEntries(es)[key] == Denote(members[i].value.value)
    {
      var e := Entry(key, members[i].value.value);
      DefinedAre(members, e);
      var k :| 0 <= k < |es| && es[k] == e;
      EntrySays(es, k);
    }
    if KeyIn(key, es) {
      var k :| 0 <= k < |es| && es[k].key == key;
      DefinedAre(members, es[k]);
    }
  }

  /** An array says its items in order, and anything else says itself. */
  lemma {:induction false} RestSays(items: seq<Json>)
    ensures |DenoteItems(items)| == |items| && forall i :: 0 <= i < |items| ==> DenoteItems(items)[i] == Denote(items[i])
    ensures Denote(Arr(items)) == VArr(DenoteItems(items)) && Denote(Null) == VNull
    ensures forall b :: Denote(Bool(b)) == VBool(b)
    ensures forall t: Text :: Denote(Number(t)) == VNumber(t) && Denote(Str(t)) == VStr(t)
  {
    if items != [] {
      RestSays(items[1..]);
    }
  }

  /** The text of an object lists its defined members by ascending key. */
  lemma ObjectText(members: seq<Member>) returns (es: seq<Entry>)
    requires Wf(Obj(members))
    ensures Canonicalize(Obj(members)) == [BEGIN] + JoinEntries(es) + [END] && Ascending(es)
    ensures forall key :: KeyIn(key, es) <==> exists i :: 0 <= i < |members| && members[i].key == key && members[i].value.Some?
  {
    es := Sort(Defined(members));
    SortIs(Defined(members));
    forall key ensures KeyIn(key, es) <==> exists i :: 0 <= i < |members| && members[i].key == key && members[i].value.Some? {
      ObjectSays(members, key);
      DenoteDomain(Defined(members));
    }
  }

  /** A member, as printed: `"a":true`. */
  lemma EntryText()
    ensures PrintEntry(Entry([97], Bool(true))) == [34, 97, 34, 58, 116, 114, 117, 101]
  {
    assert Chunks([97], 1) == [] && Chunk([97], 0) == [97];
    assert Chunks([97], 0) == [97];
  }

  /** An array, as printed: `[null,false]`. */
  lemma ArrayText()
    ensures Canonicalize(Arr([Null, Bool(false)])) == [91, 110, 117, 108, 108, 44, 102, 97, 108, 115, 101, 93]
  {
    assert [Null, Bool(false)][1..] == [Bool(false)] && [Bool(false)][1..] == [];
    assert TailItems([Bool(false)]) == [44] + [102, 97, 108, 115, 101] + [];
  }

  /** A line break and a quote, as printed: each behind a backslash. */
  lemma EscapeText()
    ensures Quoted([10, 34]) == [34, 92, 110, 92, 34, 34]
  {
    assert Chunk([10, 34], 0) == [92, 110] && Chunk([10, 34], 1) == [92, 34];
    assert Chunks([10, 34], 2) == [] && Chunks([10, 34], 1) == [92, 34];
  }

  // ----- Binding the scope -----

  function DigitUnits(digits: seq<nat>): Text {
    seq(|digits|, i requires 0 <= i < |digits| => 48 + digits[i])
  }

  /** What is hashed: the scope's length, the scope, then the body. */
  function Preimage(scope: Text, body: Json): Text {
    DigitUnits(Digits(|scope|)) + [COLON] + scope + Canonicalize(body)
  }

  lemma DigitUnitsInjective(a: seq<nat>, b: seq<nat>)
    requires DigitUnits(a) == DigitUnits(b)
    ensures a == b
  {
    assert |DigitUnits(a)| == |a| && |DigitUnits(b)| == |b|;
    forall i | 0 <= i < |a| ensures a[i] == b[i] {
      assert DigitUnits(a)[i] == DigitUnits(b)[i];
    }
  }

  lemma LengthFree(m: nat, x: Text, n: nat, y: Text)
    requires DigitUnits(Digits(m)) + [COLON] + x == DigitUnits(Digits(n)) + [COLON] + y
    ensures m == n && x == y
  {
    var p, q := DigitUnits(Digits(m)), DigitUnits(Digits(n));
    DigitsAreDigits(m);
    DigitsAreDigits(n);
    assert p + [COLON] + x == p + ([COLON] + x) && q + [COLON] + y == q + ([COLON] + y);
    if |p| < |q| {
      ShorterPrefix(p, [COLON] + x, q, [COLON] + y);
    } else if |q| < |p| {
      ShorterPrefix(q, [COLON] + y, p, [COLON] + x);
    }
    SameLengthSplit(p, [COLON] + x, q, [COLON] + y);
    CancelPrefix([COLON], x, y);
    DigitUnitsInjective(Digits(m), Digits(n));
    ValueOfDigits(m);
    ValueOfDigits(n);
  }

  /** What is hashed for a scope of three units: its length, a colon, the scope, the body. */
  lemma PreimageText(scope: Text, body: Json)
    requires |scope| == 3
    ensures Preimage(scope, body) == [51, 58] + scope + Canonicalize(body)
  {
    assert Digits(3) == [3];
    assert DigitUnits([3]) == [51];
    assert [51] + [58] == [51, 58];
  }

  /** Scope and body are both determined by what is hashed, wherever the scope ends. */
  lemma PreimageExact(scope: Text, a: Json, scope': Text, b: Json)
    requires Wf(a) && Wf(b)
    ensures Preimage(scope, a) == Preimage(scope', b) <==> scope == scope' && Denote(a) == Denote(b)
  {
    CanonicalizeExact(a, b);
    var p, q := DigitUnits(Digits(|scope|)) + [COLON], DigitUnits(Digits(|scope'|)) + [COLON];
    var x, y := scope + Canonicalize(a), scope' + Canonicalize(b);
    assert Preimage(scope, a) == p + x && Preimage(scope', b) == q + y;
    if Preimage(scope, a) == Preimage(scope', b) {
      LengthFree(|scope|, x, |scope'|, y);
      SameLengthSplit(scope, Canonicalize(a), scope', Canonicalize(b));
    }
  }
}

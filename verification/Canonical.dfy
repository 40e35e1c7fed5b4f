/**
 The canonical text of a request, over UTF-16 code units as the program's strings
 are: JSON in which objects, however deep, list their members by key. Two requests
 print the same text exactly when they say the same thing.
 */
module Canonical {
  import opened Wrappers

  type Unit = nat

  type Text = seq<Unit>

  /** A parsed body. A number is its printed numeral; a member may be present and undefined. */
  datatype Json =
    | Null
    | Bool(b: bool)
    | Number(numeral: Text)
    | Str(text: Text)
    | Arr(items: seq<Json>)
    | Obj(members: seq<Member>)

  datatype Member = Member(key: Text, value: Option<Json>)

  datatype Entry = Entry(key: Text, value: Json)

  /** What a body says: an object is a map, so the order of its keys is gone. */
  datatype Value =
    | VNull
    | VBool(b: bool)
    | VNumber(numeral: Text)
    | VStr(text: Text)
    | VArr(items: seq<Value>)
    | VObj(fields: map<Text, Value>)

  // ----- Characters -----

  const QUOTE: Unit := 34
  const COMMA: Unit := 44
  const COLON: Unit := 58
  const OPEN: Unit := 91
  const BACKSLASH: Unit := 92
  const CLOSE: Unit := 93
  const LOWER_U: Unit := 117
  const BEGIN: Unit := 123
  const END: Unit := 125

  predicate IsDigit(u: Unit) { 48 <= u <= 57 }

  /** Digits, minus, plus, point and the exponent marks: all a numeral may hold. */
  predicate InNumeral(u: Unit) { IsDigit(u) || u == 45 || u == 43 || u == 46 || u == 101 || u == 69 }

  predicate NumeralOk(n: Text) {
    n != [] && (IsDigit(n[0]) || n[0] == 45) && forall i :: 0 <= i < |n| ==> InNumeral(n[i])
  }

  predicate TextOk(t: Text) {
    forall i :: 0 <= i < |t| ==> t[i] < 0x1_0000
  }

  // ----- Strings -----

  predicate IsHigh(u: Unit) { 0xD800 <= u < 0xDC00 }

  predicate IsLow(u: Unit) { 0xDC00 <= u < 0xE000 }

  /** A surrogate without its other half. */
  predicate Lone(t: Text, i: nat)
    requires i < |t|
  {
    || (IsHigh(t[i]) && !(i + 1 < |t| && IsLow(t[i + 1])))
    || (IsLow(t[i]) && !(i > 0 && IsHigh(t[i - 1])))
  }

  function HexDigit(d: nat): Unit { if d < 10 then 48 + d else 87 + d }

  function Hex4(u: Unit): Text {
    [HexDigit(u / 4096), HexDigit(u / 256 % 16), HexDigit(u / 16 % 16), HexDigit(u % 16)]
  }

  /** The letter of a two-character escape, where there is one. */
  function ShortEscape(u: Unit): Option<Unit> {
    if u == QUOTE || u == BACKSLASH then Some(u)
    else if u == 8 then Some(98)
    else if u == 9 then Some(116)
    else if u == 10 then Some(110)
    else if u == 12 then Some(102)
    else if u == 13 then Some(114)
    else None
  }

  /** How the unit at `i` is printed. */
  function Chunk(t: Text, i: nat): Text
    requires i < |t|
  {
    var u := t[i];
    if ShortEscape(u).Some? then [BACKSLASH, ShortEscape(u).value]
    else if u < 32 || Lone(t, i) then [BACKSLASH, LOWER_U] + Hex4(u)
    else [u]
  }

  function Chunks(t: Text, i: nat): Text
    requires i <= |t|
    decreases |t| - i
  {
    if i == |t| then [] else Chunk(t, i) + Chunks(t, i + 1)
  }

  function Quoted(t: Text): Text {
    [QUOTE] + Chunks(t, 0) + [QUOTE]
  }

  // ----- Order of keys -----

  /** Strings compare unit by unit. */
  predicate Less(a: Text, b: Text) {
    if b == [] then false
    else if a == [] then true
    else a[0] < b[0] || (a[0] == b[0] && Less(a[1..], b[1..]))
  }

  predicate Ascending(es: seq<Entry>) {
    forall i, j :: 0 <= i < j < |es| ==> Less(es[i].key, es[j].key)
  }

  // ----- Sizes, for termination -----

  function Size(v: Json): nat {
    match v
    case Arr(items) => 1 + SizeItems(items)
    case Obj(members) => 1 + SizeMembers(members)
    case _ => 1
  }

  function SizeItems(items: seq<Json>): nat {
    if items == [] then 0 else 1 + Size(items[0]) + SizeItems(items[1..])
  }

  function SizeMembers(members: seq<Member>): nat {
    if members == [] then 0
    else 1 + (if members[0].value.Some? then Size(members[0].value.value) else 0) + SizeMembers(members[1..])
  }

  function SizeEntries(es: seq<Entry>): nat {
    if es == [] then 0 else 1 + Size(es[0].value) + SizeEntries(es[1..])
  }

  // ----- Filter and sort -----

  /** The members that are defined. */
  function Defined(members: seq<Member>): (es: seq<Entry>)
    ensures SizeEntries(es) <= SizeMembers(members)
  {
    if members == [] then []
    else if members[0].value.None? then Defined(members[1..])
    else
      var rest := Defined(members[1..]);
      assert ([Entry(members[0].key, members[0].value.value)] + rest)[1..] == rest;
      [Entry(members[0].key, members[0].value.value)] + rest
  }

  function Insert(e: Entry, es: seq<Entry>): (r: seq<Entry>)
    ensures SizeEntries(r) == 1 + Size(e.value) + SizeEntries(es)
  {
    if es == [] || Less(e.key, es[0].key) then
      assert ([e] + es)[1..] == es;
      [e] + es
    else
      var rest := Insert(e, es[1..]);
      assert ([es[0]] + rest)[1..] == rest;
      [es[0]] + rest
  }

  function Sort(es: seq<Entry>): (r: seq<Entry>)
    ensures SizeEntries(r) == SizeEntries(es)
  {
    if es == [] then [] else Insert(es[0], Sort(es[1..]))
  }

  // ----- The canonical text -----

  function Canonicalize(v: Json): Text
    decreases Size(v), 0
  {
    match v
    case Null => [110, 117, 108, 108]
    case Bool(b) => if b then [116, 114, 117, 101] else [102, 97, 108, 115, 101]
    case Number(n) => n
    case Str(t) => Quoted(t)
    case Arr(items) => [OPEN] + JoinItems(items) + [CLOSE]
    case Obj(members) => [BEGIN] + JoinEntries(Sort(Defined(members))) + [END]
  }

  function JoinItems(items: seq<Json>): Text
    decreases SizeItems(items), 1
  {
    if items == [] then [] else Canonicalize(items[0]) + TailItems(items[1..])
  }

  function TailItems(items: seq<Json>): Text
    decreases SizeItems(items), 0
  {
    if items == [] then [] else [COMMA] + Canonicalize(items[0]) + TailItems(items[1..])
  }

  function PrintEntry(e: Entry): Text
    decreases Size(e.value), 1
  {
    Quoted(e.key) + [COLON] + Canonicalize(e.value)
  }

  function JoinEntries(es: seq<Entry>): Text
    decreases SizeEntries(es), 1
  {
    if es == [] then [] else PrintEntry(es[0]) + TailEntries(es[1..])
  }

  function TailEntries(es: seq<Entry>): Text
    decreases SizeEntries(es), 0
  {
    if es == [] then [] else [COMMA] + PrintEntry(es[0]) + TailEntries(es[1..])
  }

  // ----- What a body says -----

  function Denote(v: Json): Value
    decreases Size(v), 0
  {
    match v
    case Null => VNull
    case Bool(b) => VBool(b)
    case Number(n) => VNumber(n)
    case Str(t) => VStr(t)
    case Arr(items) => VArr(DenoteItems(items))
    case Obj(members) => VObj(DenoteEntries(Defined(members)))
  }

  function DenoteItems(items: seq<Json>): seq<Value>
    decreases SizeItems(items), 0
  {
    if items == [] then [] else [Denote(items[0])] + DenoteItems(items[1..])
  }

  function DenoteEntries(es: seq<Entry>): map<Text, Value>
    decreases SizeEntries(es), 0
  {
    if es == [] then map[] else DenoteEntries(es[1..])[es[0].key := Denote(es[0].value)]
  }

  // ----- Well-formed bodies -----

  /** What a parser yields: keys of an object differ, numerals are numerals, units are 16 bits wide. */
  ghost predicate Wf(v: Json)
    decreases Size(v), 0
  {
    match v
    case Number(n) => NumeralOk(n)
    case Str(t) => TextOk(t)
    case Arr(items) => WfItems(items)
    case Obj(members) => WfEntries(Defined(members)) && DistinctKeys(Defined(members))
    case _ => true
  }

  ghost predicate WfItems(items: seq<Json>)
    decreases SizeItems(items), 0
  {
    items == [] || (Wf(items[0]) && WfItems(items[1..]))
  }

  ghost predicate WfEntries(es: seq<Entry>)
    decreases SizeEntries(es), 0
  {
    es == [] || (TextOk(es[0].key) && Wf(es[0].value) && WfEntries(es[1..]))
  }

  ghost predicate DistinctKeys(es: seq<Entry>) {
    forall i, j :: 0 <= i < j < |es| ==> es[i].key != es[j].key
  }
}

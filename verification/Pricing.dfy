/**
 What a basket costs, stated declaratively: which baskets the menu permits, which
 of those are in stock, and the money owed. `PricingPasses` holds the passes of
 the program itself, proved to compute exactly this.
 */
module Pricing {
  import opened Wrappers
  import opened Sums
  import Vat

  datatype CatalogOption = CatalogOption(id: string, name: string, priceDeltaMinor: int, isAvailable: bool)

  datatype OptionGroup = OptionGroup(id: string, name: string, minSelect: int, maxSelect: int, options: seq<CatalogOption>)

  datatype CatalogItem = CatalogItem(id: string, name: string, basePriceMinor: int, isAvailable: bool, optionGroups: seq<OptionGroup>)

  type Catalog = map<string, CatalogItem>

  datatype RequestedItem = RequestedItem(menuItemId: string, quantity: int, optionIds: seq<string>, notes: Option<string>)

  /** An option together with the group that attaches it to an item. */
  datatype Attached = Attached(option: CatalogOption, group: OptionGroup)

  datatype PricedOption = PricedOption(optionId: string, groupName: string, optionName: string, priceDeltaMinor: int)

  datatype PricedLine = PricedLine(menuItemId: string, name: string, unitPriceMinor: int, quantity: int,
                                   lineTotalMinor: int, notes: Option<string>, options: seq<PricedOption>)

  datatype PricedOrder = PricedOrder(lines: seq<PricedLine>, subtotalMinor: int, vatMinor: int, totalMinor: int)

  // ----- The options an item offers -----

  /** Every option of the groups, by id; a later option with the same id replaces an earlier one. */
  function AttachedIn(groups: seq<OptionGroup>): map<string, Attached> {
    if groups == [] then map[] else
      var g := groups[|groups| - 1];
      AttachedIn(groups[..|groups| - 1]) + AttachedFrom(g, g.options)
  }

  function AttachedFrom(group: OptionGroup, options: seq<CatalogOption>): map<string, Attached> {
    if options == [] then map[] else
      var o := options[|options| - 1];
      AttachedFrom(group, options[..|options| - 1])[o.id := Attached(o, group)]
  }

  /** An id is attached exactly when one of the item's own groups offers it. */
  lemma AttachedScope(groups: seq<OptionGroup>, id: string)
    ensures id in AttachedIn(groups) <==>
            exists g, o :: 0 <= g < |groups| && 0 <= o < |groups[g].options| && groups[g].options[o].id == id
    ensures id in AttachedIn(groups) ==>
              && AttachedIn(groups)[id].option.id == id
              && AttachedIn(groups)[id].group in groups
              && AttachedIn(groups)[id].option in AttachedIn(groups)[id].group.options
  {
    if groups != [] {
      var init, last := groups[..|groups| - 1], groups[|groups| - 1];
      AttachedScope(init, id);
      AttachedFromScope(last, last.options, id);
      if id in AttachedIn(groups) {
        if id in AttachedFrom(last, last.options) {
          assert last == groups[|groups| - 1];
        } else {
          var g, o :| 0 <= g < |init| && 0 <= o < |init[g].options| && init[g].options[o].id == id;
          assert init[g] == groups[g];
        }
      }
      forall g, o | 0 <= g < |groups| && 0 <= o < |groups[g].options| && groups[g].options[o].id == id
        ensures id in AttachedIn(groups)
      {
        if g < |init| {
          assert init[g] == groups[g];
        }
      }
    }
  }

  lemma AttachedFromScope(group: OptionGroup, options: seq<CatalogOption>, id: string)
    ensures id in AttachedFrom(group, options) <==> exists o :: 0 <= o < |options| && options[o].id == id
    ensures id in AttachedFrom(group, options) ==>
              var a := AttachedFrom(group, options)[id];
              a.option.id == id && a.group == group && a.option in options
  {
    if options != [] {
      var init := options[..|options| - 1];
      AttachedFromScope(group, init, id);
      if id in AttachedFrom(group, init) {
        var o :| 0 <= o < |init| && init[o].id == id;
        assert options[o].id == id;
      }
      forall o | 0 <= o < |options| && options[o].id == id ensures id in AttachedFrom(group, options) {
        if o < |init| {
          assert init[o].id == id;
        }
      }
    }
  }

  // ----- Which baskets are accepted -----

  predicate Distinct(ids: seq<string>) {
    forall i, j :: 0 <= i < j < |ids| ==> ids[i] != ids[j]
  }

  /** The ids picked from one group. */
  function PickedFrom(ids: seq<string>, attached: map<string, Attached>, groupId: string): set<string> {
    set id | id in ids && id in attached && attached[id].group.id == groupId
  }

  predicate WithinBounds(ids: seq<string>, attached: map<string, Attached>, group: OptionGroup) {
    group.minSelect <= |PickedFrom(ids, attached, group.id)| <= group.maxSelect
  }

  /** The selection is one the menu permits for this item. */
  predicate ShapeOk(ids: seq<string>, item: CatalogItem) {
    var attached := AttachedIn(item.optionGroups);
    && Distinct(ids)
    && (forall id :: id in ids ==> id in attached)
    && (forall g :: g in item.optionGroups ==> WithinBounds(ids, attached, g))
  }

  /** Everything the selection names is in stock. */
  predicate InStock(ids: seq<string>, item: CatalogItem) {
    var attached := AttachedIn(item.optionGroups);
    && item.isAvailable
    && (forall id :: id in ids && id in attached ==> attached[id].option.isAvailable)
  }

  predicate LineAccepted(line: RequestedItem, catalog: Catalog) {
    && line.menuItemId in catalog
    && ShapeOk(line.optionIds, catalog[line.menuItemId])
    && InStock(line.optionIds, catalog[line.menuItemId])
  }

  predicate Accepts(requested: seq<RequestedItem>, catalog: Catalog) {
    forall i :: 0 <= i < |requested| ==> LineAccepted(requested[i], catalog)
  }

  // ----- The money -----

  function Max(a: int, b: int): int {
    if a >= b then a else b
  }

  function DeltaIn(attached: map<string, Attached>): string -> int {
    id => if id in attached then attached[id].option.priceDeltaMinor else 0
  }

  function Deltas(ids: seq<string>, attached: map<string, Attached>): int {
    SumOf(ids, DeltaIn(attached))
  }

  /** What one unit of the line costs: the base price plus the deltas, never below zero. */
  function UnitPrice(line: RequestedItem, item: CatalogItem): int {
    Max(0, item.basePriceMinor + Deltas(line.optionIds, AttachedIn(item.optionGroups)))
  }

  function LineAmount(line: RequestedItem, catalog: Catalog): int {
    if line.menuItemId in catalog then UnitPrice(line, catalog[line.menuItemId]) * line.quantity else 0
  }

  function LineAmountIn(catalog: Catalog): RequestedItem -> int {
    line => LineAmount(line, catalog)
  }

  /** What a basket costs: the sum over its lines of max(0, base + deltas) times quantity. */
  function Amount(requested: seq<RequestedItem>, catalog: Catalog): int {
    SumOf(requested, LineAmountIn(catalog))
  }

  // ----- Order of lines and of options does not matter -----

  lemma DistinctIsMultiplicityOne(ids: seq<string>)
    ensures Distinct(ids) <==> forall id :: id in ids ==> multiset(ids)[id] == 1
  {
    if Distinct(ids) {
      forall id | id in ids ensures multiset(ids)[id] == 1 {
        OccursOnce(ids, id);
      }
    } else {
      var i, j :| 0 <= i < j < |ids| && ids[i] == ids[j];
      CountedTwice(ids, i, j);
    }
  }

  lemma CountedTwice(ids: seq<string>, i: nat, j: nat)
    requires i < j < |ids| && ids[i] == ids[j]
    ensures multiset(ids)[ids[i]] >= 2
  {
    DropAt(ids, i);
    assert ids[j] == ids[i + 1..][j - i - 1];
    assert ids[j] in ids[i + 1..];
  }

  lemma SameMembers<T>(a: seq<T>, b: seq<T>)
    requires multiset(a) == multiset(b)
    ensures forall x :: x in a <==> x in b
  {
    assert forall x :: x in a <==> x in multiset(a);
    assert forall x :: x in b <==> x in multiset(b);
  }

  lemma ShapePermutes(a: seq<string>, b: seq<string>, item: CatalogItem)
    requires multiset(a) == multiset(b) && ShapeOk(a, item)
    ensures ShapeOk(b, item)
  {
    SameMembers(a, b);
    DistinctIsMultiplicityOne(a);
    DistinctIsMultiplicityOne(b);
    var attached := AttachedIn(item.optionGroups);
    forall g | g in item.optionGroups ensures WithinBounds(b, attached, g) {
      assert WithinBounds(a, attached, g);
      assert PickedFrom(a, attached, g.id) == PickedFrom(b, attached, g.id);
    }
  }

  /** Reordering the options of a line changes neither whether it is accepted nor what it costs. */
  lemma OptionOrderIrrelevant(line: RequestedItem, ids: seq<string>, catalog: Catalog)
    requires multiset(ids) == multiset(line.optionIds)
    ensures LineAccepted(line, catalog) <==> LineAccepted(line.(optionIds := ids), catalog)
    ensures LineAmount(line, catalog) == LineAmount(line.(optionIds := ids), catalog)
  {
    if line.menuItemId in catalog {
      var item := catalog[line.menuItemId];
      SumPermutes(ids, line.optionIds, DeltaIn(AttachedIn(item.optionGroups)));
      SameMembers(ids, line.optionIds);
      if ShapeOk(ids, item) {
        ShapePermutes(ids, line.optionIds, item);
      } else if ShapeOk(line.optionIds, item) {
        ShapePermutes(line.optionIds, ids, item);
      }
    }
  }

  /** Reordering the lines of a basket changes neither whether it is accepted nor its total. */
  lemma LineOrderIrrelevant(a: seq<RequestedItem>, b: seq<RequestedItem>, catalog: Catalog)
    requires multiset(a) == multiset(b)
    ensures Accepts(a, catalog) <==> Accepts(b, catalog)
    ensures Amount(a, catalog) == Amount(b, catalog)
  {
    SumPermutes(a, b, LineAmountIn(catalog));
    AcceptsIsAboutMembers(a, catalog);
    AcceptsIsAboutMembers(b, catalog);
    SameMembers(a, b);
  }

  lemma AcceptsIsAboutMembers(requested: seq<RequestedItem>, catalog: Catalog)
    ensures Accepts(requested, catalog) <==> forall x :: x in requested ==> LineAccepted(x, catalog)
  {
  }

  // ----- The priced order -----

  function PricedOptionOf(a: Attached): PricedOption {
    PricedOption(a.option.id, a.group.name, a.option.name, a.option.priceDeltaMinor)
  }

  /** The options a line names, as the item attaches them. */
  function Chosen(ids: seq<string>, attached: map<string, Attached>): seq<Attached> {
    if ids == [] then [] else
      var id, rest := ids[|ids| - 1], Chosen(ids[..|ids| - 1], attached);
      if id in attached then rest + [attached[id]] else rest
  }

  function PricedOptions(chosen: seq<Attached>): seq<PricedOption> {
    seq(|chosen|, i requires 0 <= i < |chosen| => PricedOptionOf(chosen[i]))
  }

  function QuoteLine(line: RequestedItem, item: CatalogItem): PricedLine {
    PricedLine(item.id, item.name, UnitPrice(line, item), line.quantity, UnitPrice(line, item) * line.quantity, line.notes,
               PricedOptions(Chosen(line.optionIds, AttachedIn(item.optionGroups))))
  }

  function QuotedLines(requested: seq<RequestedItem>, catalog: Catalog): (r: seq<PricedLine>)
    requires Accepts(requested, catalog)
  {
    seq(|requested|, i requires 0 <= i < |requested| => QuoteLine(requested[i], catalog[requested[i].menuItemId]))
  }

  /** The order an accepted basket is priced into. */
  function Quote(requested: seq<RequestedItem>, catalog: Catalog, vatBasisPoints: int): PricedOrder
    requires Accepts(requested, catalog) && Vat.ValidRate(vatBasisPoints)
  {
    var total := Amount(requested, catalog);
    PricedOrder(QuotedLines(requested, catalog), total, Vat.ExtractVat(total, vatBasisPoints), total)
  }

  function LineTotal(): PricedLine -> int {
    (line: PricedLine) => line.lineTotalMinor
  }

  function LinesTotal(lines: seq<PricedLine>): int {
    SumOf(lines, LineTotal())
  }

  /** Every line's stored amounts agree: total is unit price times quantity, and the unit price is not negative. */
  predicate LineConsistent(line: PricedLine) {
    line.unitPriceMinor >= 0 && line.lineTotalMinor == line.unitPriceMinor * line.quantity
  }

  /** Conservation inside an order: lines add up to the total, and the VAT is a part of it. */
  predicate MoneyConsistent(order: PricedOrder) {
    && order.totalMinor == order.subtotalMinor == LinesTotal(order.lines)
    && (forall i :: 0 <= i < |order.lines| ==> LineConsistent(order.lines[i]) && order.lines[i].lineTotalMinor >= 0)
    && 0 <= order.vatMinor <= order.totalMinor
  }

  lemma {:induction false} AmountIsLinesTotal(requested: seq<RequestedItem>, catalog: Catalog, lines: seq<PricedLine>)
    requires |lines| == |requested|
    requires forall i :: 0 <= i < |lines| ==> lines[i].lineTotalMinor == LineAmount(requested[i], catalog)
    ensures LinesTotal(lines) == Amount(requested, catalog)
  {
    if lines != [] {
      AmountIsLinesTotal(requested[..|requested| - 1], catalog, lines[..|lines| - 1]);
    }
  }

  lemma QuotedLinesTotal(requested: seq<RequestedItem>, catalog: Catalog)
    requires Accepts(requested, catalog)
    ensures LinesTotal(QuotedLines(requested, catalog)) == Amount(requested, catalog)
  {
    AmountIsLinesTotal(requested, catalog, QuotedLines(requested, catalog));
  }

  /** A quoted order conserves money from its lines to its total and its VAT. */
  lemma QuoteIsConsistent(requested: seq<RequestedItem>, catalog: Catalog, vatBasisPoints: int)
    requires Accepts(requested, catalog) && Vat.ValidRate(vatBasisPoints)
    requires forall i :: 0 <= i < |requested| ==> requested[i].quantity >= 0
    ensures MoneyConsistent(Quote(requested, catalog, vatBasisPoints))
  {
    var order := Quote(requested, catalog, vatBasisPoints);
    QuotedLinesTotal(requested, catalog);
    forall i | 0 <= i < |order.lines|
      ensures LineConsistent(order.lines[i]) && order.lines[i].lineTotalMinor >= 0
    {
      Vat.MulMonotone(order.lines[i].unitPriceMinor, 0, requested[i].quantity);
    }
    SumNonNegative(order.lines, LineTotal());
    Vat.VatWithinTotal(order.totalMinor, vatBasisPoints);
  }
}

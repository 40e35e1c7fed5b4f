/**
 What a basket may hold, what it costs and what is said of one that may not be
 ordered, spelled out over the catalog: groups and options by position, options by id.
 */
module Menu {
  import opened Sums
  import opened Pricing
  import opened PricingPasses
  import Vat

  // ----- What an id stands for -----

  ghost predicate OfferedAt(groups: seq<OptionGroup>, g: nat, o: nat, id: string) {
    g < |groups| && o < |groups[g].options| && groups[g].options[o].id == id
  }

  /** Of two offers under one id, the later. */
  ghost predicate LastOffer(groups: seq<OptionGroup>, g: nat, o: nat, id: string) {
    OfferedAt(groups, g, o, id) && forall h: nat, p: nat :: OfferedAt(groups, h, p, id) ==> h < g || (h == g && p <= o)
  }

  /** An id stands for the last option the item offers under it. */
  lemma {:induction false} IdStandsFor(groups: seq<OptionGroup>, g: nat, o: nat, id: string)
    requires LastOffer(groups, g, o, id)
    ensures id in AttachedIn(groups) && AttachedIn(groups)[id] == Attached(groups[g].options[o], groups[g])
    decreases |groups|
  {
    var n := |groups| - 1;
    var init, last := groups[..n], groups[n];
    AttachedFromScope(last, last.options, id);
    if g == n {
      assert forall p: nat :: p < |last.options| && last.options[p].id == id ==> OfferedAt(groups, n, p, id);
      LastOfGroup(last, last.options, o, id);
    } else {
      forall p | 0 <= p < |last.options| ensures last.options[p].id != id {
        assert !OfferedAt(groups, n, p, id);
      }
      forall h: nat, p: nat | OfferedAt(init, h, p, id) ensures h < g || (h == g && p <= o) {
        assert OfferedAt(groups, h, p, id);
      }
      IdStandsFor(init, g, o, id);
    }
  }

  lemma {:induction false} LastOfGroup(group: OptionGroup, options: seq<CatalogOption>, o: nat, id: string)
    requires o < |options| && options[o].id == id && forall p :: o < p < |options| ==> options[p].id != id
    ensures id in AttachedFrom(group, options) && AttachedFrom(group, options)[id] == Attached(options[o], group)
    decreases |options|
  {
    if o < |options| - 1 {
      LastOfGroup(group, options[..|options| - 1], o, id);
    }
  }

  // ----- Which lines may be ordered -----

  /** The ids of the selection that stand for an option of this group. */
  ghost function PickedOf(ids: seq<string>, item: CatalogItem, group: OptionGroup): set<string> {
    set id | id in ids && id in AttachedIn(item.optionGroups) && AttachedIn(item.optionGroups)[id].group.id == group.id
  }

  /**
   A line may be ordered exactly when its item is on the menu and in stock, no option
   is named twice, every option named is offered by the item and in stock, and every
   group gets no fewer and no more than it asks for.
   */
  lemma MayBeOrdered(line: RequestedItem, catalog: Catalog)
    ensures LineAccepted(line, catalog) <==>
            && line.menuItemId in catalog
            && var item := catalog[line.menuItemId];
               && item.isAvailable
               && (forall i, j :: 0 <= i < j < |line.optionIds| ==> line.optionIds[i] != line.optionIds[j])
               && (forall id :: id in line.optionIds ==> id in AttachedIn(item.optionGroups) && AttachedIn(item.optionGroups)[id].option.isAvailable)
               && (forall g :: g in item.optionGroups ==> g.minSelect <= |PickedOf(line.optionIds, item, g)| <= g.maxSelect)
  {
    if line.menuItemId in catalog {
      var item := catalog[line.menuItemId];
      forall g | g in item.optionGroups
        ensures WithinBounds(line.optionIds, AttachedIn(item.optionGroups), g) <==> g.minSelect <= |PickedOf(line.optionIds, item, g)| <= g.maxSelect
      {
        assert PickedFrom(line.optionIds, AttachedIn(item.optionGroups), g.id) == PickedOf(line.optionIds, item, g);
      }
    }
  }

  // ----- What a line costs -----

  ghost predicate ReadsDelta(item: CatalogItem, delta: string -> int) {
    forall id :: id in AttachedIn(item.optionGroups) ==> delta(id) == AttachedIn(item.optionGroups)[id].option.priceDeltaMinor
  }

  /** A unit costs the base price and what its options add or take off, and never less than nothing; a line so many of them. */
  lemma LineIsPriced(requested: seq<RequestedItem>, catalog: Catalog, vatBasisPoints: int, i: nat, delta: string -> int)
    requires Accepts(requested, catalog) && Vat.ValidRate(vatBasisPoints) && i < |requested|
    requires requested[i].menuItemId in catalog ==> ReadsDelta(catalog[requested[i].menuItemId], delta)
    ensures requested[i].menuItemId in catalog && |Quote(requested, catalog, vatBasisPoints).lines| == |requested|
    ensures var asked, item := requested[i], catalog[requested[i].menuItemId];
            var line, sum := Quote(requested, catalog, vatBasisPoints).lines[i], item.basePriceMinor + SumOf(asked.optionIds, delta);
            && line.unitPriceMinor == (if sum > 0 then sum else 0)
            && line.lineTotalMinor == line.unitPriceMinor * asked.quantity
            && line.menuItemId == item.id && line.name == item.name && line.quantity == asked.quantity && line.notes == asked.notes
  {
    var asked := requested[i];
    assert LineAccepted(asked, catalog);
    var attached := AttachedIn(catalog[asked.menuItemId].optionGroups);
    assert forall k :: 0 <= k < |asked.optionIds| ==> asked.optionIds[k] in asked.optionIds;
    SumCongruent(asked.optionIds, DeltaIn(attached), delta);
  }

  /** Each option chosen is written with its group, its name and its price, in the order they were named. */
  lemma OptionsAreWritten(requested: seq<RequestedItem>, catalog: Catalog, vatBasisPoints: int, i: nat, j: nat)
    requires Accepts(requested, catalog) && Vat.ValidRate(vatBasisPoints) && i < |requested| && j < |requested[i].optionIds|
    ensures requested[i].menuItemId in catalog && |Quote(requested, catalog, vatBasisPoints).lines| == |requested|
    ensures var id, attached := requested[i].optionIds[j], AttachedIn(catalog[requested[i].menuItemId].optionGroups);
            var options := Quote(requested, catalog, vatBasisPoints).lines[i].options;
            && id in attached && |options| == |requested[i].optionIds|
            && options[j] == PricedOption(id, attached[id].group.name, attached[id].option.name, attached[id].option.priceDeltaMinor)
  {
    var asked := requested[i];
    assert LineAccepted(asked, catalog);
    var item := catalog[asked.menuItemId];
    assert forall k :: 0 <= k < |asked.optionIds| ==> asked.optionIds[k] in asked.optionIds;
    ChosenIndexed(asked.optionIds, AttachedIn(item.optionGroups));
    AttachedScope(item.optionGroups, asked.optionIds[j]);
  }

  /** The total is what the lines come to, there are no charges beside them, and the tax in it is at the rate given. */
  lemma OrderIsPriced(requested: seq<RequestedItem>, catalog: Catalog, vatBasisPoints: int)
    requires Accepts(requested, catalog) && Vat.ValidRate(vatBasisPoints)
    ensures var order := Quote(requested, catalog, vatBasisPoints);
            && order.totalMinor == order.subtotalMinor == LinesTotal(order.lines)
            && order.vatMinor == Vat.ExtractVat(order.totalMinor, vatBasisPoints)
  {
    QuotedLinesTotal(requested, catalog);
  }

  // ----- What is said of a line that may not be ordered -----

  ghost predicate NamesThem(ids: seq<string>, where: string -> bool) {
    (forall i, j :: 0 <= i < j < |ids| ==> ids[i] != ids[j]) && forall id :: id in ids <==> where(id)
  }

  /** Ids named twice and ids not offered are each reported, once, and before any bounds. */
  lemma BadIdsAreReported(index: nat, line: RequestedItem, catalog: Catalog, twice: string -> bool, unknown: string -> bool)
    requires line.menuItemId in catalog
    requires forall id :: twice(id) <==> multiset(line.optionIds)[id] >= 2
    requires forall id :: unknown(id) <==> id in line.optionIds && id !in AttachedIn(catalog[line.menuItemId].optionGroups)
    requires exists id :: id in line.optionIds && (twice(id) || unknown(id))
    ensures exists a, b :: NamesThem(a, twice) && NamesThem(b, unknown)
                           && LineViolations(index, Resolve(line, catalog)) ==
                              (if a == [] then [] else [DuplicateOption(index, a)]) + (if b == [] then [] else [UnknownOption(index, b)])
  {
    var attached := AttachedIn(catalog[line.menuItemId].optionGroups);
    RepeatedAre(line.optionIds);
    MentionsAre(line.optionIds, attached, false);
    var a, b := RepeatedIds(line.optionIds), FirstMentions(line.optionIds, attached, false);
    assert NamesThem(a, twice) && NamesThem(b, unknown);
    var id :| id in line.optionIds && (twice(id) || unknown(id));
    assert id in a || id in b;
  }

  lemma {:induction false} BoundsAre(index: nat, groups: seq<OptionGroup>, options: seq<Attached>, v: Violation)
    ensures v in BoundViolations(index, groups, options) <==>
            exists g :: g in groups && OutOfBounds(index, g, SelectedIn(options, g.id), v)
  {
    if groups != [] {
      var n := |groups| - 1;
      BoundsAre(index, groups[..n], options, v);
      assert groups == groups[..n] + [groups[n]];
    }
  }

  /** The complaint that a group got too few or too many. */
  ghost predicate OutOfBounds(index: nat, g: OptionGroup, picked: nat, v: Violation) {
    || (picked < g.minSelect && v == MinSelect(index, g.id, g.name, picked, g.minSelect, g.maxSelect))
    || (g.minSelect <= picked && g.maxSelect < picked && v == MaxSelect(index, g.id, g.name, picked, g.minSelect, g.maxSelect))
  }

  /** On a line whose options are distinct and offered, each group that got too few or too many is reported with its bounds and the count. */
  lemma BoundsAreReported(index: nat, line: RequestedItem, catalog: Catalog, v: Violation)
    requires line.menuItemId in catalog && Distinct(line.optionIds)
    requires forall id :: id in line.optionIds ==> id in AttachedIn(catalog[line.menuItemId].optionGroups)
    ensures var item := catalog[line.menuItemId];
            v in LineViolations(index, Resolve(line, catalog)) <==>
            exists g :: g in item.optionGroups && OutOfBounds(index, g, |PickedOf(line.optionIds, item, g)|, v)
  {
    var item := catalog[line.menuItemId];
    var options := Offered(line.optionIds, AttachedIn(item.optionGroups));
    CleanLineReports(index, line, catalog);
    BoundsAre(index, item.optionGroups, options, v);
    forall g | g in item.optionGroups ensures SelectedIn(options, g.id) == |PickedOf(line.optionIds, item, g)| {
      CountIsPicked(line.optionIds, item, g);
    }
  }

  lemma CleanLineReports(index: nat, line: RequestedItem, catalog: Catalog)
    requires line.menuItemId in catalog && Distinct(line.optionIds)
    requires forall id :: id in line.optionIds ==> id in AttachedIn(catalog[line.menuItemId].optionGroups)
    ensures var item := catalog[line.menuItemId];
            LineViolations(index, Resolve(line, catalog)) ==
            BoundViolations(index, item.optionGroups, Offered(line.optionIds, AttachedIn(item.optionGroups)))
  {
    RepeatedAre(line.optionIds);
    UnknownEmpty(line.optionIds, AttachedIn(catalog[line.menuItemId].optionGroups));
  }

  lemma CountIsPicked(ids: seq<string>, item: CatalogItem, g: OptionGroup)
    requires Distinct(ids) && forall id :: id in ids ==> id in AttachedIn(item.optionGroups)
    ensures SelectedIn(Offered(ids, AttachedIn(item.optionGroups)), g.id) == |PickedOf(ids, item, g)|
  {
    var attached := AttachedIn(item.optionGroups);
    MentionsOfCleanLine(ids, attached);
    assert forall i :: 0 <= i < |ids| ==> ids[i] in ids;
    SelectedIsPicked(ids, attached, g.id);
    assert PickedFrom(ids, attached, g.id) == PickedOf(ids, item, g);
  }
}

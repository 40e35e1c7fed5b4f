/**
 Pricing as the program runs it: resolve every line against the catalog, report
 every selection the menu never permitted, then everything out of stock, then
 price what is left. Each pass is a loop, proved against `Pricing`.
 */
module PricingPasses {
  import opened Wrappers
  import opened Sums
  import opened Pricing
  import Vat

  datatype Violation =
    | DuplicateOption(itemIndex: nat, optionIds: seq<string>)
    | UnknownOption(itemIndex: nat, optionIds: seq<string>)
    | MinSelect(itemIndex: nat, groupId: string, groupName: string, selected: nat, minSelect: int, maxSelect: int)
    | MaxSelect(itemIndex: nat, groupId: string, groupName: string, selected: nat, minSelect: int, maxSelect: int)

  datatype Refusal =
    | OptionSelectionInvalid(violations: seq<Violation>)
    | OrderItemUnavailable(itemIds: seq<string>, optionIds: seq<string>)

  /** A requested line with what the catalog knows of it; no item if its id is unknown. */
  datatype ResolvedLine = ResolvedLine(line: RequestedItem, item: Option<CatalogItem>, options: seq<Attached>,
                                       unknownOptionIds: seq<string>, duplicateOptionIds: seq<string>)

  // ----- What each pass reports -----

  /** Ids named more than once, in the order their repetition is met. */
  function RepeatedIds(ids: seq<string>): seq<string> {
    if ids == [] then [] else
      var init, id := ids[..|ids| - 1], ids[|ids| - 1];
      if id in init && id !in RepeatedIds(init) then RepeatedIds(init) + [id] else RepeatedIds(init)
  }

  /** First mentions, split by whether the item offers the option. */
  function FirstMentions(ids: seq<string>, attached: map<string, Attached>, offered: bool): seq<string> {
    if ids == [] then [] else
      var init, id := ids[..|ids| - 1], ids[|ids| - 1];
      var rest := FirstMentions(init, attached, offered);
      if id !in init && (id in attached <==> offered) then rest + [id] else rest
  }

  function LookUp(ids: seq<string>, attached: map<string, Attached>): seq<Attached>
    requires forall i :: 0 <= i < |ids| ==> ids[i] in attached
  {
    seq(|ids|, i requires 0 <= i < |ids| => attached[ids[i]])
  }

  function Offered(ids: seq<string>, attached: map<string, Attached>): seq<Attached>
  {
    MentionsAre(ids, attached, true);
    LookUp(FirstMentions(ids, attached, true), attached)
  }

  function AttachedTo(item: Option<CatalogItem>): map<string, Attached> {
    if item.Some? then AttachedIn(item.value.optionGroups) else map[]
  }

  function Find(menuItemId: string, catalog: Catalog): Option<CatalogItem> {
    if menuItemId in catalog then Some(catalog[menuItemId]) else None
  }

  function Resolve(line: RequestedItem, catalog: Catalog): ResolvedLine {
    var item := Find(line.menuItemId, catalog);
    var attached := AttachedTo(item);
    ResolvedLine(line, item, Offered(line.optionIds, attached),
                 FirstMentions(line.optionIds, attached, false), RepeatedIds(line.optionIds))
  }

  function SelectedIn(options: seq<Attached>, groupId: string): nat {
    if options == [] then 0 else
      SelectedIn(options[..|options| - 1], groupId) + if options[|options| - 1].group.id == groupId then 1 else 0
  }

  function BoundViolation(index: nat, group: OptionGroup, selected: nat): seq<Violation> {
    if group.minSelect <= selected <= group.maxSelect then []
    else if selected < group.minSelect then
      [MinSelect(index, group.id, group.name, selected, group.minSelect, group.maxSelect)]
    else [MaxSelect(index, group.id, group.name, selected, group.minSelect, group.maxSelect)]
  }

  function BoundViolations(index: nat, groups: seq<OptionGroup>, options: seq<Attached>): seq<Violation> {
    if groups == [] then [] else
      var g := groups[|groups| - 1];
      BoundViolations(index, groups[..|groups| - 1], options) + BoundViolation(index, g, SelectedIn(options, g.id))
  }

  function IdViolations(index: nat, line: ResolvedLine): seq<Violation> {
    (if line.duplicateOptionIds != [] then [DuplicateOption(index, line.duplicateOptionIds)] else [])
    + (if line.unknownOptionIds != [] then [UnknownOption(index, line.unknownOptionIds)] else [])
  }

  /** A line with an id the item does not offer, or named twice, reports no bounds. */
  function LineViolations(index: nat, line: ResolvedLine): seq<Violation> {
    if line.item.None? then []
    else if IdViolations(index, line) != [] then IdViolations(index, line)
    else BoundViolations(index, line.item.value.optionGroups, line.options)
  }

  function ResolvedLines(requested: seq<RequestedItem>, catalog: Catalog): seq<ResolvedLine> {
    seq(|requested|, i requires 0 <= i < |requested| => Resolve(requested[i], catalog))
  }

  /** What each line has to complain of, by its index. */
  function Complaints(resolved: seq<ResolvedLine>): seq<seq<Violation>> {
    seq(|resolved|, i requires 0 <= i < |resolved| => LineViolations(i, resolved[i]))
  }

  function Violations(resolved: seq<ResolvedLine>): seq<Violation> {
    Flat(Complaints(resolved))
  }

  function AllViolations(requested: seq<RequestedItem>, catalog: Catalog): seq<Violation> {
    Violations(ResolvedLines(requested, catalog))
  }

  function AddTo(ids: seq<string>, id: string): seq<string> {
    if id in ids then ids else ids + [id]
  }

  predicate LineMissing(line: ResolvedLine) {
    line.item.None? || !line.item.value.isAvailable
  }

  function MissingItems(resolved: seq<ResolvedLine>): seq<string> {
    if resolved == [] then [] else
      var line, rest := resolved[|resolved| - 1], MissingItems(resolved[..|resolved| - 1]);
      if LineMissing(line) then AddTo(rest, line.line.menuItemId) else rest
  }

  function OutOfStockIn(options: seq<Attached>, found: seq<string>): seq<string> {
    if options == [] then found else
      var o := options[|options| - 1].option;
      var rest := OutOfStockIn(options[..|options| - 1], found);
      if o.isAvailable then rest else AddTo(rest, o.id)
  }

  function MissingOptions(resolved: seq<ResolvedLine>): seq<string> {
    if resolved == [] then [] else
      OutOfStockIn(resolved[|resolved| - 1].options, MissingOptions(resolved[..|resolved| - 1]))
  }

  function OutOfStockItems(requested: seq<RequestedItem>, catalog: Catalog): seq<string> {
    MissingItems(ResolvedLines(requested, catalog))
  }

  function OutOfStockOptions(requested: seq<RequestedItem>, catalog: Catalog): seq<string> {
    MissingOptions(ResolvedLines(requested, catalog))
  }

  // ----- What the reports mean -----

  lemma {:induction false} RepeatedAre(ids: seq<string>)
    ensures Distinct(RepeatedIds(ids))
    ensures forall id :: id in RepeatedIds(ids) <==> multiset(ids)[id] >= 2
    ensures RepeatedIds(ids) == [] <==> Distinct(ids)
  {
    if ids != [] {
      var init, last := ids[..|ids| - 1], ids[|ids| - 1];
      RepeatedAre(init);
      assert ids == init + [last];
      assert forall id :: id in init <==> multiset(init)[id] >= 1;
    }
    DistinctIsMultiplicityOne(ids);
    assert RepeatedIds(ids) != [] ==> RepeatedIds(ids)[0] in RepeatedIds(ids);
    if !Distinct(ids) {
      var id :| id in ids && multiset(ids)[id] != 1;
      assert multiset(ids)[id] >= 2;
    }
  }

  lemma {:induction false} MentionsAre(ids: seq<string>, attached: map<string, Attached>, offered: bool)
    ensures Distinct(FirstMentions(ids, attached, offered))
    ensures forall id :: id in FirstMentions(ids, attached, offered) <==> id in ids && (id in attached <==> offered)
    ensures offered ==> forall i :: 0 <= i < |FirstMentions(ids, attached, true)| ==> FirstMentions(ids, attached, true)[i] in attached
  {
    if ids != [] {
      MentionsAre(ids[..|ids| - 1], attached, offered);
      assert ids == ids[..|ids| - 1] + [ids[|ids| - 1]];
      var f := FirstMentions(ids, attached, offered);
      if offered {
        forall i | 0 <= i < |f| ensures f[i] in attached {
          assert f[i] in f;
        }
      }
    }
  }

  /** When every id is distinct and offered, nothing is dropped and nothing is reordered. */
  lemma {:induction false} MentionsOfCleanLine(ids: seq<string>, attached: map<string, Attached>)
    requires Distinct(ids) && forall id :: id in ids ==> id in attached
    ensures FirstMentions(ids, attached, true) == ids
  {
    if ids != [] {
      var init := ids[..|ids| - 1];
      assert forall id :: id in init ==> id in ids;
      MentionsOfCleanLine(init, attached);
      assert ids == init + [ids[|ids| - 1]];
    }
  }

  /** Counting the resolved options of a group counts the distinct ids picked from it. */
  lemma {:induction false} SelectedIsPicked(ids: seq<string>, attached: map<string, Attached>, groupId: string)
    requires Distinct(ids) && forall i :: 0 <= i < |ids| ==> ids[i] in attached
    ensures SelectedIn(LookUp(ids, attached), groupId) == |PickedFrom(ids, attached, groupId)|
  {
    if ids == [] {
      assert PickedFrom(ids, attached, groupId) == {};
    } else {
      var init, last := ids[..|ids| - 1], ids[|ids| - 1];
      SelectedIsPicked(init, attached, groupId);
      assert LookUp(ids, attached)[..|ids| - 1] == LookUp(init, attached);
      PickedOneMore(init, last, attached, groupId);
      assert ids == init + [last];
    }
  }

  lemma PickedOneMore(init: seq<string>, last: string, attached: map<string, Attached>, groupId: string)
    requires last !in init && last in attached
    ensures |PickedFrom(init + [last], attached, groupId)| ==
            |PickedFrom(init, attached, groupId)| + if attached[last].group.id == groupId then 1 else 0
  {
    assert PickedFrom(init + [last], attached, groupId) ==
           PickedFrom(init, attached, groupId) + if attached[last].group.id == groupId then {last} else {};
  }

  lemma {:induction false} BoundViolationsEmpty(index: nat, groups: seq<OptionGroup>, options: seq<Attached>)
    ensures BoundViolations(index, groups, options) == [] <==>
            forall g :: g in groups ==> g.minSelect <= SelectedIn(options, g.id) <= g.maxSelect
  {
    if groups != [] {
      BoundViolationsEmpty(index, groups[..|groups| - 1], options);
      assert groups == groups[..|groups| - 1] + [groups[|groups| - 1]];
    }
  }

  /** A known line reports nothing exactly when the menu permits its selection. */
  lemma LineViolationsEmpty(index: nat, line: RequestedItem, catalog: Catalog)
    requires line.menuItemId in catalog
    ensures LineViolations(index, Resolve(line, catalog)) == [] <==> ShapeOk(line.optionIds, catalog[line.menuItemId])
  {
    var item := catalog[line.menuItemId];
    var ids, attached := line.optionIds, AttachedIn(item.optionGroups);
    RepeatedAre(ids);
    UnknownEmpty(ids, attached);
    if Distinct(ids) && forall id :: id in ids ==> id in attached {
      BoundsOfCleanLine(index, ids, item);
    }
  }

  lemma UnknownEmpty(ids: seq<string>, attached: map<string, Attached>)
    ensures FirstMentions(ids, attached, false) == [] <==> forall id :: id in ids ==> id in attached
  {
    MentionsAre(ids, attached, false);
    var unknown := FirstMentions(ids, attached, false);
    if unknown != [] {
      assert unknown[0] in unknown;
    }
  }

  /** On a line whose ids are distinct and offered, the bounds are the menu's bounds. */
  lemma BoundsOfCleanLine(index: nat, ids: seq<string>, item: CatalogItem)
    requires Distinct(ids) && forall id :: id in ids ==> id in AttachedIn(item.optionGroups)
    ensures BoundViolations(index, item.optionGroups, Offered(ids, AttachedIn(item.optionGroups))) == [] <==>
            forall g :: g in item.optionGroups ==> WithinBounds(ids, AttachedIn(item.optionGroups), g)
  {
    var attached := AttachedIn(item.optionGroups);
    MentionsOfCleanLine(ids, attached);
    forall g | g in item.optionGroups
      ensures SelectedIn(Offered(ids, attached), g.id) == |PickedFrom(ids, attached, g.id)|
    {
      SelectedIsPicked(ids, attached, g.id);
    }
    BoundViolationsEmpty(index, item.optionGroups, Offered(ids, attached));
  }

  predicate KnownShapesOk(requested: seq<RequestedItem>, catalog: Catalog) {
    forall i :: 0 <= i < |requested| ==> KnownShapeOk(requested[i], catalog)
  }

  predicate KnownShapeOk(line: RequestedItem, catalog: Catalog) {
    line.menuItemId in catalog ==> ShapeOk(line.optionIds, catalog[line.menuItemId])
  }

  lemma LineViolationsEmptyIff(index: nat, line: RequestedItem, catalog: Catalog)
    ensures LineViolations(index, Resolve(line, catalog)) == [] <==> KnownShapeOk(line, catalog)
  {
    if line.menuItemId in catalog {
      LineViolationsEmpty(index, line, catalog);
    }
  }

  lemma AllViolationsEmpty(requested: seq<RequestedItem>, catalog: Catalog)
    ensures AllViolations(requested, catalog) == [] <==> KnownShapesOk(requested, catalog)
  {
    var complaints := Complaints(ResolvedLines(requested, catalog));
    FlatEmpty(complaints);
    forall i | 0 <= i < |requested| ensures complaints[i] == [] <==> KnownShapeOk(requested[i], catalog) {
      LineViolationsEmptyIff(i, requested[i], catalog);
    }
  }

  /** Every line's complaints reach the report, under that line's index. */
  lemma EveryViolationReported(requested: seq<RequestedItem>, catalog: Catalog, v: Violation)
    ensures v in AllViolations(requested, catalog) <==>
            exists i: nat :: i < |requested| && v in LineViolations(i, Resolve(requested[i], catalog))
  {
    var complaints := Complaints(ResolvedLines(requested, catalog));
    FlatHas(complaints, v);
    assert forall i: nat :: i < |requested| ==> complaints[i] == LineViolations(i, Resolve(requested[i], catalog));
  }

  predicate ItemMissing(line: RequestedItem, catalog: Catalog) {
    line.menuItemId !in catalog || !catalog[line.menuItemId].isAvailable
  }

  predicate OptionMissing(line: RequestedItem, catalog: Catalog, id: string) {
    && line.menuItemId in catalog
    && id in line.optionIds
    && var attached := AttachedIn(catalog[line.menuItemId].optionGroups);
       id in attached && !attached[id].option.isAvailable
  }

  lemma {:induction false} MissingItemsAre(resolved: seq<ResolvedLine>, id: string)
    ensures Distinct(MissingItems(resolved))
    ensures id in MissingItems(resolved) <==> exists i :: 0 <= i < |resolved| && resolved[i].line.menuItemId == id && LineMissing(resolved[i])
  {
    if resolved != [] {
      var n := |resolved| - 1;
      MissingItemsAre(resolved[..n], id);
      assert forall i :: 0 <= i < n ==> resolved[..n][i] == resolved[i];
    }
  }

  /** Every unknown or sold-out item is named, once. */
  lemma OutOfStockItemsAre(requested: seq<RequestedItem>, catalog: Catalog, id: string)
    ensures Distinct(OutOfStockItems(requested, catalog))
    ensures id in OutOfStockItems(requested, catalog) <==>
            exists i :: 0 <= i < |requested| && requested[i].menuItemId == id && ItemMissing(requested[i], catalog)
  {
    var resolved := ResolvedLines(requested, catalog);
    MissingItemsAre(resolved, id);
    forall i | 0 <= i < |requested|
      ensures resolved[i].line.menuItemId == requested[i].menuItemId && (LineMissing(resolved[i]) <==> ItemMissing(requested[i], catalog))
    {
    }
  }

  lemma {:induction false} OutOfStockInDistinct(options: seq<Attached>, found: seq<string>)
    requires Distinct(found)
    ensures Distinct(OutOfStockIn(options, found))
  {
    if options != [] {
      OutOfStockInDistinct(options[..|options| - 1], found);
    }
  }

  predicate SoldOut(a: Attached, id: string) {
    a.option.id == id && !a.option.isAvailable
  }

  lemma {:induction false} OutOfStockInIs(options: seq<Attached>, found: seq<string>, id: string)
    ensures id in OutOfStockIn(options, found) <==> id in found || exists i :: 0 <= i < |options| && SoldOut(options[i], id)
  {
    if options != [] {
      var init, n := options[..|options| - 1], |options| - 1;
      OutOfStockInIs(init, found, id);
      if i :| 0 <= i < |init| && SoldOut(init[i], id) {
        assert SoldOut(options[i], id);
      }
      forall i | 0 <= i < n && SoldOut(options[i], id) ensures SoldOut(init[i], id) {
      }
      if SoldOut(options[n], id) {
        assert id in OutOfStockIn(options, found);
      }
    }
  }

  lemma OfferedOutOfStock(line: RequestedItem, catalog: Catalog, id: string)
    ensures var options := Resolve(line, catalog).options;
            (exists i :: 0 <= i < |options| && SoldOut(options[i], id))
            <==> OptionMissing(line, catalog, id)
  {
    var attached := AttachedTo(Find(line.menuItemId, catalog));
    var mentions, options := FirstMentions(line.optionIds, attached, true), Resolve(line, catalog).options;
    MentionsAre(line.optionIds, attached, true);
    forall i | 0 <= i < |options| ensures options[i] == attached[mentions[i]] && options[i].option.id == mentions[i] {
      assert mentions[i] in mentions;
      if line.menuItemId in catalog {
        AttachedScope(catalog[line.menuItemId].optionGroups, mentions[i]);
      }
    }
    if OptionMissing(line, catalog, id) {
      assert id in mentions;
      var i :| 0 <= i < |mentions| && mentions[i] == id;
      assert SoldOut(options[i], id);
    }
    if i :| 0 <= i < |options| && SoldOut(options[i], id) {
      assert mentions[i] in mentions;
    }
  }

  predicate HasSoldOut(line: ResolvedLine, id: string) {
    exists i :: 0 <= i < |line.options| && SoldOut(line.options[i], id)
  }

  lemma {:induction false} MissingOptionsAre(resolved: seq<ResolvedLine>, id: string)
    ensures Distinct(MissingOptions(resolved))
    ensures id in MissingOptions(resolved) <==> exists i :: 0 <= i < |resolved| && HasSoldOut(resolved[i], id)
  {
    if resolved != [] {
      var n := |resolved| - 1;
      MissingOptionsAre(resolved[..n], id);
      OutOfStockInDistinct(resolved[n].options, MissingOptions(resolved[..n]));
      OutOfStockInIs(resolved[n].options, MissingOptions(resolved[..n]), id);
      assert forall i :: 0 <= i < n ==> resolved[..n][i] == resolved[i];
    }
  }

  /** Every sold-out option of a known item is named, once. */
  lemma OutOfStockOptionsAre(requested: seq<RequestedItem>, catalog: Catalog, id: string)
    ensures Distinct(OutOfStockOptions(requested, catalog))
    ensures id in OutOfStockOptions(requested, catalog) <==>
            exists i :: 0 <= i < |requested| && OptionMissing(requested[i], catalog, id)
  {
    var resolved := ResolvedLines(requested, catalog);
    MissingOptionsAre(resolved, id);
    forall i | 0 <= i < |requested| ensures HasSoldOut(resolved[i], id) <==> OptionMissing(requested[i], catalog, id) {
      OfferedOutOfStock(requested[i], catalog, id);
    }
  }

  lemma NothingOutOfStock(requested: seq<RequestedItem>, catalog: Catalog)
    ensures OutOfStockItems(requested, catalog) == [] && OutOfStockOptions(requested, catalog) == [] <==>
            forall i :: 0 <= i < |requested| ==>
              !ItemMissing(requested[i], catalog) && InStock(requested[i].optionIds, catalog[requested[i].menuItemId])
  {
    var items, options := OutOfStockItems(requested, catalog), OutOfStockOptions(requested, catalog);
    if items != [] {
      OutOfStockItemsAre(requested, catalog, items[0]);
      assert items[0] in items;
    } else if options != [] {
      OutOfStockOptionsAre(requested, catalog, options[0]);
      assert options[0] in options;
    } else {
      forall i | 0 <= i < |requested|
        ensures !ItemMissing(requested[i], catalog) && InStock(requested[i].optionIds, catalog[requested[i].menuItemId])
      {
        OutOfStockItemsAre(requested, catalog, requested[i].menuItemId);
        forall id | id in requested[i].optionIds ensures !OptionMissing(requested[i], catalog, id) {
          OutOfStockOptionsAre(requested, catalog, id);
        }
      }
    }
  }

  // ----- The whole decision -----

  /** Shape before stock: a selection the menu never permitted is answered before one that is merely sold out. */
  function Price(requested: seq<RequestedItem>, catalog: Catalog, vatBasisPoints: int): Result<PricedOrder, Refusal>
    requires Vat.ValidRate(vatBasisPoints)
  {
    var violations := AllViolations(requested, catalog);
    if violations != [] then Err(OptionSelectionInvalid(violations)) else
      var items, options := OutOfStockItems(requested, catalog), OutOfStockOptions(requested, catalog);
      if items != [] || options != [] then Err(OrderItemUnavailable(items, options)) else
        AcceptedWhenClean(requested, catalog);
        Ok(Quote(requested, catalog, vatBasisPoints))
  }

  lemma AcceptedWhenClean(requested: seq<RequestedItem>, catalog: Catalog)
    ensures Accepts(requested, catalog) <==>
            AllViolations(requested, catalog) == [] && OutOfStockItems(requested, catalog) == [] && OutOfStockOptions(requested, catalog) == []
  {
    AllViolationsEmpty(requested, catalog);
    NothingOutOfStock(requested, catalog);
    if Accepts(requested, catalog) {
      assert forall i :: 0 <= i < |requested| ==> LineAccepted(requested[i], catalog);
    }
  }

  /**
   A basket is priced if and only if every line is accepted; it is refused for its
   shape if and only if some known item's selection breaks the menu's rules,
   whatever is in stock; and an accepted basket owes the declarative sum.
   */
  lemma PriceDecides(requested: seq<RequestedItem>, catalog: Catalog, vatBasisPoints: int)
    requires Vat.ValidRate(vatBasisPoints)
    ensures var r := Price(requested, catalog, vatBasisPoints);
            && (r.Ok? <==> Accepts(requested, catalog))
            && (r.Err? && r.error.OptionSelectionInvalid? <==> !KnownShapesOk(requested, catalog))
            && (r.Ok? ==> r.value.totalMinor == Amount(requested, catalog))
            && (r.Err? && r.error.OptionSelectionInvalid? ==> r.error.violations == AllViolations(requested, catalog))
            && (r.Err? && r.error.OrderItemUnavailable? ==>
                  r.error.itemIds == OutOfStockItems(requested, catalog) && r.error.optionIds == OutOfStockOptions(requested, catalog))
  {
    AcceptedWhenClean(requested, catalog);
    AllViolationsEmpty(requested, catalog);
  }

  // ----- The passes -----

  method AttachOptions(groups: seq<OptionGroup>) returns (attached: map<string, Attached>)
    ensures attached == AttachedIn(groups)
  {
    attached := map[];
    for g := 0 to |groups|
      invariant attached == AttachedIn(groups[..g])
    {
      var group, before := groups[g], attached;
      for o := 0 to |group.options|
        invariant attached == before + AttachedFrom(group, group.options[..o])
      {
        assert group.options[..o + 1][..o] == group.options[..o];
        attached := attached[group.options[o].id := Attached(group.options[o], group)];
      }
      assert group.options[..|group.options|] == group.options;
      assert groups[..g + 1][..g] == groups[..g];
    }
    assert groups[..|groups|] == groups;
  }

  /** What one more id adds to each list. */
  lemma OneMoreId(init: seq<string>, id: string, attached: map<string, Attached>)
    ensures RepeatedIds(init + [id]) == if id in init && id !in RepeatedIds(init) then RepeatedIds(init) + [id] else RepeatedIds(init)
    ensures FirstMentions(init + [id], attached, false) == FirstMentions(init, attached, false) + if id !in init && id !in attached then [id] else []
    ensures Offered(init + [id], attached) == Offered(init, attached) + if id !in init && id in attached then [attached[id]] else []
  {
    assert (init + [id])[..|init|] == init;
    MentionsAre(init, attached, true);
    MentionsAre(init + [id], attached, true);
    var before, after := FirstMentions(init, attached, true), FirstMentions(init + [id], attached, true);
    assert after == before + if id !in init && id in attached then [id] else [];
  }

  method ResolveLine(line: RequestedItem, catalog: Catalog) returns (r: ResolvedLine)
    ensures r == Resolve(line, catalog)
  {
    var item := if line.menuItemId in catalog then Some(catalog[line.menuItemId]) else None;
    var attached: map<string, Attached> := map[];
    if item.Some? {
      attached := AttachOptions(item.value.optionGroups);
    }
    var options, unknown, duplicates := SortOut(line.optionIds, attached);
    r := ResolvedLine(line, item, options, unknown, duplicates);
  }

  method SortOut(ids: seq<string>, attached: map<string, Attached>) returns (options: seq<Attached>, unknown: seq<string>, duplicates: seq<string>)
    ensures options == Offered(ids, attached) && unknown == FirstMentions(ids, attached, false) && duplicates == RepeatedIds(ids)
  {
    var seen: set<string> := {};
    options, unknown, duplicates := [], [], [];
    for i := 0 to |ids|
      invariant forall id :: id in seen <==> id in ids[..i]
      invariant duplicates == RepeatedIds(ids[..i])
      invariant unknown == FirstMentions(ids[..i], attached, false)
      invariant options == Offered(ids[..i], attached)
    {
      var id := ids[i];
      assert ids[..i + 1] == ids[..i] + [id];
      OneMoreId(ids[..i], id, attached);
      if id in seen {
        if id !in duplicates {
          duplicates := duplicates + [id];
        }
      } else {
        seen := seen + {id};
        if id !in attached {
          unknown := unknown + [id];
        } else {
          options := options + [attached[id]];
        }
      }
    }
    assert ids[..|ids|] == ids;
  }

  method ValidateSelections(line: ResolvedLine, index: nat) returns (violations: seq<Violation>)
    ensures violations == LineViolations(index, line)
  {
    violations := [];
    if line.item.None? {
      return;
    }
    if |line.duplicateOptionIds| > 0 {
      violations := violations + [DuplicateOption(index, line.duplicateOptionIds)];
    }
    if |line.unknownOptionIds| > 0 {
      violations := violations + [UnknownOption(index, line.unknownOptionIds)];
    }
    if |violations| > 0 {
      return;
    }
    violations := CheckBounds(index, line.item.value.optionGroups, line.options);
  }

  method CountSelected(options: seq<Attached>, groupId: string) returns (selected: nat)
    ensures selected == SelectedIn(options, groupId)
  {
    selected := 0;
    for o := 0 to |options|
      invariant selected == SelectedIn(options[..o], groupId)
    {
      assert options[..o + 1][..o] == options[..o];
      if options[o].group.id == groupId {
        selected := selected + 1;
      }
    }
    assert options[..|options|] == options;
  }

  method CheckBounds(index: nat, groups: seq<OptionGroup>, options: seq<Attached>) returns (violations: seq<Violation>)
    ensures violations == BoundViolations(index, groups, options)
  {
    violations := [];
    for g := 0 to |groups|
      invariant violations == BoundViolations(index, groups[..g], options)
    {
      assert groups[..g + 1][..g] == groups[..g];
      var selected := CountSelected(options, groups[g].id);
      violations := violations + BoundViolation(index, groups[g], selected);
    }
    assert groups[..|groups|] == groups;
  }

  /** The stock pass over the resolved lines. */
  method FindOutOfStock(resolved: seq<ResolvedLine>) returns (itemIds: seq<string>, optionIds: seq<string>)
    ensures itemIds == MissingItems(resolved) && optionIds == MissingOptions(resolved)
  {
    itemIds, optionIds := [], [];
    for i := 0 to |resolved|
      invariant itemIds == MissingItems(resolved[..i]) && optionIds == MissingOptions(resolved[..i])
    {
      assert resolved[..i + 1][..i] == resolved[..i];
      var line := resolved[i];
      if line.item.None? || !line.item.value.isAvailable {
        if line.line.menuItemId !in itemIds {
          itemIds := itemIds + [line.line.menuItemId];
        }
      }
      optionIds := AddSoldOut(line.options, optionIds);
    }
    assert resolved[..|resolved|] == resolved;
  }

  method AddSoldOut(options: seq<Attached>, found: seq<string>) returns (optionIds: seq<string>)
    ensures optionIds == OutOfStockIn(options, found)
  {
    optionIds := found;
    for o := 0 to |options|
      invariant optionIds == OutOfStockIn(options[..o], found)
    {
      assert options[..o + 1][..o] == options[..o];
      var option := options[o].option;
      if !option.isAvailable && option.id !in optionIds {
        optionIds := optionIds + [option.id];
      }
    }
    assert options[..|options|] == options;
  }

  lemma {:induction false} ChosenOfCleanLine(ids: seq<string>, attached: map<string, Attached>)
    requires Distinct(ids) && forall id :: id in ids ==> id in attached
    ensures Chosen(ids, attached) == Offered(ids, attached)
    ensures SumOf(Chosen(ids, attached), OptionDelta()) == Deltas(ids, attached)
  {
    MentionsOfCleanLine(ids, attached);
    assert forall i :: 0 <= i < |ids| ==> ids[i] in ids;
    ChosenIndexed(ids, attached);
    SumZip(Chosen(ids, attached), ids, OptionDelta(), DeltaIn(attached));
  }

  lemma {:induction false} ChosenIndexed(ids: seq<string>, attached: map<string, Attached>)
    requires forall i :: 0 <= i < |ids| ==> ids[i] in attached
    ensures |Chosen(ids, attached)| == |ids|
    ensures forall i :: 0 <= i < |ids| ==> ids[i] in attached && Chosen(ids, attached)[i] == attached[ids[i]]
  {
    if ids != [] {
      ChosenIndexed(ids[..|ids| - 1], attached);
    }
  }

  function OptionDelta(): Attached -> int {
    (a: Attached) => a.option.priceDeltaMinor
  }

  method SumOptions(options: seq<Attached>) returns (deltas: int, priced: seq<PricedOption>)
    ensures deltas == SumOf(options, OptionDelta())
    ensures priced == PricedOptions(options)
  {
    deltas, priced := 0, [];
    for o := 0 to |options|
      invariant deltas == SumOf(options[..o], OptionDelta())
      invariant priced == PricedOptions(options[..o])
    {
      assert options[..o + 1][..o] == options[..o];
      deltas := deltas + options[o].option.priceDeltaMinor;
      priced := priced + [PricedOptionOf(options[o])];
    }
    assert options[..|options|] == options;
  }

  /** The options a clean line resolved to are the ones it chose, and their deltas are its price. */
  lemma UnitIsSum(line: RequestedItem, item: CatalogItem)
    requires ShapeOk(line.optionIds, item)
    ensures var offered := Offered(line.optionIds, AttachedIn(item.optionGroups));
            && Chosen(line.optionIds, AttachedIn(item.optionGroups)) == offered
            && UnitPrice(line, item) == Max(0, item.basePriceMinor + SumOf(offered, OptionDelta()))
  {
    ChosenOfCleanLine(line.optionIds, AttachedIn(item.optionGroups));
  }

  method PriceLine(resolved: ResolvedLine) returns (priced: PricedLine)
    requires resolved.item.Some? && ShapeOk(resolved.line.optionIds, resolved.item.value)
    requires resolved.options == Offered(resolved.line.optionIds, AttachedIn(resolved.item.value.optionGroups))
    ensures priced == QuoteLine(resolved.line, resolved.item.value)
  {
    var line, item := resolved.line, resolved.item.value;
    var deltas, options := SumOptions(resolved.options);
    UnitIsSum(line, item);
    var unit := Max(0, item.basePriceMinor + deltas);
    priced := PricedLine(item.id, item.name, unit, line.quantity, unit * line.quantity, line.notes, options);
    QuoteOf(line, item, unit, options);
  }

  lemma QuoteOf(line: RequestedItem, item: CatalogItem, unit: int, options: seq<PricedOption>)
    requires unit == UnitPrice(line, item) && options == PricedOptions(Chosen(line.optionIds, AttachedIn(item.optionGroups)))
    ensures PricedLine(item.id, item.name, unit, line.quantity, unit * line.quantity, line.notes, options) == QuoteLine(line, item)
  {
  }

  ghost predicate AllResolved(requested: seq<RequestedItem>, catalog: Catalog, resolved: seq<ResolvedLine>) {
    |resolved| == |requested| && forall i {:trigger resolved[i]} :: 0 <= i < |resolved| ==> resolved[i] == Resolve(requested[i], catalog)
  }

  /** Prices one line of an accepted basket from its resolution. */
  method PriceAt(requested: seq<RequestedItem>, catalog: Catalog, resolved: seq<ResolvedLine>, i: nat) returns (priced: PricedLine)
    requires i < |requested| && Accepts(requested, catalog) && AllResolved(requested, catalog, resolved)
    ensures priced == QuotedLines(requested, catalog)[i]
  {
    assert LineAccepted(requested[i], catalog);
    priced := PriceLine(resolved[i]);
  }

  /** Price the lines of a basket that passed both checks. */
  method PriceLines(requested: seq<RequestedItem>, catalog: Catalog, resolved: seq<ResolvedLine>)
    returns (lines: seq<PricedLine>, subtotal: int)
    requires Accepts(requested, catalog) && AllResolved(requested, catalog, resolved)
    ensures lines == QuotedLines(requested, catalog)
    ensures subtotal == Amount(requested, catalog)
  {
    ghost var quoted := QuotedLines(requested, catalog);
    lines, subtotal := [], 0;
    for i := 0 to |requested|
      invariant lines == quoted[..i]
      invariant subtotal == LinesTotal(quoted[..i])
    {
      var line := PriceAt(requested, catalog, resolved, i);
      assert quoted[..i + 1][..i] == quoted[..i];
      lines := lines + [line];
      subtotal := subtotal + line.lineTotalMinor;
    }
    assert quoted[..|requested|] == quoted;
    QuotedLinesTotal(requested, catalog);
  }

  method ResolveAll(requested: seq<RequestedItem>, catalog: Catalog) returns (resolved: seq<ResolvedLine>)
    ensures resolved == ResolvedLines(requested, catalog)
  {
    resolved := [];
    for i := 0 to |requested|
      invariant resolved == ResolvedLines(requested, catalog)[..i]
    {
      var line := ResolveLine(requested[i], catalog);
      assert line == ResolvedLines(requested, catalog)[i];
      resolved := resolved + [line];
    }
  }

  method CollectViolations(resolved: seq<ResolvedLine>) returns (violations: seq<Violation>)
    ensures violations == Violations(resolved)
  {
    violations := [];
    ghost var all := Complaints(resolved);
    for i := 0 to |resolved|
      invariant violations == Flat(all[..i])
    {
      assert all[..i + 1][..i] == all[..i];
      var complaints := ValidateSelections(resolved[i], i);
      assert complaints == all[i];
      violations := violations + complaints;
    }
    assert all[..|resolved|] == all;
  }

  method PriceOrder(requested: seq<RequestedItem>, catalog: Catalog, vatBasisPoints: int)
    returns (r: Result<PricedOrder, Refusal>)
    requires Vat.ValidRate(vatBasisPoints)
    ensures r == Price(requested, catalog, vatBasisPoints)
  {
    var resolved := ResolveAll(requested, catalog);
    var violations := CollectViolations(resolved);
    if |violations| > 0 {
      return Err(OptionSelectionInvalid(violations));
    }
    var itemIds, optionIds := FindOutOfStock(resolved);
    if |itemIds| > 0 || |optionIds| > 0 {
      return Err(OrderItemUnavailable(itemIds, optionIds));
    }
    AcceptedWhenClean(requested, catalog);
    var lines, subtotal := PriceLines(requested, catalog, resolved);
    r := Ok(PricedOrder(lines, subtotal, Vat.ExtractVat(subtotal, vatBasisPoints), subtotal));
  }
}

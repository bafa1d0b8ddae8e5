/** The thank-you page upsell block: how it finds the shop-level and
    product-level `settings.upsell` metafields, parses them, decides whether
    to show the upsell, which product ids it queries, and when anything
    renders. The storefront query and the price formatting are left out; the
    query's answer is a parameter. */
module ThankYouUpsell {
  import opened Js

  /** One entry of `useAppMetafields()`: the owner's type and the metafield. */
  datatype AppMetafield = AppMetafield(targetType: string, namespace: string, key: string, value: Option<Json>)

  /** The test `find` applies: owner type `targetType`, namespace
      `settings`, key `upsell`. */
  predicate Matches(m: AppMetafield, targetType: string) {
    m.targetType == targetType && m.namespace == "settings" && m.key == "upsell"
  }

  /** `metafields.find(...)?.metafield.value` for the owner type `targetType`:
      the value of the first match, and nothing when no entry matches. */
  function FindUpsellValue(metafields: seq<AppMetafield>, targetType: string): (r: Option<Json>)
    ensures (forall i :: 0 <= i < |metafields| ==> !Matches(metafields[i], targetType)) ==> r.None?
    ensures forall i :: 0 <= i < |metafields| && Matches(metafields[i], targetType)
                        && (forall j :: 0 <= j < i ==> !Matches(metafields[j], targetType))
                        ==> r == metafields[i].value
    ensures r.Some? ==> exists i :: 0 <= i < |metafields| && Matches(metafields[i], targetType)
                                    && metafields[i].value == r
  {
    if |metafields| == 0 then None
    else
      var m := metafields[0];
      if Matches(m, targetType) then
        m.value
      else
        var r := FindUpsellValue(metafields[1..], targetType);
        assert forall i :: 1 <= i < |metafields| ==> metafields[1..][i - 1] == metafields[i];
        r
  }

  /** `parseMetafieldData(data)`: `null` for a falsy value, `JSON.parse` of a
      string (which throws on bad JSON), anything else unchanged. */
  function ParseMetafieldData(data: Option<Json>, js: Primitives): (r: Result<Json>)
    ensures !Truthy(data) ==> r == Ok(JNull)
    ensures Truthy(data) && data.value.JStr? ==>
      (r.Throws? <==> js.jsonParse(data.value.s).None?) && (r.Ok? ==> Some(r.value) == js.jsonParse(data.value.s))
    ensures Truthy(data) && !data.value.JStr? ==> r == Ok(data.value)
  {
    if !Truthy(data) then Ok(JNull)
    else if data.value.JStr? then
      match js.jsonParse(data.value.s)
      case None => Throws
      case Some(v) => Ok(v)
    else Ok(data.value)
  }

  // ------------------------------------------------------------- product ids

  /** The filter `id && id.trim() !== ""`: a falsy id is dropped, a string is
      kept iff it is not blank, and any other truthy value throws (it has no `trim`). */
  function KeepId(id: Json): Result<bool> {
    if !Truthy(Some(id)) then Ok(false)
    else if id.JStr? then Ok(!IsBlank(id.s))
    else Throws
  }

  /** The filtered ids, in order. */
  function FilterIds(items: seq<Json>): (r: Result<seq<string>>)
    ensures r.Ok? ==> |r.value| <= |items|
  {
    if |items| == 0 then Ok([])
    else
      match KeepId(items[0])
      case Throws => Throws
      case Ok(keep) =>
        match FilterIds(items[1..])
        case Throws => Throws
        case Ok(ids) => Ok(if keep then [items[0].s] + ids else ids)
  }

  /** The filter throws iff some id has no `trim`. */
  lemma {:induction false} FilterIdsThrows(items: seq<Json>)
    ensures FilterIds(items).Ok? <==> forall i :: 0 <= i < |items| ==> KeepId(items[i]).Ok?
  {
    if |items| > 0 {
      FilterIdsThrows(items[1..]);
      assert forall i :: 1 <= i < |items| ==> items[1..][i - 1] == items[i];
    }
  }

  /** The filter keeps only non-blank ids. */
  lemma {:induction false} FilterIdsKeeps(items: seq<Json>)
    requires FilterIds(items).Ok?
    ensures forall k :: 0 <= k < |FilterIds(items).value| ==> !IsBlank(FilterIds(items).value[k])
  {
    if |items| > 0 {
      FilterIdsKeeps(items[1..]);
      var ids := FilterIds(items[1..]).value;
      assert FilterIds(items).value == if KeepId(items[0]).value then [items[0].s] + ids else ids;
    }
  }

  /** A non-blank string is kept iff it is one of the ids. */
  lemma {:induction false} FilterIdsMembers(items: seq<Json>)
    requires FilterIds(items).Ok?
    ensures forall s :: !IsBlank(s) ==> (s in FilterIds(items).value <==> JStr(s) in items)
  {
    if |items| > 0 {
      FilterIdsMembers(items[1..]);
      var ids := FilterIds(items[1..]).value;
      var keep := KeepId(items[0]).value;
      var kept := FilterIds(items).value;
      assert kept == if keep then [items[0].s] + ids else ids;
      assert items == [items[0]] + items[1..];
      forall s | !IsBlank(s) ensures s in kept <==> JStr(s) in items {
        assert JStr(s) in items <==> JStr(s) == items[0] || JStr(s) in items[1..];
        if JStr(s) == items[0] {
          assert keep;
        }
      }
    }
  }

  /** `(ids || []).filter(...)`: only an array has `filter`. */
  function ValidIds(ids: Json): (r: Result<seq<string>>)
    ensures !ids.JArr? ==> r.Throws?
    ensures ids.JArr? ==> r == FilterIds(ids.items)
  {
    if ids.JArr? then FilterIds(ids.items) else Throws
  }

  /** One id as it appears in the `nodes(ids: [...])` query. */
  function Quote(id: string): (q: string)
    ensures StartsWith(q, "\"gid://") && q[|q| - 1] == '"'
  {
    "\"" + (if StartsWith(id, "gid://") then id else "gid://shopify/Product/" + id) + "\""
  }

  function QuoteAll(ids: seq<string>): (r: seq<string>)
    ensures |r| == |ids| && forall k :: 0 <= k < |ids| ==> r[k] == Quote(ids[k])
  {
    if |ids| == 0 then [] else [Quote(ids[0])] + QuoteAll(ids[1..])
  }

  /** `formatProductIds(productIds)`. */
  function FormatProductIds(productIds: Option<Json>): (r: Result<string>)
    ensures !Truthy(productIds) || !IsArray(productIds) ==> r == Ok("")
  {
    if !Truthy(productIds) || !IsArray(productIds) then Ok("")
    else
      match FilterIds(productIds.value.items)
      case Throws => Throws
      case Ok(kept) => Ok(Join(QuoteAll(kept), ","))
  }

  lemma QuoteHasNoComma(id: string)
    requires ',' !in id
    ensures ',' !in Quote(id)
  {
    var body := if StartsWith(id, "gid://") then id else "gid://shopify/Product/" + id;
    assert Quote(id) == "\"" + body + "\"";
    assert ',' !in body;
  }

  lemma {:induction false} JoinEmptyIff(xs: seq<string>)
    requires forall k :: 0 <= k < |xs| ==> xs[k] != ""
    ensures Join(xs, ",") == "" <==> |xs| == 0
  {
    if |xs| > 1 {
      assert |Join(xs, ",")| >= |xs[0]|;
    }
  }

  /** The kept ids of a list of comma-free strings are comma-free. */
  lemma KeptHaveNoComma(items: seq<Json>)
    requires forall i :: 0 <= i < |items| ==> items[i].JStr? && ',' !in items[i].s
    ensures FilterIds(items).Ok?
    ensures forall k :: 0 <= k < |FilterIds(items).value| ==> ',' !in QuoteAll(FilterIds(items).value)[k]
  {
    assert forall i :: 0 <= i < |items| ==> KeepId(items[i]).Ok?;
    FilterIdsThrows(items);
    FilterIdsKeeps(items);
    FilterIdsMembers(items);
    var kept := FilterIds(items).value;
    forall k | 0 <= k < |kept| ensures ',' !in QuoteAll(kept)[k] {
      assert JStr(kept[k]) in items;
      var i :| 0 <= i < |items| && items[i] == JStr(kept[k]);
      QuoteHasNoComma(kept[k]);
    }
  }

  /** Every id the query names is a quoted `gid://` id, one per non-blank id
      of the list and in its order; the query is empty exactly when no
      non-blank id remains. */
  lemma FormattedIdsAreGids(items: seq<Json>)
    requires forall i :: 0 <= i < |items| ==> items[i].JStr? && ',' !in items[i].s
    ensures FilterIds(items).Ok? && FormatProductIds(Some(JArr(items))).Ok?
    ensures var kept := FilterIds(items).value;
      var query := FormatProductIds(Some(JArr(items))).value;
      (query == "" <==> |kept| == 0)
      && (|kept| > 0 ==> Split(query, ',') == QuoteAll(kept)
                         && forall k :: 0 <= k < |kept| ==> StartsWith(Split(query, ',')[k], "\"gid://"))
  {
    hide KeepId, IsBlank, Quote;
    KeptHaveNoComma(items);
    var kept := FilterIds(items).value;
    var quoted := QuoteAll(kept);
    JoinEmptyIff(quoted);
    if |items| > 0 && |kept| > 0 {
      assert Truthy(Some(JArr(items)));
      assert FormatProductIds(Some(JArr(items))).value == Join(quoted, ",");
      SplitJoin(quoted, ',');
    }
  }

  // ---------------------------------------------------------- cart matching

  /** `cartProductIds.some((id) => selected.includes(id))`. */
  function SomeSelected(cartProductIds: seq<string>, selected: seq<Json>): (r: bool)
    ensures r <==> exists i :: 0 <= i < |cartProductIds| && JStr(cartProductIds[i]) in selected
  {
    if |cartProductIds| == 0 then false
    else if JStr(cartProductIds[0]) in selected then true
    else
      var r := SomeSelected(cartProductIds[1..], selected);
      assert forall i :: 1 <= i < |cartProductIds| ==> cartProductIds[1..][i - 1] == cartProductIds[i];
      r
  }

  /** `cartContainsSelectedProducts`: false for a missing, non-array or empty
      list; otherwise true iff some cart product id is in the list. */
  function CartContainsSelectedProducts(cartProductIds: seq<string>, selectedProducts: Option<Json>): (r: bool)
    ensures !Truthy(selectedProducts) || !IsArray(selectedProducts) ==> !r
    ensures IsArray(selectedProducts) ==>
      (r <==> |selectedProducts.value.items| > 0
              && exists i :: 0 <= i < |cartProductIds| && JStr(cartProductIds[i]) in selectedProducts.value.items)
  {
    if !Truthy(selectedProducts) || !IsArray(selectedProducts) || |selectedProducts.value.items| == 0 then false
    else SomeSelected(cartProductIds, selectedProducts.value.items)
  }

  // ------------------------------------------------------------ the decision

  /** The offered ids when the upsell shows: `upsellProducts || []`. */
  function OfferedIds(settings: Json): Json {
    OrElse(Get(Some(settings), "upsellProducts"), JArr([]))
  }

  /** Whether the shop-level settings show the upsell: the cart meets the
      selected products, or the selection type is "all". */
  predicate ShopShows(settings: Json, cartProductIds: seq<string>) {
    var selected := Get(Some(settings), "selectedProducts");
    (Truthy(selected) && CartContainsSelectedProducts(cartProductIds, selected))
    || Get(Some(settings), "selectionType") == Some(JStr("all"))
  }

  /** The decision part of `processShopMetafield`, with its two reassigned
      variables. */
  method DecideShopUpsell(upsellSettings: Json, cartProductIds: seq<string>)
    returns (shouldShowUpsell: bool, upsellProductIds: Json)
    ensures shouldShowUpsell <==> ShopShows(upsellSettings, cartProductIds)
    ensures upsellProductIds == if shouldShowUpsell then OfferedIds(upsellSettings) else JArr([])
  {
    shouldShowUpsell := false;
    upsellProductIds := JArr([]);
    var selected := Get(Some(upsellSettings), "selectedProducts");
    if Truthy(selected) {
      shouldShowUpsell := CartContainsSelectedProducts(cartProductIds, selected);
      if shouldShowUpsell {
        upsellProductIds := OrElse(Get(Some(upsellSettings), "upsellProducts"), JArr([]));
      }
    }
    if !shouldShowUpsell && Get(Some(upsellSettings), "selectionType") == Some(JStr("all")) {
      shouldShowUpsell := true;
      upsellProductIds := OrElse(Get(Some(upsellSettings), "upsellProducts"), JArr([]));
    }
  }

  /** What one run of the effect leaves: `showUpsell`, and the ids passed to
      the product query (`[]` when no query is made). */
  datatype Outcome = Outcome(showUpsell: bool, fetched: seq<string>)

  /** The ids fetched once the upsell shows: a throwing filter is caught by
      the effect after `showUpsell` was set, and no query is made. */
  function Fetch(ids: Json): (o: Outcome)
    ensures o.showUpsell
    ensures forall k :: 0 <= k < |o.fetched| ==> !IsBlank(o.fetched[k])
  {
    match ValidIds(ids)
    case Throws => Outcome(true, [])
    case Ok(valid) =>
      FilterIdsKeeps(ids.items);
      Outcome(true, valid)
  }

  /** The shop-level outcome: a falsy setting shows nothing; otherwise the
      upsell shows iff `ShopShows`, and then the offered ids are fetched. */
  function ShopOutcome(settings: Json, cartProductIds: seq<string>): Outcome {
    if !Truthy(Some(settings)) then Outcome(false, [])
    else if ShopShows(settings, cartProductIds) then Fetch(OfferedIds(settings))
    else Outcome(false, [])
  }

  /** `processShopMetafield(upsellSettings)`. */
  method ProcessShopMetafield(upsellSettings: Json, cartProductIds: seq<string>) returns (o: Outcome)
    ensures o == ShopOutcome(upsellSettings, cartProductIds)
  {
    if !Truthy(Some(upsellSettings)) {
      return Outcome(false, []);
    }
    var shouldShowUpsell, upsellProductIds := DecideShopUpsell(upsellSettings, cartProductIds);
    if shouldShowUpsell {
      o := Fetch(upsellProductIds);
    } else {
      o := Outcome(false, []);
    }
  }

  /** `processProductMetafield(upsellProductSettings)`: the upsell always shows. */
  function ProductOutcome(settings: Json): (o: Outcome)
    ensures o.showUpsell
  {
    Fetch(OfferedIds(settings))
  }

  /** `checkAndFetchProducts`: both metafields are parsed first (an exception
      is caught and shows nothing); a product-level setting wins over the shop's. */
  function CheckAndFetch(shopMetafield: Option<Json>, productMetafield: Option<Json>,
                         cartProductIds: seq<string>, js: Primitives): Outcome {
    match ParseMetafieldData(shopMetafield, js)
    case Throws => Outcome(false, [])
    case Ok(upsellSettings) =>
      match ParseMetafieldData(productMetafield, js)
      case Throws => Outcome(false, [])
      case Ok(upsellProductSettings) =>
        if Truthy(Some(upsellProductSettings)) then ProductOutcome(upsellProductSettings)
        else ShopOutcome(upsellSettings, cartProductIds)
  }

  /** A product-level setting decides alone: the cart and the shop setting's
      content do not matter, and the upsell shows. */
  lemma ProductMetafieldTakesPrecedence(shopMetafield: Option<Json>, productMetafield: Option<Json>,
                                        cartProductIds: seq<string>, js: Primitives, settings: Json)
    requires ParseMetafieldData(shopMetafield, js).Ok?
    requires ParseMetafieldData(productMetafield, js) == Ok(settings) && Truthy(Some(settings))
    ensures CheckAndFetch(shopMetafield, productMetafield, cartProductIds, js) == ProductOutcome(settings)
    ensures CheckAndFetch(shopMetafield, productMetafield, cartProductIds, js).showUpsell
  {
  }

  /** Without a product-level setting the shop setting decides; with neither
      nothing shows. */
  lemma ShopMetafieldOtherwise(shopMetafield: Option<Json>, productMetafield: Option<Json>,
                               cartProductIds: seq<string>, js: Primitives)
    requires !Truthy(productMetafield) && ParseMetafieldData(shopMetafield, js).Ok?
    ensures CheckAndFetch(shopMetafield, productMetafield, cartProductIds, js)
      == ShopOutcome(ParseMetafieldData(shopMetafield, js).value, cartProductIds)
    ensures !Truthy(shopMetafield) ==> !CheckAndFetch(shopMetafield, productMetafield, cartProductIds, js).showUpsell
  {
  }

  /** With selection type "all" the shop setting shows the upsell for every
      cart, and the query names exactly the non-blank offered ids. */
  lemma AllSelectionAlwaysShows(settings: map<string, Json>, cartProductIds: seq<string>, offered: seq<Json>)
    requires "selectionType" in settings && settings["selectionType"] == JStr("all")
    requires "upsellProducts" in settings && settings["upsellProducts"] == JArr(offered)
    ensures ShopOutcome(JObj(settings), cartProductIds).showUpsell
    ensures FilterIds(offered).Ok? ==> ShopOutcome(JObj(settings), cartProductIds).fetched == FilterIds(offered).value
  {
  }

  /** Otherwise the upsell shows iff some cart product is selected. */
  lemma SpecificSelectionNeedsMatch(settings: map<string, Json>, cartProductIds: seq<string>, selected: seq<Json>)
    requires !("selectionType" in settings && settings["selectionType"] == JStr("all"))
    requires "selectedProducts" in settings && settings["selectedProducts"] == JArr(selected)
    ensures ShopOutcome(JObj(settings), cartProductIds).showUpsell <==>
      |selected| > 0 && exists i :: 0 <= i < |cartProductIds| && JStr(cartProductIds[i]) in selected
  {
    var s := ShopOutcome(JObj(settings), cartProductIds);
    if CartContainsSelectedProducts(cartProductIds, Some(JArr(selected))) {
      assert s.showUpsell;
    }
  }

  // ---------------------------------------------------------------- render

  /** The products the block holds: the non-null nodes of the query's answer,
      and none when no query was made. */
  function Products(o: Outcome, nodes: seq<Json>): (r: seq<Json>)
    ensures |o.fetched| == 0 ==> r == []
    ensures forall k :: 0 <= k < |r| ==> r[k] != JNull
  {
    if |o.fetched| == 0 then [] else NonNull(nodes)
  }

  /** `nodes.filter((product) => product != null)`. */
  function NonNull(nodes: seq<Json>): (r: seq<Json>)
    ensures forall k :: 0 <= k < |r| ==> r[k] != JNull
    ensures |r| == 0 <==> forall i :: 0 <= i < |nodes| ==> nodes[i] == JNull
  {
    if |nodes| == 0 then []
    else
      var rest := NonNull(nodes[1..]);
      assert forall i :: 1 <= i < |nodes| ==> nodes[1..][i - 1] == nodes[i];
      if nodes[0] == JNull then rest else [nodes[0]] + rest
  }

  /** The guard `!showUpsell || products.length === 0` lets the block
      through: the upsell shows and the product list is non-empty. */
  predicate Renders(o: Outcome, nodes: seq<Json>) {
    o.showUpsell && |Products(o, nodes)| > 0
  }

  /** The render guard passes iff the upsell shows, some non-blank id was
      queried and the answer holds a product. */
  lemma RenderNeedsQueriedProducts(o: Outcome, nodes: seq<Json>)
    ensures Renders(o, nodes) <==>
      o.showUpsell && |o.fetched| > 0 && exists i :: 0 <= i < |nodes| && nodes[i] != JNull
  {
  }

  /** What the block renders: nothing, or one product card per product, in order. */
  datatype Rendered = Nothing | Cards(products: seq<Json>)

  /** The merchant's `layout` setting selects `ColumnLayout`. */
  predicate IsColumn(layout: Option<Json>) {
    layout == Some(JStr("column"))
  }

  /** `ColumnLayout({products})` as written: the unused `productsData` reads
      `products[0].id`, `products[1].id` and `products[2].id`, and `.id` of a
      missing element throws; then `products.map` makes one card each. */
  function ColumnLayoutAsWritten(products: seq<Json>): (r: Result<seq<Json>>)
    ensures r.Throws? <==> |products| < 3
    ensures r.Ok? ==> r.value == products
  {
    if |products| < 3 then Throws else Ok(products)
  }

  /** The block's render as written: the guard, then `ColumnLayout` for the
      column layout and the `products.map` list otherwise. */
  function RenderAsWritten(o: Outcome, nodes: seq<Json>, layout: Option<Json>): Result<Rendered> {
    if !Renders(o, nodes) then Ok(Nothing)
    else if IsColumn(layout) then
      match ColumnLayoutAsWritten(Products(o, nodes))
      case Throws => Throws
      case Ok(cards) => Ok(Cards(cards))
    else Ok(Cards(Products(o, nodes)))
  }

  /** As written, the column layout fails exactly when it is given one or two
      products: a block with a single filled upsell slot cannot render. */
  lemma ColumnLayoutThrowsBelowThree(o: Outcome, nodes: seq<Json>, layout: Option<Json>)
    ensures RenderAsWritten(o, nodes, layout).Throws? <==>
      Renders(o, nodes) && IsColumn(layout) && |NonNull(nodes)| < 3
    ensures RenderAsWritten(Outcome(true, ["1"]), [JObj(map[])], Some(JStr("column"))).Throws?
  {
    assert NonNull([JObj(map[])]) == [JObj(map[])] by {
      assert [JObj(map[])][1..] == [];
    }
  }

  /** The render with the unused `productsData` dropped from `ColumnLayout`:
      both layouts show one card per product. */
  function Render(o: Outcome, nodes: seq<Json>, layout: Option<Json>): (r: Rendered)
    ensures r.Cards? <==> Renders(o, nodes)
    ensures r.Cards? ==> r.products == NonNull(nodes) && |r.products| > 0
  {
    if !Renders(o, nodes) then Nothing else Cards(Products(o, nodes))
  }

  /** The corrected render never fails, shows every non-null product of the
      answer for either layout, and agrees with the code as written wherever
      that does not throw. */
  lemma RenderShowsEveryProduct(o: Outcome, nodes: seq<Json>, layout: Option<Json>)
    ensures Render(o, nodes, layout).Cards? <==>
      o.showUpsell && |o.fetched| > 0 && exists i :: 0 <= i < |nodes| && nodes[i] != JNull
    ensures Render(o, nodes, layout) == Render(o, nodes, None)
    ensures RenderAsWritten(o, nodes, layout).Ok? ==> RenderAsWritten(o, nodes, layout).value == Render(o, nodes, layout)
  {
    RenderNeedsQueriedProducts(o, nodes);
  }
}

/** The create/edit upsell page: the editor state built from a stored upsell
    and the transitions its controls make. The resource pickers are inputs:
    `None` is a cancelled picker, `Some(ids)` the picked ids in order. */
module CreateUpsellEditor {
  import opened Js
  import Upsell = ThankYouUpsell

  /** `upsellData`: the lists hold whatever the stored JSON parsed to. */
  datatype State = State(
    upsellName: string,
    selectedProducts: Json,
    selectedCollections: Json,
    selectionType: string,
    upsellProducts: Json)

  /** The stored record as the loader returns it; its lists are JSON text. */
  datatype Details = Details(
    upsellName: Option<string>,
    selectedProducts: Option<string>,
    selectedCollections: Option<string>,
    selectionType: Option<string>,
    upsellProducts: Option<string>)

  /** `safeJsonParse(jsonString, defaultValue)`. */
  function SafeJsonParse(v: Option<Json>, default: Json, js: Primitives): (r: Json)
    ensures !Truthy(v) ==> r == default
    ensures Truthy(v) && !v.value.JStr? ==> r == v.value
    ensures Truthy(v) && v.value.JStr? ==>
      (js.jsonParse(v.value.s).None? ==> r == default) && (js.jsonParse(v.value.s).Some? ==> r == js.jsonParse(v.value.s).value)
  {
    if !Truthy(v) then default
    else if !v.value.JStr? then v.value
    else match js.jsonParse(v.value.s)
      case None => default
      case Some(parsed) => parsed
  }

  /** The editor's reader and the checkout block's reader agree wherever the
      block's does not throw; where it throws, the editor falls back to its
      default. */
  lemma SafeParseMatchesCheckoutParse(v: Option<Json>, default: Json, js: Primitives)
    ensures Truthy(v) && Upsell.ParseMetafieldData(v, js).Ok? ==> SafeJsonParse(v, default, js) == Upsell.ParseMetafieldData(v, js).value
    ensures Upsell.ParseMetafieldData(v, js).Throws? ==> SafeJsonParse(v, default, js) == default
    ensures !Truthy(v) ==> Upsell.ParseMetafieldData(v, js) == Ok(JNull)
  {
  }

  function Text(v: Option<string>): Option<Json> {
    if v.Some? then Some(JStr(v.value)) else None
  }

  /** `v || ""` on an optional string. */
  function StringOr(v: Option<string>, d: string): (r: string)
    ensures v.Some? && v.value != "" ==> r == v.value
    ensures v.None? || v == Some("") ==> r == d
  {
    if v.Some? && v.value != "" then v.value else d
  }

  const EmptySlots := JArr([JStr(""), JStr(""), JStr("")])

  /** The initial `upsellData`: a new upsell without stored details starts
      empty with three blank slots. */
  function InitialState(details: Option<Details>, js: Primitives): (s: State)
    ensures details.None? ==> s == State("", JArr([]), JArr([]), "", EmptySlots)
  {
    if details.None? then State("", JArr([]), JArr([]), "", EmptySlots)
    else
      var d := details.value;
      State(StringOr(d.upsellName, ""),
            SafeJsonParse(Text(d.selectedProducts), JArr([]), js),
            SafeJsonParse(Text(d.selectedCollections), JArr([]), js),
            StringOr(d.selectionType, ""),
            SafeJsonParse(Text(d.upsellProducts), EmptySlots, js))
  }

  /** A stored list that is unreadable JSON starts the editor from the default. */
  lemma UnreadableStoredListsFallBack(d: Details, js: Primitives)
    requires d.selectedProducts.Some? && js.jsonParse(d.selectedProducts.value).None?
    requires d.upsellProducts.Some? && js.jsonParse(d.upsellProducts.value).None?
    ensures InitialState(Some(d), js).selectedProducts == JArr([])
    ensures InitialState(Some(d), js).upsellProducts == EmptySlots
  {
  }

  /** `handleNameChange`. */
  function NameChange(s: State, value: string): (r: State)
    ensures r.upsellName == value
    ensures r.(upsellName := s.upsellName) == s
  {
    s.(upsellName := value)
  }

  /** `handleConditionSelect(type)`. */
  function ConditionSelect(s: State, kind: string): (r: State)
    ensures r.upsellName == s.upsellName && r.upsellProducts == s.upsellProducts
    ensures r.selectionType == (if kind == "all" then "all" else "specific")
  {
    var clear := kind == "all" || kind == "none";
    s.(selectionType := if kind == "all" then "all" else "specific",
       selectedProducts := if clear then JArr([]) else s.selectedProducts,
       selectedCollections := if clear then JArr([]) else s.selectedCollections)
  }

  /** "all" clears both lists; "none" resets to "specific" and clears both;
      any other choice sets "specific" and keeps both. */
  lemma ConditionSelectCases(s: State, kind: string)
    ensures var r := ConditionSelect(s, kind);
      kind == "all" || kind == "none" ==> r.selectedProducts == JArr([]) && r.selectedCollections == JArr([])
    ensures var r := ConditionSelect(s, kind);
      kind != "all" && kind != "none" ==> r.selectedProducts == s.selectedProducts && r.selectedCollections == s.selectedCollections
    ensures ConditionSelect(ConditionSelect(s, kind), kind) == ConditionSelect(s, kind)
  {
  }

  function Ids(ids: seq<string>): (r: Json)
    ensures r.JArr? && |r.items| == |ids|
    ensures forall k :: 0 <= k < |ids| ==> r.items[k] == JStr(ids[k])
  {
    JArr(seq(|ids|, k requires 0 <= k < |ids| => JStr(ids[k])))
  }

  /** The product picker: it is opened with the current selection mapped to
      ids, which throws (and is caught, changing nothing) unless the list is
      an array. A picked list replaces the products, sets "specific" and
      clears the collections. */
  function ProductsPicked(s: State, result: Option<seq<string>>): (r: State)
    ensures !s.selectedProducts.JArr? || result.None? ==> r == s
    ensures s.selectedProducts.JArr? && result.Some? ==>
      r == s.(selectedProducts := Ids(result.value), selectionType := "specific", selectedCollections := JArr([]))
  {
    if !s.selectedProducts.JArr? || result.None? then s
    else s.(selectedProducts := Ids(result.value), selectionType := "specific", selectedCollections := JArr([]))
  }

  /** The collection picker, symmetric to the product picker. */
  function CollectionsPicked(s: State, result: Option<seq<string>>): (r: State)
    ensures !s.selectedCollections.JArr? || result.None? ==> r == s
    ensures s.selectedCollections.JArr? && result.Some? ==>
      r == s.(selectedCollections := Ids(result.value), selectionType := "specific", selectedProducts := JArr([]))
  {
    if !s.selectedCollections.JArr? || result.None? then s
    else s.(selectedCollections := Ids(result.value), selectionType := "specific", selectedProducts := JArr([]))
  }

  /** The lists the listing page and the checkout block treat as chosen. */
  predicate NonEmptyList(v: Json) {
    v.JArr? && |v.items| > 0
  }

  /** At most one kind of trigger is chosen. */
  predicate Exclusive(s: State) {
    !(NonEmptyList(s.selectedProducts) && NonEmptyList(s.selectedCollections))
  }

  /** Every control keeps products and collections exclusive, and a picker
      leaves it so from any state. */
  lemma ControlsKeepExclusive(s: State, kind: string, name: string, result: Option<seq<string>>)
    ensures Exclusive(s) ==> Exclusive(NameChange(s, name)) && Exclusive(ConditionSelect(s, kind))
    ensures result.Some? && s.selectedProducts.JArr? ==> Exclusive(ProductsPicked(s, result))
    ensures result.Some? && s.selectedCollections.JArr? ==> Exclusive(CollectionsPicked(s, result))
    ensures Exclusive(s) ==> Exclusive(ProductsPicked(s, result)) && Exclusive(CollectionsPicked(s, result))
  {
  }

  /** The picker used last decides: picking products after collections
      leaves only the products, and the other way round. */
  lemma LastPickerWins(s: State, products: seq<string>, collections: seq<string>)
    requires s.selectedProducts.JArr? && s.selectedCollections.JArr?
    ensures var r := CollectionsPicked(ProductsPicked(s, Some(products)), Some(collections));
      r.selectedProducts == JArr([]) && r.selectedCollections == Ids(collections) && r.selectionType == "specific"
    ensures var r := ProductsPicked(CollectionsPicked(s, Some(collections)), Some(products));
      r.selectedCollections == JArr([]) && r.selectedProducts == Ids(products) && r.selectionType == "specific"
  {
  }

  /** Choosing "all" after picking products clears them, so a saved
      "all" upsell has no selected products. */
  lemma AllAfterPickClears(s: State, products: seq<string>)
    ensures var r := ConditionSelect(ProductsPicked(s, Some(products)), "all");
      r.selectionType == "all" && r.selectedProducts == JArr([]) && r.selectedCollections == JArr([])
  {
  }

  /** `handleProductSelection(index)`: the first picked product goes into
      slot `index`; a cancelled or empty pick changes nothing, and slots
      that are not an array throw. */
  function SlotPicked(s: State, index: int, result: Option<seq<string>>): (r: Result<State>)
    ensures result.None? || |result.value| == 0 ==> r == Ok(s)
    ensures result.Some? && |result.value| > 0 ==> (r.Ok? <==> s.upsellProducts.JArr?)
    ensures r.Ok? ==> r.value.(upsellProducts := s.upsellProducts) == s
    ensures r.Ok? && result.Some? && |result.value| > 0 ==>
      r.value.upsellProducts.JArr? && |r.value.upsellProducts.items| == |s.upsellProducts.items|
      && forall j :: 0 <= j < |s.upsellProducts.items| ==>
        r.value.upsellProducts.items[j] == if j == index then JStr(result.value[0]) else s.upsellProducts.items[j]
  {
    if result.None? || |result.value| == 0 then Ok(s)
    else if !s.upsellProducts.JArr? then Throws
    else Ok(s.(upsellProducts := JArr(ReplaceAt(s.upsellProducts.items, index, JStr(result.value[0])))))
  }

  /** One slot pick after another. */
  function TwoPicks(s: State, i: int, a: string, j: int, b: string): Result<State> {
    match SlotPicked(s, i, Some([a]))
    case Ok(t) => SlotPicked(t, j, Some([b]))
    case Throws => Throws
  }

  /** Picks into different slots commute, and a second pick into the same
      slot overrides the first. */
  lemma {:induction false} SlotPicksCommute(s: State, i: int, j: int, a: string, b: string)
    requires s.upsellProducts.JArr?
    ensures i != j ==> TwoPicks(s, i, a, j, b) == TwoPicks(s, j, b, i, a)
    ensures TwoPicks(s, i, a, i, b) == SlotPicked(s, i, Some([b]))
  {
    var xs := s.upsellProducts.items;
    var ta := SlotPicked(s, i, Some([a])).value;
    var tb := SlotPicked(s, j, Some([b])).value;
    if i != j {
      var l := ReplaceAt(ta.upsellProducts.items, j, JStr(b));
      var r := ReplaceAt(tb.upsellProducts.items, i, JStr(a));
      assert l == r;
    }
    var l2 := ReplaceAt(ta.upsellProducts.items, i, JStr(b));
    assert l2 == ReplaceAt(xs, i, JStr(b));
  }
}

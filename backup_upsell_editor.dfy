/** The earlier upsell page kept as `app.backup`: checkbox selection instead
    of resource pickers, and an action that only saves the database record. */
module BackupUpsellEditor {
  import opened Js
  import FD = FormData
  import Api = UpsellCreateApi

  /** `upsellData`: here the lists are always arrays of ids. */
  datatype State = State(
    upsellName: string,
    selectedProducts: seq<string>,
    selectedCollections: seq<string>,
    selectionType: string,
    upsellProducts: seq<string>)

  const Initial := State("", [], [], "", ["", "", ""])

  /** `handleSelection(type, id)`: toggles `id` in the product list when the
      type is "product" and in the collection list otherwise. */
  function Selection(s: State, kind: string, id: string): (r: State)
    ensures kind == "product" ==> r == s.(selectedProducts := Toggle(s.selectedProducts, id))
    ensures kind != "product" ==> r == s.(selectedCollections := Toggle(s.selectedCollections, id))
  {
    if kind == "product" then s.(selectedProducts := Toggle(s.selectedProducts, id))
    else s.(selectedCollections := Toggle(s.selectedCollections, id))
  }

  /** The toggled id is in the list afterwards iff it was not before; every
      other id, and the other list, stay as they were. */
  lemma SelectionToggles(s: State, kind: string, id: string)
    ensures var r := Selection(s, kind, id);
      var before := if kind == "product" then s.selectedProducts else s.selectedCollections;
      var after := if kind == "product" then r.selectedProducts else r.selectedCollections;
      (id in after <==> id !in before)
      && (forall y :: y != id ==> (y in after <==> y in before))
      && (kind == "product" ==> r.selectedCollections == s.selectedCollections)
      && (kind != "product" ==> r.selectedProducts == s.selectedProducts)
  {
  }

  /** Selecting an unselected id twice restores the state. */
  lemma SelectionTwiceRestores(s: State, kind: string, id: string)
    requires kind == "product" ==> id !in s.selectedProducts
    requires kind != "product" ==> id !in s.selectedCollections
    ensures Selection(Selection(s, kind, id), kind, id) == s
  {
    if kind == "product" {
      ToggleTwiceRestores(s.selectedProducts, id);
    } else {
      ToggleTwiceRestores(s.selectedCollections, id);
    }
  }

  /** `handleConditionSelect(type)`. */
  function ConditionSelect(s: State, kind: string): (r: State)
    ensures r.upsellName == s.upsellName && r.upsellProducts == s.upsellProducts
  {
    s.(selectionType := if kind == "all" then "all" else "specific",
       selectedProducts := if kind == "product" then s.selectedProducts else [],
       selectedCollections := if kind == "collection" then s.selectedCollections else [])
  }

  /** The products survive iff the choice is "product" (or there were none),
      the collections iff it is "collection", and the type is "all" iff the
      choice is "all". Afterwards at most one list is non-empty. */
  lemma ConditionSelectKeeps(s: State, kind: string)
    ensures var r := ConditionSelect(s, kind);
      (r.selectedProducts == s.selectedProducts <==> kind == "product" || s.selectedProducts == [])
      && (r.selectedCollections == s.selectedCollections <==> kind == "collection" || s.selectedCollections == [])
      && (r.selectionType == "all" <==> kind == "all")
      && (r.selectedProducts == [] || r.selectedCollections == [])
  {
  }

  /** `handleProductSelection(index, productId)`: only that slot changes. */
  function ProductSelection(s: State, index: int, productId: string): (r: State)
    ensures r.(upsellProducts := s.upsellProducts) == s
    ensures |r.upsellProducts| == |s.upsellProducts|
    ensures forall j :: 0 <= j < |s.upsellProducts| ==>
      r.upsellProducts[j] == if j == index then productId else s.upsellProducts[j]
  {
    s.(upsellProducts := ReplaceAt(s.upsellProducts, index, productId))
  }

  /** The three slots of a new upsell stay three through any slot choice. */
  lemma SlotsStayThree(index: int, productId: string, s: State)
    requires |s.upsellProducts| == 3
    ensures |ProductSelection(s, index, productId).upsellProducts| == 3
    ensures 0 <= index < 3 ==> ProductSelection(s, index, productId).upsellProducts[index] == productId
  {
  }

  // ------------------------------------------------------------------ action

  /** The settings saved by name. */
  datatype Saved = Saved(upsellName: string, lists: Api.Lists, selectionType: string)

  /** Only "saveUpsellSettings" answers; any other action returns nothing. */
  datatype Response = NoResponse | Failed(reason: Api.Failure) | Upserted(settings: Saved)

  /** `action`: parse the lists, require a name, upsert by that name. */
  function Action(fd: FD.Fields, dbFails: bool, js: Primitives): (r: Response)
    ensures r.Upserted? ==> Some(r.settings.upsellName) == FD.Get(fd, "upsellName") && r.settings.upsellName != ""
    ensures r.Upserted? ==> r.settings.selectionType != ""
  {
    if FD.Get(fd, "action") != Some("saveUpsellSettings") then NoResponse
    else
      match Api.ParseLists(fd, js)
      case None => Failed(Api.ParseError)
      case Some(lists) =>
        var name := FD.Get(fd, "upsellName");
        if name.None? || name.value == "" then Failed(Api.NameRequired)
        else if dbFails then Failed(Api.DatabaseError)
        else Upserted(Saved(name.value, lists, Api.SelectionType(fd)))
  }

  /** A missing name is refused and nothing is saved; a missing selection
      type is saved as "specific". */
  lemma ActionDefaults(fd: FD.Fields, dbFails: bool, js: Primitives)
    requires FD.Get(fd, "action") == Some("saveUpsellSettings") && Api.ParseLists(fd, js).Some?
    ensures FD.Get(fd, "upsellName").None? || FD.Get(fd, "upsellName") == Some("") ==>
      Action(fd, dbFails, js) == Failed(Api.NameRequired)
    ensures Action(fd, dbFails, js).Upserted? && (FD.Get(fd, "selectionType").None? || FD.Get(fd, "selectionType") == Some("")) ==>
      Action(fd, dbFails, js).settings.selectionType == "specific"
  {
  }

  /** On a save, this action fails exactly when the upsell API does, and
      it saves under the name the API upserts by. */
  lemma AgreesWithUpsellApi(fd: FD.Fields, dbFails: bool, shopWriteRejected: bool, js: Primitives)
    requires FD.Get(fd, "action") == Some("saveUpsellSettings")
    ensures var api := Api.ActionOutcome(fd, dbFails, shopWriteRejected, js);
      (Action(fd, dbFails, js).Failed? <==> api.db.None?)
      && (Action(fd, dbFails, js).Upserted? ==> api.db == Some(Api.UpsertByName(Action(fd, dbFails, js).settings.upsellName)))
  {
  }
}

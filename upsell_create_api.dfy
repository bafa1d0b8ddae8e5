/** The `/api/upsell/create` action: which actions it accepts, how it reads
    and checks the settings, whether the database record is updated by id or
    upserted by name, and which owners get the `settings.upsell` metafield the
    thank-you block reads. Database and Admin API calls are records of what
    is written; whether they fail is a parameter. */
module UpsellCreateApi {
  import opened Js
  import FD = FormData
  import Upsell = ThankYouUpsell

  datatype Failure = ParseError | NameRequired | DatabaseError | NoLength | MetafieldRejected

  /** The answer: 400 "Invalid action", 500 with the error, or success. */
  datatype Status = InvalidAction | Failed(reason: Failure) | Succeeded

  datatype DbWrite = UpdateById(upsellId: string) | UpsertByName(upsellName: string)

  /** One `metafieldsSet` call: the owner id and the stored settings. */
  datatype MetafieldWrite = MetafieldWrite(ownerId: Json, value: Json)

  datatype Outcome = Outcome(status: Status, db: Option<DbWrite>, writes: seq<MetafieldWrite>)

  /** `JSON.parse(formData.get(name))`: a missing field parses as "null". */
  function ParseField(v: Option<string>, js: Primitives): Option<Json> {
    js.jsonParse(if v.Some? then v.value else "null")
  }

  function NullableString(v: Option<string>): Json {
    if v.Some? then JStr(v.value) else JNull
  }

  /** `formData.get("selectionType") || "specific"`. */
  function SelectionType(fd: FD.Fields): (t: string)
    ensures FD.Get(fd, "selectionType").None? || FD.Get(fd, "selectionType") == Some("") ==> t == "specific"
    ensures FD.Get(fd, "selectionType").Some? && FD.Get(fd, "selectionType") != Some("") ==> t == FD.Get(fd, "selectionType").value
  {
    match FD.Get(fd, "selectionType")
    case None => "specific"
    case Some(t) => if t == "" then "specific" else t
  }

  /** The three parsed lists, when all parse. */
  datatype Lists = Lists(selectedProducts: Json, selectedCollections: Json, upsellProducts: Json)

  function ParseLists(fd: FD.Fields, js: Primitives): (r: Option<Lists>)
    ensures r.Some? <==> (ParseField(FD.Get(fd, "selectedProducts"), js).Some?
                          && ParseField(FD.Get(fd, "selectedCollections"), js).Some?
                          && ParseField(FD.Get(fd, "upsellProducts"), js).Some?)
  {
    match ParseField(FD.Get(fd, "selectedProducts"), js)
    case None => None
    case Some(p) =>
      match ParseField(FD.Get(fd, "selectedCollections"), js)
      case None => None
      case Some(c) =>
        match ParseField(FD.Get(fd, "upsellProducts"), js)
        case None => None
        case Some(u) => Some(Lists(p, c, u))
  }

  /** The settings document stored in the metafield (`metaData`). */
  function MetaData(fd: FD.Fields, lists: Lists): (m: Json)
    ensures m.JObj?
    ensures Get(Some(m), "selectionType") == Some(JStr(SelectionType(fd)))
    ensures Get(Some(m), "selectedProducts") == Some(lists.selectedProducts)
    ensures Get(Some(m), "upsellProducts") == Some(lists.upsellProducts)
  {
    JObj(map["shopId" := NullableString(FD.Get(fd, "shopId")),
             "upsellName" := NullableString(FD.Get(fd, "upsellName")),
             "selectedProducts" := lists.selectedProducts,
             "selectedCollections" := lists.selectedCollections,
             "upsellProducts" := lists.upsellProducts,
             "selectionType" := JStr(SelectionType(fd))])
  }

  /** `v.length > 0`: `null` has no properties and throws; a value without a
      length compares false. */
  function LengthPositive(v: Json, js: Primitives): Result<bool> {
    match v
    case JNull => Throws
    case JArr(items) => Ok(|items| > 0)
    case JStr(s) => Ok(|s| > 0)
    case JObj(_) => Ok(Gt(ToNumber(Get(Some(v), "length"), js), Some(0.0)))
    case _ => Ok(false)
  }

  /** `v.length == 0`, with loose equality: undefined is not 0. */
  function LengthZero(v: Json, js: Primitives): bool {
    match v
    case JArr(items) => |items| == 0
    case JStr(s) => |s| == 0
    case JObj(_) =>
      var len := Get(Some(v), "length");
      len.Some? && len.value != JNull && ToNumber(len, js) == Some(0.0)
    case _ => false
  }

  /** `for (const productId of productIds)`: an array yields its elements, a
      string its characters; anything else is not iterable. */
  function Iterate(v: Json): Result<seq<Json>> {
    match v
    case JArr(items) => Ok(items)
    case JStr(s) => Ok(seq(|s|, k requires 0 <= k < |s| => JStr([s[k]])))
    case _ => Throws
  }

  /** One write per product, owned by that product, in order. */
  function ProductWrites(productIds: seq<Json>, value: Json): (w: seq<MetafieldWrite>)
    ensures |w| == |productIds|
    ensures forall k :: 0 <= k < |productIds| ==> w[k] == MetafieldWrite(productIds[k], value)
  {
    seq(|productIds|, k requires 0 <= k < |productIds| => MetafieldWrite(productIds[k], value))
  }

  /** Where the database write goes: by id only for an update that names one. */
  function DbTarget(fd: FD.Fields, upsellName: string): DbWrite {
    var upsellId := FD.Get(fd, "upsellId");
    if upsellId.Some? && upsellId.value != "" && FD.Get(fd, "action") == Some("updateUpsellSettings")
    then UpdateById(upsellId.value)
    else UpsertByName(upsellName)
  }

  /** What the action does, after the database write succeeded. */
  function Route(fd: FD.Fields, lists: Lists, db: DbWrite, shopWriteRejected: bool, js: Primitives): (out: Outcome)
    ensures out.status != InvalidAction && out.db == Some(db)
    ensures out.status == Failed(MetafieldRejected) ==> shopWriteRejected
  {
    var meta := MetaData(fd, lists);
    var selectionType := SelectionType(fd);
    match LengthPositive(lists.selectedProducts, js)
    case Throws => Outcome(Failed(NoLength), Some(db), [])
    case Ok(positive) =>
      if positive && selectionType != "all" then
        match Iterate(lists.selectedProducts)
        case Throws => Outcome(Failed(NoLength), Some(db), [])
        case Ok(productIds) => Outcome(Succeeded, Some(db), ProductWrites(productIds, meta))
      else if LengthZero(lists.selectedProducts, js) && selectionType == "all" then
        var write := MetafieldWrite(NullableString(FD.Get(fd, "shopId")), meta);
        Outcome(if shopWriteRejected then Failed(MetafieldRejected) else Succeeded, Some(db), [write])
      else Outcome(Succeeded, Some(db), [])
  }

  /** The whole action. */
  function ActionOutcome(fd: FD.Fields, dbFails: bool, shopWriteRejected: bool, js: Primitives): Outcome {
    var action := FD.Get(fd, "action");
    if action != Some("saveUpsellSettings") && action != Some("updateUpsellSettings") then Outcome(InvalidAction, None, [])
    else
      match ParseLists(fd, js)
      case None => Outcome(Failed(ParseError), None, [])
      case Some(lists) =>
        var upsellName := FD.Get(fd, "upsellName");
        if upsellName.None? || upsellName.value == "" then Outcome(Failed(NameRequired), None, [])
        else if dbFails then Outcome(Failed(DatabaseError), None, [])
        else Route(fd, lists, DbTarget(fd, upsellName.value), shopWriteRejected, js)
  }

  /** The `for…of` loop: one `metafieldsSet` per product id. */
  method WriteProductMetafields(productIds: seq<Json>, metaData: Json) returns (writes: seq<MetafieldWrite>)
    ensures writes == ProductWrites(productIds, metaData)
  {
    writes := [];
    for i := 0 to |productIds|
      invariant writes == ProductWrites(productIds[..i], metaData)
    {
      writes := writes + [MetafieldWrite(productIds[i], metaData)];
    }
    assert productIds[..|productIds|] == productIds;
  }

  /** `action({ request })`, step by step. */
  method Action(fd: FD.Fields, dbFails: bool, shopWriteRejected: bool, js: Primitives) returns (out: Outcome)
    ensures out == ActionOutcome(fd, dbFails, shopWriteRejected, js)
  {
    var action := FD.Get(fd, "action");
    if action != Some("saveUpsellSettings") && action != Some("updateUpsellSettings") {
      return Outcome(InvalidAction, None, []);
    }
    var parsed := ParseLists(fd, js);
    if parsed.None? {
      return Outcome(Failed(ParseError), None, []);
    }
    var settings := parsed.value;
    var upsellName := FD.Get(fd, "upsellName");
    if upsellName.None? || upsellName.value == "" {
      return Outcome(Failed(NameRequired), None, []);
    }
    if dbFails {
      return Outcome(Failed(DatabaseError), None, []);
    }
    var dbSettings := DbTarget(fd, upsellName.value);
    var metaData := MetaData(fd, settings);
    var selectionType := SelectionType(fd);
    var positive := LengthPositive(settings.selectedProducts, js);
    if positive.Throws? {
      return Outcome(Failed(NoLength), Some(dbSettings), []);
    }
    if positive.value && selectionType != "all" {
      var productIds := Iterate(settings.selectedProducts);
      if productIds.Throws? {
        return Outcome(Failed(NoLength), Some(dbSettings), []);
      }
      var writes := WriteProductMetafields(productIds.value, metaData);
      return Outcome(Succeeded, Some(dbSettings), writes);
    }
    if LengthZero(settings.selectedProducts, js) && selectionType == "all" {
      var ownerId := NullableString(FD.Get(fd, "shopId"));
      var write := MetafieldWrite(ownerId, metaData);
      if shopWriteRejected {
        return Outcome(Failed(MetafieldRejected), Some(dbSettings), [write]);
      }
      return Outcome(Succeeded, Some(dbSettings), [write]);
    }
    out := Outcome(Succeeded, Some(dbSettings), []);
  }

  // -------------------------------------------------------------- properties

  /** Any other action is refused with "Invalid action" and nothing is written. */
  lemma OnlyTwoActions(fd: FD.Fields, dbFails: bool, shopWriteRejected: bool, js: Primitives)
    ensures var out := ActionOutcome(fd, dbFails, shopWriteRejected, js);
      out.status == InvalidAction <==>
        FD.Get(fd, "action") != Some("saveUpsellSettings") && FD.Get(fd, "action") != Some("updateUpsellSettings")
    ensures var out := ActionOutcome(fd, dbFails, shopWriteRejected, js);
      out.status == InvalidAction ==> out.db.None? && out.writes == []
  {
  }

  /** A missing or empty name saves nothing. */
  lemma NameRequiredSavesNothing(fd: FD.Fields, dbFails: bool, shopWriteRejected: bool, js: Primitives)
    requires FD.Get(fd, "action") == Some("saveUpsellSettings") || FD.Get(fd, "action") == Some("updateUpsellSettings")
    requires ParseLists(fd, js).Some?
    requires FD.Get(fd, "upsellName").None? || FD.Get(fd, "upsellName") == Some("")
    ensures ActionOutcome(fd, dbFails, shopWriteRejected, js) == Outcome(Failed(NameRequired), None, [])
  {
  }

  /** An update by id happens iff the request names an id and asks for an
      update; any other save is an upsert by name. */
  lemma UpdateByIdIff(fd: FD.Fields, dbFails: bool, shopWriteRejected: bool, js: Primitives)
    requires ActionOutcome(fd, dbFails, shopWriteRejected, js).db.Some?
    ensures var db := ActionOutcome(fd, dbFails, shopWriteRejected, js).db.value;
      (db.UpdateById? <==> FD.Get(fd, "upsellId").Some? && FD.Get(fd, "upsellId") != Some("")
                           && FD.Get(fd, "action") == Some("updateUpsellSettings"))
      && (db.UpsertByName? ==> Some(db.upsellName) == FD.Get(fd, "upsellName"))
  {
  }

  /** The request parses, names an upsell and reaches the routing. */
  predicate Routed(fd: FD.Fields, dbFails: bool, js: Primitives) {
    (FD.Get(fd, "action") == Some("saveUpsellSettings") || FD.Get(fd, "action") == Some("updateUpsellSettings"))
    && ParseLists(fd, js).Some?
    && FD.Get(fd, "upsellName").Some? && FD.Get(fd, "upsellName") != Some("")
    && !dbFails
  }

  /** Past the checks, the outcome is the routing of the parsed lists. */
  lemma RoutedOutcome(fd: FD.Fields, shopWriteRejected: bool, js: Primitives)
    requires Routed(fd, false, js)
    ensures ActionOutcome(fd, false, shopWriteRejected, js)
      == Route(fd, ParseLists(fd, js).value, DbTarget(fd, FD.Get(fd, "upsellName").value), shopWriteRejected, js)
  {
  }

  /** Specific products: exactly one write per selected product, owned by that
      product, and none to the shop. */
  lemma SelectedProductsOwnTheirMetafields(fd: FD.Fields, shopWriteRejected: bool, js: Primitives, items: seq<Json>)
    requires Routed(fd, false, js)
    requires ParseLists(fd, js).value.selectedProducts == JArr(items) && |items| > 0
    requires SelectionType(fd) != "all"
    ensures var out := ActionOutcome(fd, false, shopWriteRejected, js);
      out.status == Succeeded && |out.writes| == |items|
      && forall k :: 0 <= k < |items| ==> out.writes[k] == MetafieldWrite(items[k], MetaData(fd, ParseLists(fd, js).value))
  {
    RoutedOutcome(fd, shopWriteRejected, js);
    var lists := ParseLists(fd, js).value;
    assert LengthPositive(lists.selectedProducts, js) == Ok(true);
    assert Iterate(lists.selectedProducts) == Ok(items);
  }

  /** Type "all" without products: exactly one write, owned by the shop. */
  lemma AllSelectionWritesShop(fd: FD.Fields, shopWriteRejected: bool, js: Primitives)
    requires Routed(fd, false, js)
    requires ParseLists(fd, js).value.selectedProducts == JArr([])
    requires SelectionType(fd) == "all"
    ensures ActionOutcome(fd, false, shopWriteRejected, js).writes
      == [MetafieldWrite(NullableString(FD.Get(fd, "shopId")), MetaData(fd, ParseLists(fd, js).value))]
  {
    RoutedOutcome(fd, shopWriteRejected, js);
    var lists := ParseLists(fd, js).value;
    assert LengthPositive(lists.selectedProducts, js) == Ok(false);
    assert LengthZero(lists.selectedProducts, js);
  }

  /** In every other case (type "all" with products, or no products and a
      specific type, such as collections only) no metafield is written. */
  lemma OtherSelectionsWriteNothing(fd: FD.Fields, shopWriteRejected: bool, js: Primitives, items: seq<Json>)
    requires Routed(fd, false, js)
    requires ParseLists(fd, js).value.selectedProducts == JArr(items)
    requires (|items| > 0 && SelectionType(fd) == "all") || (|items| == 0 && SelectionType(fd) != "all")
    ensures ActionOutcome(fd, false, shopWriteRejected, js) == Outcome(Succeeded, Some(DbTarget(fd, FD.Get(fd, "upsellName").value)), [])
  {
    RoutedOutcome(fd, shopWriteRejected, js);
    var lists := ParseLists(fd, js).value;
    assert LengthPositive(lists.selectedProducts, js) == Ok(|items| > 0);
    assert LengthZero(lists.selectedProducts, js) == (|items| == 0);
  }

  // ------------------------------------------------------ with the checkout

  /** The settings the action writes at the shop make the thank-you block
      show the upsell for every cart, offering the saved upsell products. */
  lemma ShopWriteShowsUpsell(fd: FD.Fields, shopWriteRejected: bool, js: Primitives, cartProductIds: seq<string>)
    requires Routed(fd, false, js)
    requires ParseLists(fd, js).value.selectedProducts == JArr([])
    requires SelectionType(fd) == "all"
    ensures var meta := MetaData(fd, ParseLists(fd, js).value);
      ActionOutcome(fd, false, shopWriteRejected, js).writes == [MetafieldWrite(NullableString(FD.Get(fd, "shopId")), meta)]
      && Upsell.ShopOutcome(meta, cartProductIds).showUpsell
      && Upsell.ShopOutcome(meta, cartProductIds) == Upsell.Fetch(OrElse(Some(ParseLists(fd, js).value.upsellProducts), JArr([])))
  {
    AllSelectionWritesShop(fd, shopWriteRejected, js);
    var lists := ParseLists(fd, js).value;
    var meta := MetaData(fd, lists);
    assert Truthy(Some(meta));
    assert Upsell.ShopShows(meta, cartProductIds);
    assert Upsell.OfferedIds(meta) == OrElse(Some(lists.upsellProducts), JArr([]));
  }

  /** Each product-level write carries the settings document; read back as
      the block's product metafield, it shows the upsell whatever the cart
      and the shop metafield hold. */
  lemma ProductWriteShowsUpsell(fd: FD.Fields, shopWriteRejected: bool, js: Primitives, items: seq<Json>,
                                text: string, shopMetafield: Option<Json>, cartProductIds: seq<string>)
    requires Routed(fd, false, js)
    requires ParseLists(fd, js).value.selectedProducts == JArr(items) && |items| > 0
    requires SelectionType(fd) != "all"
    requires text != "" && js.jsonParse(text) == Some(MetaData(fd, ParseLists(fd, js).value))
    requires Upsell.ParseMetafieldData(shopMetafield, js).Ok?
    ensures forall w :: w in ActionOutcome(fd, false, shopWriteRejected, js).writes ==> w.value == MetaData(fd, ParseLists(fd, js).value)
    ensures Upsell.CheckAndFetch(shopMetafield, Some(JStr(text)), cartProductIds, js).showUpsell
  {
    SelectedProductsOwnTheirMetafields(fd, shopWriteRejected, js, items);
    var meta := MetaData(fd, ParseLists(fd, js).value);
    assert Upsell.ParseMetafieldData(Some(JStr(text)), js) == Ok(meta);
    Upsell.ProductMetafieldTakesPrecedence(shopMetafield, Some(JStr(text)), cartProductIds, js, meta);
  }
}

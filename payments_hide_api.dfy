/** The `/api/payments/hide` action: it reads the hide-payment form, refuses a
    missing shop id and repeated condition types, sorts the conditions into the
    three categories the checkout function reads, and decides whether the
    stored record is updated or created. The Admin API and database calls are
    left out; their outcomes are parameters. */
module PaymentsHideApi {
  import opened Js
  import FD = FormData

  /** The form fields the action reads (`get` for single values, `getAll` for lists). */
  datatype Request = Request(
    id: Option<string>,
    customizeName: Option<string>,
    paymentMethod: Option<string>,
    conditionTypes: seq<string>,
    greaterSmaller: seq<string>,
    cartTotal: Option<string>,
    selectedProducts: seq<string>,
    country: Option<string>)

  /** How the Admin API calls between validation and the database write ended. */
  datatype Platform =
    | PlatformOk
    | FunctionsUnavailable
    | FunctionNotFound
    | CustomizationRejected
    | CustomizationFailed
    | PlatformThrew

  datatype DbWrite = UpdateRecord | CreateRecord

  /** The answers: the first two are status 400, an Admin API failure carries its status. */
  datatype Response =
    | ShopIdRequired
    | DuplicateConditions
    | PlatformError(status: int)
    | Saved(config: Json, write: DbWrite)

  /** The status each failed Admin API step answers with. */
  function PlatformStatus(p: Platform): int {
    match p
    case CustomizationRejected => 400
    case _ => 500
  }

  function Read(fd: FD.Fields): Request {
    Request(FD.Get(fd, "id"), FD.Get(fd, "customizeName"), FD.Get(fd, "paymentMethod"),
      FD.GetAll(fd, "conditionType"), FD.GetAll(fd, "greaterSmaller"), FD.Get(fd, "cartTotal"),
      FD.GetAll(fd, "selectedProducts"), FD.Get(fd, "country"))
  }

  /** A form value as it is stored: the string, or `null` when the field is missing. */
  function NullableString(v: Option<string>): Json {
    if v.Some? then JStr(v.value) else JNull
  }

  /** `Number(cartTotals) || 0`: a missing field reads as `Number(null)`, which is 0;
      NaN becomes 0. */
  function Amount(cartTotal: Option<string>, js: Primitives): real {
    if cartTotal.None? then 0.0
    else
      match js.toNumber(cartTotal.value)
      case None => 0.0
      case Some(x) => x
  }

  /** `selectedProducts[i] ? selectedProducts[i].split(",") : []`: the product
      list of the condition at overall position `i`. */
  function ProductsAt(selectedProducts: seq<string>, i: nat): seq<string> {
    if i < |selectedProducts| && selectedProducts[i] != "" then Split(selectedProducts[i], ',') else []
  }

  function Strings(xs: seq<string>): (r: seq<Json>)
    ensures |r| == |xs| && forall k :: 0 <= k < |xs| ==> r[k] == JStr(xs[k])
  {
    if |xs| == 0 then [] else [JStr(xs[0])] + Strings(xs[1..])
  }

  /** `greaterOrSmall: greaterSmaller[i]`; an undefined value leaves the key out
      of the stored JSON. */
  function Comparison(greaterSmaller: seq<string>, i: nat): map<string, Json> {
    if i < |greaterSmaller| then map["greaterOrSmall" := JStr(greaterSmaller[i])] else map[]
  }

  /** The entry pushed for the condition at position `i`, by its type. */
  function EntryAt(r: Request, i: nat, js: Primitives): Json
    requires i < |r.conditionTypes|
  {
    var kind := r.conditionTypes[i];
    var comparison := Comparison(r.greaterSmaller, i);
    if kind == "product" then JObj(comparison + map["products" := JArr(Strings(ProductsAt(r.selectedProducts, i)))])
    else if kind == "cart_total" then JObj(comparison + map["amount" := JNum(Amount(r.cartTotal, js))])
    else JObj(comparison + map["country" := NullableString(r.country)])
  }

  /** The entries of the first `n` conditions whose type is `kind`, in order. */
  function Categorised(r: Request, kind: string, n: nat, js: Primitives): seq<Json>
    requires n <= |r.conditionTypes|
  {
    if n == 0 then []
    else Categorised(r, kind, n - 1, js) + (if r.conditionTypes[n - 1] == kind then [EntryAt(r, n - 1, js)] else [])
  }

  /** The categorisation loop. */
  method Categorise(r: Request, js: Primitives) returns (cartTotal: seq<Json>, products: seq<Json>, shippingCountry: seq<Json>)
    ensures cartTotal == Categorised(r, "cart_total", |r.conditionTypes|, js)
    ensures products == Categorised(r, "product", |r.conditionTypes|, js)
    ensures shippingCountry == Categorised(r, "shipping_country", |r.conditionTypes|, js)
  {
    cartTotal, products, shippingCountry := [], [], [];
    for i := 0 to |r.conditionTypes|
      invariant cartTotal == Categorised(r, "cart_total", i, js)
      invariant products == Categorised(r, "product", i, js)
      invariant shippingCountry == Categorised(r, "shipping_country", i, js)
    {
      var comparison := Comparison(r.greaterSmaller, i);
      var amount := Amount(r.cartTotal, js);
      var items := ProductsAt(r.selectedProducts, i);
      var country := r.country;
      match r.conditionTypes[i] {
        case "product" =>
          products := products + [JObj(comparison + map["products" := JArr(Strings(items))])];
        case "cart_total" =>
          cartTotal := cartTotal + [JObj(comparison + map["amount" := JNum(amount)])];
        case "shipping_country" =>
          shippingCountry := shippingCountry + [JObj(comparison + map["country" := NullableString(country)])];
        case _ =>
      }
    }
  }

  /** The stored document `{shopId, customizeName, paymentMethod, conditions}`. */
  function Config(r: Request, cartTotal: seq<Json>, products: seq<Json>, shippingCountry: seq<Json>): Json {
    JObj(map[
      "shopId" := NullableString(r.id),
      "customizeName" := NullableString(r.customizeName),
      "paymentMethod" := NullableString(r.paymentMethod),
      "conditions" := JObj(map[
        "cartTotal" := JArr(cartTotal),
        "products" := JArr(products),
        "shippingCountry" := JArr(shippingCountry)])])
  }

  /** The whole action on a form; `recordExists` is what the lookup by
      (shopId, customizeName) found. */
  function Respond(fd: FD.Fields, platform: Platform, recordExists: bool, js: Primitives): Response {
    var r := Read(fd);
    var n := |r.conditionTypes|;
    if r.id.None? || r.id.value == "" then ShopIdRequired
    else if !Distinct(r.conditionTypes) then DuplicateConditions
    else if platform != PlatformOk then PlatformError(PlatformStatus(platform))
    else
      Saved(Config(r, Categorised(r, "cart_total", n, js), Categorised(r, "product", n, js),
                   Categorised(r, "shipping_country", n, js)),
            if recordExists then UpdateRecord else CreateRecord)
  }

  /** `action({request})`; the duplicate check compares the size of the set of
      types with the number of types. */
  method Action(fd: FD.Fields, platform: Platform, recordExists: bool, js: Primitives) returns (response: Response)
    ensures response == Respond(fd, platform, recordExists, js)
  {
    var r := Read(fd);
    if r.id.None? || r.id.value == "" {
      return ShopIdRequired;
    }
    var uniqueConditions := set t | t in r.conditionTypes;
    DistinctIffSetSize(r.conditionTypes);
    if |uniqueConditions| != |r.conditionTypes| {
      return DuplicateConditions;
    }
    var cartTotal, products, shippingCountry := Categorise(r, js);
    if platform != PlatformOk {
      return PlatformError(PlatformStatus(platform));
    }
    var write := if recordExists then UpdateRecord else CreateRecord;
    response := Saved(Config(r, cartTotal, products, shippingCountry), write);
  }

  // ------------------------------------------------------------ properties

  /** An entry is in a category exactly when it comes from a condition of that type. */
  lemma {:induction false} CategorisedMembers(r: Request, kind: string, n: nat, js: Primitives, e: Json)
    requires n <= |r.conditionTypes|
    ensures e in Categorised(r, kind, n, js) <==>
      exists i :: 0 <= i < n && r.conditionTypes[i] == kind && e == EntryAt(r, i, js)
  {
    if n > 0 {
      CategorisedMembers(r, kind, n - 1, js, e);
    }
  }

  lemma {:induction false} CategorisedEmpty(r: Request, kind: string, n: nat, js: Primitives)
    requires n <= |r.conditionTypes|
    requires forall i :: 0 <= i < n ==> r.conditionTypes[i] != kind
    ensures Categorised(r, kind, n, js) == []
  {
    if n > 0 {
      CategorisedEmpty(r, kind, n - 1, js);
    }
  }

  /** With distinct types every category has at most one entry. */
  lemma {:induction false} AtMostOneEntry(r: Request, kind: string, n: nat, js: Primitives)
    requires n <= |r.conditionTypes| && Distinct(r.conditionTypes)
    ensures |Categorised(r, kind, n, js)| <= 1
  {
    if n > 0 {
      if r.conditionTypes[n - 1] == kind {
        CategorisedEmpty(r, kind, n - 1, js);
      } else {
        AtMostOneEntry(r, kind, n - 1, js);
      }
    }
  }

  /** With distinct types, the category of the condition at position `i` holds
      exactly its entry. */
  lemma {:induction false} CategorisedSingle(r: Request, kind: string, n: nat, i: nat, js: Primitives)
    requires n <= |r.conditionTypes| && Distinct(r.conditionTypes)
    requires i < n && r.conditionTypes[i] == kind
    ensures Categorised(r, kind, n, js) == [EntryAt(r, i, js)]
  {
    if i == n - 1 {
      CategorisedEmpty(r, kind, n - 1, js);
    } else {
      CategorisedSingle(r, kind, n - 1, i, js);
    }
  }

  /** The number of conditions of a type the action knows. */
  function KnownCount(types: seq<string>): nat {
    if |types| == 0 then 0
    else
      var last := if types[|types| - 1] in {"cart_total", "product", "shipping_country"} then 1 else 0;
      KnownCount(types[..|types| - 1]) + last
  }

  /** Every condition of a known type lands in exactly one category; the others are dropped. */
  lemma {:induction false} EachConditionSortedOnce(r: Request, n: nat, js: Primitives)
    requires n <= |r.conditionTypes|
    ensures |Categorised(r, "cart_total", n, js)| + |Categorised(r, "product", n, js)|
      + |Categorised(r, "shipping_country", n, js)| == KnownCount(r.conditionTypes[..n])
  {
    if n > 0 {
      EachConditionSortedOnce(r, n - 1, js);
      assert r.conditionTypes[..n][..n - 1] == r.conditionTypes[..n - 1];
    }
  }

  /** Every cart-total entry carries the one form-wide amount, and every
      shipping-country entry the one form-wide country. */
  lemma {:induction false} SharedAmountAndCountry(r: Request, n: nat, js: Primitives)
    requires n <= |r.conditionTypes|
    ensures forall e :: e in Categorised(r, "cart_total", n, js) ==>
      e.JObj? && "amount" in e.fields && e.fields["amount"] == JNum(Amount(r.cartTotal, js))
    ensures forall e :: e in Categorised(r, "shipping_country", n, js) ==>
      e.JObj? && "country" in e.fields && e.fields["country"] == NullableString(r.country)
  {
    if n > 0 {
      SharedAmountAndCountry(r, n - 1, js);
    }
  }

  /** The products of a product condition come from `selectedProducts` at the
      condition's overall position: with a cart total first and one submitted
      product list, the product condition stores no products. */
  lemma ProductsIndexedByPosition(js: Primitives)
    ensures
      var r := Request(Some("gid://shopify/Shop/1"), Some("rule"), Some("Cash on Delivery"),
        ["cart_total", "product"], ["greater_than", "is"], Some("50"), ["gid://shopify/Product/7"], None);
      Categorised(r, "product", 2, js) == [JObj(map["greaterOrSmall" := JStr("is"), "products" := JArr([])])]
  {
    var r := Request(Some("gid://shopify/Shop/1"), Some("rule"), Some("Cash on Delivery"),
      ["cart_total", "product"], ["greater_than", "is"], Some("50"), ["gid://shopify/Product/7"], None);
    assert Categorised(r, "product", 1, js) == [];
    assert ProductsAt(r.selectedProducts, 1) == [];
    assert Comparison(r.greaterSmaller, 1) == map["greaterOrSmall" := JStr("is")];
    assert map["greaterOrSmall" := JStr("is")] + map["products" := JArr([])]
        == map["greaterOrSmall" := JStr("is"), "products" := JArr([])];
  }

  /** A response saves iff the shop id is present and the condition types are
      distinct and the platform calls succeeded; it then updates exactly when a
      record with the same shop and name exists. */
  lemma SavedIff(fd: FD.Fields, platform: Platform, recordExists: bool, js: Primitives)
    ensures var r := Read(fd);
      Respond(fd, platform, recordExists, js).Saved? <==>
        Truthy(Some(NullableString(r.id))) && Distinct(r.conditionTypes) && platform == PlatformOk
    ensures Respond(fd, platform, recordExists, js).Saved? ==>
      (Respond(fd, platform, recordExists, js).write == UpdateRecord <==> recordExists)
    ensures FD.Get(fd, "id").None? || FD.Get(fd, "id") == Some("") ==> Respond(fd, platform, recordExists, js) == ShopIdRequired
  {
  }
}

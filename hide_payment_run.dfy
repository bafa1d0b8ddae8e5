/** The payment customization that hides the cash-on-delivery method. Its
    configuration is the document the hide-payment API stores:
    `{shopId, customizeName, paymentMethod, conditions: {cartTotal, products, shippingCountry}}`,
    each category a list of which only the first entry is read. */
module HidePaymentRun {
  import opened Js
  import opened Checkout

  /** A `hide` operation on one payment method. */
  datatype HideOp = HideOp(paymentMethodId: string)

  const CashOnDelivery := "Cash on Delivery"

  /** `list.includes(x)`: membership in an array (strict equality), substring
      search in a string, and a TypeError on every other value. */
  function Includes(list: Json, x: string): (r: Result<bool>)
    ensures list.JArr? ==> r == Ok(JStr(x) in list.items)
    ensures r.Throws? <==> !list.JArr? && !list.JStr?
  {
    match list
    case JArr(items) => Ok(JStr(x) in items)
    case JStr(s) => Ok(Contains(s, x))
    case _ => Throws
  }

  /** `ids.some(id => list.includes(id))`, stopping at the first hit. */
  function SomeIncluded(ids: seq<string>, list: Json): Result<bool> {
    if |ids| == 0 then Ok(false)
    else
      match Includes(list, ids[0])
      case Throws => Throws
      case Ok(true) => Ok(true)
      case Ok(false) => SomeIncluded(ids[1..], list)
  }

  /** The parent product ids of the cart's product-variant lines, in order. */
  function ProductIds(lines: seq<CartLine>): seq<string> {
    if |lines| == 0 then []
    else if lines[0].merchandise.ProductVariant? then [lines[0].merchandise.product.id] + ProductIds(lines[1..])
    else ProductIds(lines[1..])
  }

  /** The variant ids of the cart's product-variant lines, in order. */
  function VariantIds(lines: seq<CartLine>): seq<string> {
    if |lines| == 0 then []
    else if lines[0].merchandise.ProductVariant? then [lines[0].merchandise.id] + VariantIds(lines[1..])
    else VariantIds(lines[1..])
  }

  /** The first entry of one category: `conditions.<category>?.[0] || {}`. */
  function Entry(conditions: Json, category: string): Json {
    OrElse(First(Get(Some(conditions), category)), JObj(map[]))
  }

  /** `MIN_CART_TOTAL = amount && parseFloat(amount)`, as the comparison then reads it:
      a falsy amount is compared as itself and converts by `Number`. */
  function MinCartTotal(cartEntry: Json, js: Primitives): Option<real> {
    var amount := Get(Some(cartEntry), "amount");
    if Truthy(amount) then ParseFloat(amount, js) else ToNumber(amount, js)
  }

  /** Condition 1. `greater_than` holds when the cart total is at most the
      amount, `less_than` when it is at least the amount. */
  predicate TotalCondition(cartEntry: Json, cartTotal: Option<real>, js: Primitives) {
    var comparison := OrElse(Get(Some(cartEntry), "greaterOrSmall"), JStr("greater_than"));
    if comparison == JStr("greater_than") then Le(cartTotal, MinCartTotal(cartEntry, js))
    else if comparison == JStr("less_than") then Ge(cartTotal, MinCartTotal(cartEntry, js))
    else false
  }

  /** Condition 2. `is` searches the parent product ids, `is_not` the variant ids. */
  function ProductCondition(productEntry: Json, lines: seq<CartLine>): Result<bool> {
    var excluded := OrElse(Get(Some(productEntry), "products"), JArr([]));
    var comparison := OrElse(Get(Some(productEntry), "greaterOrSmall"), JStr("is"));
    if comparison == JStr("is") then SomeIncluded(ProductIds(lines), excluded)
    else if comparison == JStr("is_not") then
      match SomeIncluded(VariantIds(lines), excluded)
      case Throws => Throws
      case Ok(b) => Ok(!b)
    else Ok(false)
  }

  /** `EXCLUDED_COUNTRIES`: the configured country as a one-element list when it is truthy. */
  function ExcludedCountries(countryEntry: Json): seq<Json> {
    var country := Get(Some(countryEntry), "country");
    if Truthy(country) then [country.value] else []
  }

  /** Some delivery group has a non-empty country code that is in the list. */
  predicate ShipsToListed(groups: seq<DeliveryGroup>, countries: seq<Json>) {
    exists k :: 0 <= k < |groups| && groups[k].countryCode.Some? && groups[k].countryCode.value != ""
      && JStr(groups[k].countryCode.value) in countries
  }

  /** Condition 3. */
  predicate CountryCondition(countryEntry: Json, groups: seq<DeliveryGroup>) {
    var comparison := OrElse(Get(Some(countryEntry), "greaterOrSmall"), JStr("is"));
    if comparison == JStr("is") then ShipsToListed(groups, ExcludedCountries(countryEntry))
    else if comparison == JStr("is_not") then !ShipsToListed(groups, ExcludedCountries(countryEntry))
    else false
  }

  /** `paymentMethods.find(method => method.name.includes("Cash on Delivery"))`. */
  function FindCashOnDelivery(methods: seq<PaymentMethod>): (r: Option<PaymentMethod>)
    ensures r.Some? ==>
      exists k :: 0 <= k < |methods| && methods[k] == r.value
        && Contains(r.value.name, CashOnDelivery)
        && forall j :: 0 <= j < k ==> !Contains(methods[j].name, CashOnDelivery)
    ensures r.None? ==> forall k :: 0 <= k < |methods| ==> !Contains(methods[k].name, CashOnDelivery)
  {
    if |methods| == 0 then None
    else if Contains(methods[0].name, CashOnDelivery) then Some(methods[0])
    else
      var r := FindCashOnDelivery(methods[1..]);
      assert forall k :: 1 <= k < |methods| ==> methods[1..][k - 1] == methods[k];
      r
  }

  /** The body of the `try` block on a parsed configuration. */
  function Evaluate(parsed: Json, input: Input, js: Primitives): Result<seq<HideOp>> {
    if parsed == JNull then Throws
    else
      var conditions := OrElse(Get(Some(parsed), "conditions"), JObj(map[]));
      if input.cart.totalAmount.None? then Throws
      else
        var cartTotal := js.parseFloat(input.cart.totalAmount.value);
        var total := TotalCondition(Entry(conditions, "cartTotal"), cartTotal, js);
        match ProductCondition(Entry(conditions, "products"), input.cart.lines)
        case Throws => Throws
        case Ok(product) =>
          var country := CountryCondition(Entry(conditions, "shippingCountry"), input.cart.deliveryGroups);
          if !(total || country || product) then Ok([])
          else
            match FindCashOnDelivery(input.paymentMethods)
            case None => Ok([])
            case Some(m) => Ok([HideOp(m.id)])
  }

  /** `run(input)`: every exception is caught and turns into no operations. */
  function Run(input: Input, js: Primitives): (r: seq<HideOp>)
    ensures |r| <= 1
    ensures MissingConfig(input) ==> r == []
    ensures !MissingConfig(input) && js.jsonParse(input.metafield.value).None? ==> r == []
  {
    if MissingConfig(input) then []
    else
      match js.jsonParse(input.metafield.value)
      case None => []
      case Some(parsed) =>
        match Evaluate(parsed, input, js)
        case Throws => []
        case Ok(ops) => ops
  }

  // ------------------------------------------------------------ properties

  lemma {:induction false} SomeIncludedInArray(ids: seq<string>, items: seq<Json>)
    ensures SomeIncluded(ids, JArr(items)) == Ok(exists k :: 0 <= k < |ids| && JStr(ids[k]) in items)
  {
    if |ids| > 0 {
      SomeIncludedInArray(ids[1..], items);
      assert forall k :: 1 <= k < |ids| ==> ids[1..][k - 1] == ids[k];
    }
  }

  lemma {:induction false} ProductIdsAreParents(lines: seq<CartLine>, id: string)
    ensures id in ProductIds(lines) <==>
      exists k :: 0 <= k < |lines| && lines[k].merchandise.ProductVariant? && lines[k].merchandise.product.id == id
  {
    if |lines| > 0 {
      ProductIdsAreParents(lines[1..], id);
      assert forall k :: 1 <= k < |lines| ==> lines[1..][k - 1] == lines[k];
    }
  }

  lemma {:induction false} VariantIdsAreVariants(lines: seq<CartLine>, id: string)
    ensures id in VariantIds(lines) <==>
      exists k :: 0 <= k < |lines| && lines[k].merchandise.ProductVariant? && lines[k].merchandise.id == id
  {
    if |lines| > 0 {
      VariantIdsAreVariants(lines[1..], id);
      assert forall k :: 1 <= k < |lines| ==> lines[1..][k - 1] == lines[k];
    }
  }

  /** Some product-variant line's parent product id is in `items`. */
  predicate ParentListed(lines: seq<CartLine>, items: seq<Json>) {
    exists k :: 0 <= k < |lines| && lines[k].merchandise.ProductVariant?
      && JStr(lines[k].merchandise.product.id) in items
  }

  /** Some product-variant line's own variant id is in `items`. */
  predicate VariantListed(lines: seq<CartLine>, items: seq<Json>) {
    exists k :: 0 <= k < |lines| && lines[k].merchandise.ProductVariant?
      && JStr(lines[k].merchandise.id) in items
  }

  /** With an array of ids, `is` fires iff some product-variant line's parent
      product is listed, while `is_not` fires iff no line's variant id is listed. */
  lemma ProductConditionIdKinds(productEntry: Json, lines: seq<CartLine>, items: seq<Json>)
    requires Get(Some(productEntry), "products") == Some(JArr(items))
    ensures Get(Some(productEntry), "greaterOrSmall") == Some(JStr("is")) ==>
      ProductCondition(productEntry, lines) == Ok(ParentListed(lines, items))
    ensures Get(Some(productEntry), "greaterOrSmall") == Some(JStr("is_not")) ==>
      ProductCondition(productEntry, lines) == Ok(!VariantListed(lines, items))
  {
    var pids := ProductIds(lines);
    var vids := VariantIds(lines);
    SomeIncludedInArray(pids, items);
    SomeIncludedInArray(vids, items);
    if exists k :: 0 <= k < |pids| && JStr(pids[k]) in items {
      var k :| 0 <= k < |pids| && JStr(pids[k]) in items;
      ProductIdsAreParents(lines, pids[k]);
    }
    if exists k :: 0 <= k < |lines| && lines[k].merchandise.ProductVariant? && JStr(lines[k].merchandise.product.id) in items {
      var k :| 0 <= k < |lines| && lines[k].merchandise.ProductVariant? && JStr(lines[k].merchandise.product.id) in items;
      ProductIdsAreParents(lines, lines[k].merchandise.product.id);
    }
    if exists k :: 0 <= k < |vids| && JStr(vids[k]) in items {
      var k :| 0 <= k < |vids| && JStr(vids[k]) in items;
      VariantIdsAreVariants(lines, vids[k]);
    }
    if exists k :: 0 <= k < |lines| && lines[k].merchandise.ProductVariant? && JStr(lines[k].merchandise.id) in items {
      var k :| 0 <= k < |lines| && lines[k].merchandise.ProductVariant? && JStr(lines[k].merchandise.id) in items;
      VariantIdsAreVariants(lines, lines[k].merchandise.id);
    }
  }

  /** A product listed by its product id is never matched by `is_not`: a cart
      holding a variant of product "p" still counts as "not containing" ["p"]. */
  lemma IsNotIgnoresProductIds()
    ensures
      var entry := JObj(map["greaterOrSmall" := JStr("is_not"), "products" := JArr([JStr("p")])]);
      var lines := [CartLine(1, ProductVariant("v", Product("p", [])))];
      ProductCondition(entry, lines) == Ok(true)
  {
    var entry := JObj(map["greaterOrSmall" := JStr("is_not"), "products" := JArr([JStr("p")])]);
    var lines := [CartLine(1, ProductVariant("v", Product("p", [])))];
    assert VariantIds(lines) == ["v"];
    assert SomeIncluded(["v"][1..], JArr([JStr("p")])) == Ok(false);
  }

  /** The comparator is inverted: `greater_than` fires iff the cart total is at
      most the configured amount, `less_than` iff it is at least the amount. */
  lemma TotalComparatorIsInverted(cartEntry: Json, total: real, amount: real, js: Primitives)
    requires Truthy(Get(Some(cartEntry), "amount"))
    requires ParseFloat(Get(Some(cartEntry), "amount"), js) == Some(amount)
    ensures Get(Some(cartEntry), "greaterOrSmall") == Some(JStr("greater_than")) ==>
      (TotalCondition(cartEntry, Some(total), js) <==> total <= amount)
    ensures Get(Some(cartEntry), "greaterOrSmall") == Some(JStr("less_than")) ==>
      (TotalCondition(cartEntry, Some(total), js) <==> total >= amount)
  {
  }

  /** With no configured amount the cart-total condition never fires. */
  lemma MissingAmountNeverFires(cartEntry: Json, cartTotal: Option<real>, js: Primitives)
    requires Get(Some(cartEntry), "amount").None?
    ensures !TotalCondition(cartEntry, cartTotal, js)
  {
  }

  /** Country `is` compares case-sensitively with the configured country, and
      `is_not` is its negation. */
  lemma CountryConditionIsListMembership(countryEntry: Json, groups: seq<DeliveryGroup>, country: string)
    requires Get(Some(countryEntry), "country") == Some(JStr(country)) && country != ""
    ensures Get(Some(countryEntry), "greaterOrSmall") == Some(JStr("is")) ==>
      (CountryCondition(countryEntry, groups) <==> exists k :: 0 <= k < |groups| && groups[k].countryCode == Some(country))
    ensures Get(Some(countryEntry), "greaterOrSmall") == Some(JStr("is_not")) ==>
      (CountryCondition(countryEntry, groups) <==> !exists k :: 0 <= k < |groups| && groups[k].countryCode == Some(country))
  {
    assert ExcludedCountries(countryEntry) == [JStr(country)];
  }

  /** Only the first entry of each category is read: appending more entries
      to any category list changes nothing. */
  lemma OnlyFirstEntryCounts(conditions: Json, category: string, first: Json, more: seq<Json>)
    requires conditions.JObj?
    ensures Entry(conditions.(fields := conditions.fields[category := JArr([first] + more)]), category)
         == Entry(conditions.(fields := conditions.fields[category := JArr([first])]), category)
  {
  }

  /** Hiding is the OR of the three conditions, and the hidden method is the
      first one named like cash on delivery, whatever `paymentMethod` says. */
  lemma HideIsDisjunction(input: Input, js: Primitives, parsed: Json, conditions: Json, product: bool)
    requires !MissingConfig(input) && js.jsonParse(input.metafield.value) == Some(parsed)
    requires parsed != JNull && input.cart.totalAmount.Some?
    requires conditions == OrElse(Get(Some(parsed), "conditions"), JObj(map[]))
    requires ProductCondition(Entry(conditions, "products"), input.cart.lines) == Ok(product)
    ensures
      var fires :=
        TotalCondition(Entry(conditions, "cartTotal"), js.parseFloat(input.cart.totalAmount.value), js)
        || product || CountryCondition(Entry(conditions, "shippingCountry"), input.cart.deliveryGroups);
      Run(input, js) ==
        if fires && FindCashOnDelivery(input.paymentMethods).Some?
        then [HideOp(FindCashOnDelivery(input.paymentMethods).value.id)] else []
  {
  }

  /** The configured `paymentMethod` plays no part in the decision. */
  lemma PaymentMethodIsIgnored(parsed: Json, input: Input, js: Primitives, other: Json)
    requires parsed.JObj?
    ensures Evaluate(parsed, input, js) == Evaluate(parsed.(fields := parsed.fields["paymentMethod" := other]), input, js)
  {
    var changed := parsed.(fields := parsed.fields["paymentMethod" := other]);
    assert Get(Some(changed), "conditions") == Get(Some(parsed), "conditions");
  }

  /** A malformed product list (neither an array nor a string) makes the run
      throw as soon as a product-variant line is in the cart; the error is
      caught and nothing is hidden, even when another condition holds. */
  lemma MalformedProductsHideNothing(input: Input, js: Primitives, parsed: Json)
    requires !MissingConfig(input) && js.jsonParse(input.metafield.value) == Some(parsed) && parsed != JNull
    requires
      var entry := Entry(OrElse(Get(Some(parsed), "conditions"), JObj(map[])), "products");
      var excluded := OrElse(Get(Some(entry), "products"), JArr([]));
      !excluded.JArr? && !excluded.JStr? &&
      OrElse(Get(Some(entry), "greaterOrSmall"), JStr("is")) == JStr("is")
    requires |input.cart.lines| > 0 && input.cart.lines[0].merchandise.ProductVariant?
    ensures Run(input, js) == []
  {
    assert ProductIds(input.cart.lines)[0] == input.cart.lines[0].merchandise.product.id;
  }
}

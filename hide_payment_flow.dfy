/** The hide-payment pipeline end to end: the editor's form data, what the
    `/api/payments/hide` action reads back from it and stores, and how the
    checkout function reads the stored document. */
module HidePaymentFlow {
  import opened Js
  import FD = FormData
  import Form = HidePaymentForm
  import Api = PaymentsHideApi
  import Run = HidePaymentRun
  import Checkout

  // ------------------------------------------------- what the form submits

  /** The values the first `n` conditions submit under one field name. */
  function Values(cs: seq<Form.PaymentCondition>, n: nat, key: string, js: Primitives): seq<string>
    requires n <= |cs|
  {
    if n == 0 then [] else Values(cs, n - 1, key, js) + FD.GetAll(Form.ConditionFields(cs[n - 1], js), key)
  }

  /** One `conditionType` per condition: the text of its type. */
  function TypeTexts(cs: seq<Form.PaymentCondition>, n: nat, js: Primitives): (r: seq<string>)
    requires n <= |cs|
    ensures |r| == n && forall i :: 0 <= i < n ==> r[i] == ToStr(cs[i].discountType, js)
  {
    if n == 0 then [] else TypeTexts(cs, n - 1, js) + [ToStr(cs[n - 1].discountType, js)]
  }

  /** One `greaterSmaller` per condition: the text of its comparison. */
  function ComparisonTexts(cs: seq<Form.PaymentCondition>, n: nat, js: Primitives): (r: seq<string>)
    requires n <= |cs|
    ensures |r| == n && forall i :: 0 <= i < n ==> r[i] == ToStr(cs[i].greaterOrSmall, js)
  {
    if n == 0 then [] else ComparisonTexts(cs, n - 1, js) + [ToStr(cs[n - 1].greaterOrSmall, js)]
  }

  /** The amount text of every cart-total condition, in order. */
  function AmountTexts(cs: seq<Form.PaymentCondition>, n: nat, js: Primitives): seq<string>
    requires n <= |cs|
  {
    if n == 0 then []
    else
      var c := cs[n - 1];
      AmountTexts(cs, n - 1, js) + (if Form.TypeIs(c, "cart_total") then [js.numberToString(Form.SubmittedAmount(c.amount, js))] else [])
  }

  /** The joined product ids of every product condition, in order. */
  function ProductTexts(cs: seq<Form.PaymentCondition>, n: nat): seq<string>
    requires n <= |cs|
  {
    if n == 0 then []
    else ProductTexts(cs, n - 1) + (if Form.TypeIs(cs[n - 1], "product") then [Join(cs[n - 1].selectedProducts, ",")] else [])
  }

  /** What one condition contributes under each field name. */
  lemma {:induction false} ConditionFieldValues(c: Form.PaymentCondition, js: Primitives)
    ensures FD.GetAll(Form.ConditionFields(c, js), "conditionType") == [ToStr(c.discountType, js)]
    ensures FD.GetAll(Form.ConditionFields(c, js), "greaterSmaller") == [ToStr(c.greaterOrSmall, js)]
    ensures FD.GetAll(Form.ConditionFields(c, js), "cartTotal")
      == if Form.TypeIs(c, "cart_total") then [js.numberToString(Form.SubmittedAmount(c.amount, js))] else []
    ensures FD.GetAll(Form.ConditionFields(c, js), "selectedProducts")
      == if Form.TypeIs(c, "product") then [Join(c.selectedProducts, ",")] else []
  {
    var fields := Form.ConditionFields(c, js);
    var head := fields[..2];
    var tail := fields[2..];
    assert fields == head + tail;
    FD.GetAllConcat(head, tail, "conditionType");
    FD.GetAllConcat(head, tail, "greaterSmaller");
    FD.GetAllConcat(head, tail, "cartTotal");
    FD.GetAllConcat(head, tail, "selectedProducts");
  }

  lemma {:induction false} HeaderFields(id: string, customizeName: string, paymentMethod: string, key: string)
    ensures FD.GetAll(Form.Header(id, customizeName, paymentMethod), key)
      == (if key == "id" then [id] else []) + (if key == "customizeName" then [customizeName] else [])
         + (if key == "paymentMethod" then [paymentMethod] else [])
  {
    var e1, e2, e3 := FD.Entry("id", id), FD.Entry("customizeName", customizeName), FD.Entry("paymentMethod", paymentMethod);
    assert Form.Header(id, customizeName, paymentMethod) == [e1, e2] + [e3];
    assert [e1, e2] == [e1] + [e2];
    assert [e1] == [] + [e1];
    FD.GetAllAppend([], e1, key);
    FD.GetAllAppend([e1], e2, key);
    FD.GetAllAppend([e1, e2], e3, key);
  }

  lemma {:induction false} SubmittedGetAll(id: string, customizeName: string, paymentMethod: string,
                                           cs: seq<Form.PaymentCondition>, n: nat, key: string, js: Primitives)
    requires n <= |cs|
    ensures FD.GetAll(Form.Submitted(id, customizeName, paymentMethod, cs, n, js), key)
      == FD.GetAll(Form.Header(id, customizeName, paymentMethod), key) + Values(cs, n, key, js)
  {
    if n > 0 {
      SubmittedGetAll(id, customizeName, paymentMethod, cs, n - 1, key, js);
      FD.GetAllConcat(Form.Submitted(id, customizeName, paymentMethod, cs, n - 1, js), Form.ConditionFields(cs[n - 1], js), key);
    }
  }

  lemma {:induction false} ValuesByField(cs: seq<Form.PaymentCondition>, n: nat, js: Primitives)
    requires n <= |cs|
    ensures Values(cs, n, "conditionType", js) == TypeTexts(cs, n, js)
    ensures Values(cs, n, "greaterSmaller", js) == ComparisonTexts(cs, n, js)
    ensures Values(cs, n, "cartTotal", js) == AmountTexts(cs, n, js)
    ensures Values(cs, n, "selectedProducts", js) == ProductTexts(cs, n)
  {
    if n > 0 {
      ValuesByField(cs, n - 1, js);
      ConditionFieldValues(cs[n - 1], js);
    }
  }

  /** The round trip through `FormData`: the action reads back the id, name
      and payment method, one type and one comparison per condition, every
      product condition's joined ids, and the first cart-total amount. */
  lemma {:induction false} SubmittedRead(id: string, customizeName: string, paymentMethod: string,
                      cs: seq<Form.PaymentCondition>, js: Primitives)
    ensures var r := Api.Read(Form.Submitted(id, customizeName, paymentMethod, cs, |cs|, js));
      r.id == Some(id) && r.customizeName == Some(customizeName) && r.paymentMethod == Some(paymentMethod)
      && r.conditionTypes == TypeTexts(cs, |cs|, js)
      && r.greaterSmaller == ComparisonTexts(cs, |cs|, js)
      && r.selectedProducts == ProductTexts(cs, |cs|)
      && (r.cartTotal.Some? <==> AmountTexts(cs, |cs|, js) != [])
      && (r.cartTotal.Some? ==> r.cartTotal.value == AmountTexts(cs, |cs|, js)[0])
  {
    var fd := Form.Submitted(id, customizeName, paymentMethod, cs, |cs|, js);
    var header := Form.Header(id, customizeName, paymentMethod);
    ValuesByField(cs, |cs|, js);
    SubmittedGetAll(id, customizeName, paymentMethod, cs, |cs|, "id", js);
    SubmittedGetAll(id, customizeName, paymentMethod, cs, |cs|, "customizeName", js);
    SubmittedGetAll(id, customizeName, paymentMethod, cs, |cs|, "paymentMethod", js);
    SubmittedGetAll(id, customizeName, paymentMethod, cs, |cs|, "conditionType", js);
    SubmittedGetAll(id, customizeName, paymentMethod, cs, |cs|, "greaterSmaller", js);
    SubmittedGetAll(id, customizeName, paymentMethod, cs, |cs|, "selectedProducts", js);
    SubmittedGetAll(id, customizeName, paymentMethod, cs, |cs|, "cartTotal", js);
    HeaderFields(id, customizeName, paymentMethod, "id");
    HeaderFields(id, customizeName, paymentMethod, "customizeName");
    HeaderFields(id, customizeName, paymentMethod, "paymentMethod");
    HeaderFields(id, customizeName, paymentMethod, "conditionType");
    HeaderFields(id, customizeName, paymentMethod, "greaterSmaller");
    HeaderFields(id, customizeName, paymentMethod, "selectedProducts");
    HeaderFields(id, customizeName, paymentMethod, "cartTotal");
  }

  // ---------------------------------------------- unique types, one entry each

  /** Every condition's type is a string, as the type menu sets it. */
  predicate TypesAreStrings(cs: seq<Form.PaymentCondition>) {
    forall j :: 0 <= j < |cs| ==> cs[j].discountType.Some? && cs[j].discountType.value.JStr?
  }

  /** Types the form accepts as distinct are submitted as distinct texts. */
  lemma {:induction false} DistinctTypeTexts(cs: seq<Form.PaymentCondition>, js: Primitives)
    requires TypesAreStrings(cs) && Distinct(Form.Types(cs))
    ensures Distinct(TypeTexts(cs, |cs|, js))
  {
    var texts := TypeTexts(cs, |cs|, js);
    forall a, b | 0 <= a < b < |cs| ensures texts[a] != texts[b] {
      assert Form.Types(cs)[a] != Form.Types(cs)[b];
    }
  }

  /** With distinct types, two positions hold different types. */
  lemma {:induction false} OnlyTypeAt(cs: seq<Form.PaymentCondition>, i: nat, j: nat)
    requires Distinct(Form.Types(cs)) && i < |cs| && j < |cs| && i != j
    ensures cs[j].discountType != cs[i].discountType
  {
    var types := Form.Types(cs);
    if i < j {
      assert types[i] != types[j];
    } else {
      assert types[j] != types[i];
    }
  }

  lemma {:induction false} AmountTextsFirst(cs: seq<Form.PaymentCondition>, n: nat, i: nat, js: Primitives)
    requires i < n <= |cs| && Form.TypeIs(cs[i], "cart_total")
    requires forall j :: 0 <= j < i ==> !Form.TypeIs(cs[j], "cart_total")
    ensures AmountTexts(cs, n, js) != []
    ensures AmountTexts(cs, n, js)[0] == js.numberToString(Form.SubmittedAmount(cs[i].amount, js))
    decreases n
  {
    if n == i + 1 {
      AmountTextsNone(cs, i, js);
    } else {
      AmountTextsFirst(cs, n - 1, i, js);
    }
  }

  lemma {:induction false} AmountTextsNone(cs: seq<Form.PaymentCondition>, n: nat, js: Primitives)
    requires n <= |cs| && forall j :: 0 <= j < n ==> !Form.TypeIs(cs[j], "cart_total")
    ensures AmountTexts(cs, n, js) == []
  {
    if n > 0 {
      AmountTextsNone(cs, n - 1, js);
    }
  }

  lemma {:induction false} ProductTextsSingle(cs: seq<Form.PaymentCondition>, n: nat, i: nat)
    requires i < n <= |cs| && Form.TypeIs(cs[i], "product") && Distinct(Form.Types(cs))
    ensures ProductTexts(cs, n) == [Join(cs[i].selectedProducts, ",")]
  {
    if n == i + 1 {
      ProductTextsNone(cs, i, i);
    } else {
      OnlyTypeAt(cs, i, n - 1);
      ProductTextsSingle(cs, n - 1, i);
    }
  }

  lemma {:induction false} ProductTextsNone(cs: seq<Form.PaymentCondition>, n: nat, i: nat)
    requires n <= i < |cs| && Form.TypeIs(cs[i], "product") && Distinct(Form.Types(cs))
    ensures ProductTexts(cs, n) == []
  {
    if n > 0 {
      OnlyTypeAt(cs, i, n - 1);
      ProductTextsNone(cs, n - 1, i);
    }
  }

  // ------------------------------------------------------- the stored document

  /** The form data `handleSubmit` sends. */
  function Submit(id: string, customizeName: string, paymentMethod: string,
                  cs: seq<Form.PaymentCondition>, js: Primitives): FD.Fields
  {
    Form.Submitted(id, customizeName, paymentMethod, cs, |cs|, js)
  }

  /** `config.conditions || {}`, as the checkout function reads the stored document. */
  function StoredConditions(config: Json): Json {
    OrElse(Get(Some(config), "conditions"), JObj(map[]))
  }

  /** The checkout function reads the first entry of each category of a stored document. */
  lemma {:induction false} StoredEntry(r: Api.Request, cartTotal: seq<Json>, products: seq<Json>, shippingCountry: seq<Json>,
                                       category: string, entry: Json)
    requires entry.JObj?
    requires category == "cartTotal" ==> cartTotal == [entry]
    requires category == "products" ==> products == [entry]
    requires category == "shippingCountry" ==> shippingCountry == [entry]
    requires category in {"cartTotal", "products", "shippingCountry"}
    ensures Run.Entry(StoredConditions(Api.Config(r, cartTotal, products, shippingCountry)), category) == entry
  {
  }

  /** A stored `greater_than` entry with amount `a` holds exactly when the cart total is at most `a`. */
  lemma {:induction false} GreaterThanMeansAtMost(a: real, cartTotal: Option<real>, js: Primitives)
    requires ReadsBackNumber(js, a)
    ensures Run.TotalCondition(JObj(map["greaterOrSmall" := JStr("greater_than"), "amount" := JNum(a)]), cartTotal, js)
      <==> Le(cartTotal, Some(a))
  {
    var entry := JObj(map["greaterOrSmall" := JStr("greater_than"), "amount" := JNum(a)]);
    assert Get(Some(entry), "greaterOrSmall") == Some(JStr("greater_than"));
    assert Get(Some(entry), "amount") == Some(JNum(a));
    assert Run.MinCartTotal(entry, js) == Some(a);
  }

  /** What the action reads back for the one cart-total row. */
  lemma {:induction false} CartRowRead(id: string, customizeName: string, paymentMethod: string,
                                       cs: seq<Form.PaymentCondition>, i: nat, a: real, js: Primitives)
    requires ReadsBackNumber(js, a)
    requires TypesAreStrings(cs) && Distinct(Form.Types(cs))
    requires i < |cs| && Form.TypeIs(cs[i], "cart_total")
    requires cs[i].greaterOrSmall == Some(JStr("greater_than")) && cs[i].amount == Form.Value(JNum(a))
    ensures var r := Api.Read(Submit(id, customizeName, paymentMethod, cs, js));
      Distinct(r.conditionTypes) && i < |r.conditionTypes| && r.conditionTypes[i] == "cart_total"
      && i < |r.greaterSmaller| && r.greaterSmaller[i] == "greater_than"
      && Api.Amount(r.cartTotal, js) == a
  {
    RowRead(id, customizeName, paymentMethod, cs, i, "cart_total", "greater_than", js);
    CartAmountRead(id, customizeName, paymentMethod, cs, i, a, js);
  }

  /** The one cart-total row's amount is the first `cartTotal` value and reads back as itself. */
  lemma {:induction false} CartAmountRead(id: string, customizeName: string, paymentMethod: string,
                                          cs: seq<Form.PaymentCondition>, i: nat, a: real, js: Primitives)
    requires ReadsBackNumber(js, a) && Distinct(Form.Types(cs))
    requires i < |cs| && Form.TypeIs(cs[i], "cart_total") && cs[i].amount == Form.Value(JNum(a))
    ensures Api.Amount(Api.Read(Submit(id, customizeName, paymentMethod, cs, js)).cartTotal, js) == a
  {
    forall j | 0 <= j < i ensures !Form.TypeIs(cs[j], "cart_total") {
      OnlyTypeAt(cs, i, j);
    }
    AmountTextsFirst(cs, |cs|, i, js);
    SubmittedAmountReadsBack(a, js);
    SubmittedRead(id, customizeName, paymentMethod, cs, js);
  }

  lemma {:induction false} SubmittedAmountReadsBack(a: real, js: Primitives)
    requires ReadsBackNumber(js, a)
    ensures Form.SubmittedAmount(Form.Value(JNum(a)), js) == a
    ensures js.toNumber(js.numberToString(Form.SubmittedAmount(Form.Value(JNum(a)), js))) == Some(a)
  {
  }

  /** The action stores, for the one cart-total row, its comparison and the amount the form sent. */
  lemma {:induction false} CartEntrySaved(id: string, customizeName: string, paymentMethod: string,
                                          cs: seq<Form.PaymentCondition>, i: nat, a: real, js: Primitives)
    requires ReadsBackNumber(js, a)
    requires TypesAreStrings(cs) && Distinct(Form.Types(cs))
    requires i < |cs| && Form.TypeIs(cs[i], "cart_total")
    requires cs[i].greaterOrSmall == Some(JStr("greater_than")) && cs[i].amount == Form.Value(JNum(a))
    ensures var r := Api.Read(Submit(id, customizeName, paymentMethod, cs, js));
      Distinct(r.conditionTypes)
      && Api.Categorised(r, "cart_total", |r.conditionTypes|, js)
         == [JObj(map["greaterOrSmall" := JStr("greater_than"), "amount" := JNum(a)])]
  {
    CartRowRead(id, customizeName, paymentMethod, cs, i, a, js);
    var r := Api.Read(Submit(id, customizeName, paymentMethod, cs, js));
    Api.CategorisedSingle(r, "cart_total", |r.conditionTypes|, i, js);
    assert Api.Comparison(r.greaterSmaller, i) == map["greaterOrSmall" := JStr("greater_than")];
    assert map["greaterOrSmall" := JStr("greater_than")] + map["amount" := JNum(a)]
        == map["greaterOrSmall" := JStr("greater_than"), "amount" := JNum(a)];
  }

  /** The cart-total row labelled "is less than" stores `greater_than`; the
      action stores the amount the form submitted, and the checkout function
      then hides the method exactly when the cart total is at most that amount. */
  lemma {:induction false} CartLabelAgrees(id: string, customizeName: string, paymentMethod: string,
                        cs: seq<Form.PaymentCondition>, i: nat, a: real, recordExists: bool,
                        cartTotal: Option<real>, js: Primitives)
    requires ReadsBackNumber(js, a) && id != ""
    requires TypesAreStrings(cs) && Distinct(Form.Types(cs))
    requires i < |cs| && Form.TypeIs(cs[i], "cart_total")
    requires cs[i].greaterOrSmall == Some(JStr("greater_than")) && cs[i].amount == Form.Value(JNum(a))
    ensures var response := Api.Respond(Submit(id, customizeName, paymentMethod, cs, js), Api.PlatformOk, recordExists, js);
      response.Saved?
      && (Run.TotalCondition(Run.Entry(StoredConditions(response.config), "cartTotal"), cartTotal, js)
          <==> Le(cartTotal, Some(a)))
  {
    var fd := Submit(id, customizeName, paymentMethod, cs, js);
    SubmittedRead(id, customizeName, paymentMethod, cs, js);
    CartEntrySaved(id, customizeName, paymentMethod, cs, i, a, js);
    var r := Api.Read(fd);
    var n := |r.conditionTypes|;
    var entry := JObj(map["greaterOrSmall" := JStr("greater_than"), "amount" := JNum(a)]);
    StoredEntry(r, [entry], Api.Categorised(r, "product", n, js), Api.Categorised(r, "shipping_country", n, js), "cartTotal", entry);
    GreaterThanMeansAtMost(a, cartTotal, js);
  }

  // ------------------------------------------------------ product conditions

  /** The stored product list of the one product row: its picked ids when the
      row is the first condition, and nothing otherwise, because the action
      looks up `selectedProducts` by the row's overall position. */
  lemma {:induction false} ProductsStoredOnlyAtFirstPosition(id: string, customizeName: string, paymentMethod: string,
                                                             cs: seq<Form.PaymentCondition>, i: nat, js: Primitives)
    requires TypesAreStrings(cs) && Distinct(Form.Types(cs))
    requires i < |cs| && Form.TypeIs(cs[i], "product")
    requires |cs[i].selectedProducts| > 0 && cs[i].selectedProducts[0] != ""
    requires forall k :: 0 <= k < |cs[i].selectedProducts| ==> ',' !in cs[i].selectedProducts[k]
    ensures var r := Api.Read(Submit(id, customizeName, paymentMethod, cs, js));
      Api.ProductsAt(r.selectedProducts, i) == if i == 0 then cs[i].selectedProducts else []
  {
    var ps := cs[i].selectedProducts;
    SubmittedRead(id, customizeName, paymentMethod, cs, js);
    ProductTextsSingle(cs, |cs|, i);
    assert Join(ps, ",") != "" by {
      if |ps| > 1 {
        assert Join(ps, ",") == ps[0] + "," + Join(ps[1..], ",");
      }
    }
    SplitJoin(ps, ',');
  }

  lemma {:induction false} SomeIncludedInEmpty(ids: seq<string>)
    ensures Run.SomeIncluded(ids, JArr([])) == Ok(false)
  {
    if |ids| > 0 {
      SomeIncludedInEmpty(ids[1..]);
    }
  }

  /** What the action reads back for the row at `i`: its type and comparison texts. */
  lemma {:induction false} RowRead(id: string, customizeName: string, paymentMethod: string,
                                   cs: seq<Form.PaymentCondition>, i: nat, kind: string, comparison: string, js: Primitives)
    requires TypesAreStrings(cs) && Distinct(Form.Types(cs))
    requires i < |cs| && Form.TypeIs(cs[i], kind) && cs[i].greaterOrSmall == Some(JStr(comparison))
    ensures var r := Api.Read(Submit(id, customizeName, paymentMethod, cs, js));
      Distinct(r.conditionTypes) && i < |r.conditionTypes| && r.conditionTypes[i] == kind
      && i < |r.greaterSmaller| && r.greaterSmaller[i] == comparison
  {
    SubmittedRead(id, customizeName, paymentMethod, cs, js);
    DistinctTypeTexts(cs, js);
  }

  /** The stored entry of the one product row and what the checkout function makes of it. */
  lemma {:induction false} ProductEntrySaved(id: string, customizeName: string, paymentMethod: string,
                                             cs: seq<Form.PaymentCondition>, i: nat, comparison: string, js: Primitives)
    requires TypesAreStrings(cs) && Distinct(Form.Types(cs))
    requires i < |cs| && Form.TypeIs(cs[i], "product") && cs[i].greaterOrSmall == Some(JStr(comparison))
    ensures var r := Api.Read(Submit(id, customizeName, paymentMethod, cs, js));
      Distinct(r.conditionTypes)
      && Api.Categorised(r, "product", |r.conditionTypes|, js)
         == [JObj(map["greaterOrSmall" := JStr(comparison),
                      "products" := JArr(Api.Strings(Api.ProductsAt(r.selectedProducts, i)))])]
  {
    RowRead(id, customizeName, paymentMethod, cs, i, "product", comparison, js);
    var r := Api.Read(Submit(id, customizeName, paymentMethod, cs, js));
    Api.CategorisedSingle(r, "product", |r.conditionTypes|, i, js);
    var products := JArr(Api.Strings(Api.ProductsAt(r.selectedProducts, i)));
    assert map["greaterOrSmall" := JStr(comparison)] + map["products" := products]
        == map["greaterOrSmall" := JStr(comparison), "products" := products];
  }

  /** The stored product entry of the one product row, as the checkout function reads it. */
  lemma {:induction false} ProductRowStored(id: string, customizeName: string, paymentMethod: string,
                                            cs: seq<Form.PaymentCondition>, i: nat, comparison: string,
                                            recordExists: bool, js: Primitives)
    requires id != "" && TypesAreStrings(cs) && Distinct(Form.Types(cs))
    requires i < |cs| && Form.TypeIs(cs[i], "product") && cs[i].greaterOrSmall == Some(JStr(comparison))
    ensures var fd := Submit(id, customizeName, paymentMethod, cs, js);
      var response := Api.Respond(fd, Api.PlatformOk, recordExists, js);
      response.Saved?
      && Run.Entry(StoredConditions(response.config), "products")
         == JObj(map["greaterOrSmall" := JStr(comparison),
                     "products" := JArr(Api.Strings(Api.ProductsAt(Api.Read(fd).selectedProducts, i)))])
  {
    SubmittedRead(id, customizeName, paymentMethod, cs, js);
    ProductEntrySaved(id, customizeName, paymentMethod, cs, i, comparison, js);
    var r := Api.Read(Submit(id, customizeName, paymentMethod, cs, js));
    var n := |r.conditionTypes|;
    var entry := JObj(map["greaterOrSmall" := JStr(comparison),
                          "products" := JArr(Api.Strings(Api.ProductsAt(r.selectedProducts, i)))]);
    StoredEntry(r, Api.Categorised(r, "cart_total", n, js), [entry], Api.Categorised(r, "shipping_country", n, js), "products", entry);
  }

  /** Only the first position of `selectedProducts` is ever filled, by the one product row. */
  lemma {:induction false} LaterProductRowStoresNoIds(id: string, customizeName: string, paymentMethod: string,
                                                      cs: seq<Form.PaymentCondition>, i: nat, js: Primitives)
    requires Distinct(Form.Types(cs))
    requires 0 < i < |cs| && Form.TypeIs(cs[i], "product")
    ensures Api.ProductsAt(Api.Read(Submit(id, customizeName, paymentMethod, cs, js)).selectedProducts, i) == []
  {
    SubmittedRead(id, customizeName, paymentMethod, cs, js);
    ProductTextsSingle(cs, |cs|, i);
  }

  /** A product row that is not the first condition never hides the method:
      its stored list is empty, so `is` finds no product in any cart. */
  lemma {:induction false} LaterProductRowNeverHides(id: string, customizeName: string, paymentMethod: string,
                                                     cs: seq<Form.PaymentCondition>, i: nat, recordExists: bool,
                                                     lines: seq<Checkout.CartLine>, js: Primitives)
    requires id != "" && TypesAreStrings(cs) && Distinct(Form.Types(cs))
    requires 0 < i < |cs| && Form.TypeIs(cs[i], "product") && cs[i].greaterOrSmall == Some(JStr("is"))
    ensures var response := Api.Respond(Submit(id, customizeName, paymentMethod, cs, js), Api.PlatformOk, recordExists, js);
      response.Saved?
      && Run.ProductCondition(Run.Entry(StoredConditions(response.config), "products"), lines) == Ok(false)
  {
    ProductRowStored(id, customizeName, paymentMethod, cs, i, "is", recordExists, js);
    LaterProductRowStoresNoIds(id, customizeName, paymentMethod, cs, i, js);
    assert Api.Strings([]) == [];
    EmptyIsEntryNeverMatches(lines);
  }

  lemma {:induction false} EmptyIsEntryNeverMatches(lines: seq<Checkout.CartLine>)
    ensures Run.ProductCondition(JObj(map["greaterOrSmall" := JStr("is"), "products" := JArr([])]), lines) == Ok(false)
  {
    var entry := JObj(map["greaterOrSmall" := JStr("is"), "products" := JArr([])]);
    assert Get(Some(entry), "greaterOrSmall") == Some(JStr("is"));
    assert Get(Some(entry), "products") == Some(JArr([]));
    SomeIncludedInEmpty(Run.ProductIds(lines));
  }

  lemma {:induction false} GreaterThanEntryNeverMatches(products: Json, lines: seq<Checkout.CartLine>)
    ensures Run.ProductCondition(JObj(map["greaterOrSmall" := JStr("greater_than"), "products" := products]), lines) == Ok(false)
  {
    var entry := JObj(map["greaterOrSmall" := JStr("greater_than"), "products" := products]);
    assert Get(Some(entry), "greaterOrSmall") == Some(JStr("greater_than"));
  }

  /** The add button's row keeps its `greater_than` comparison when its type is
      switched to product (the product menu never writes it); the checkout
      function then treats the product part as false for every cart. */
  lemma {:induction false} SwitchedRowNeverHides(id: string, customizeName: string, paymentMethod: string,
                                                 cs: seq<Form.PaymentCondition>, i: nat, recordExists: bool,
                                                 lines: seq<Checkout.CartLine>, js: Primitives)
    requires id != "" && TypesAreStrings(cs) && Distinct(Form.Types(cs))
    requires i < |cs| && cs[i] == Form.Apply(Form.AddedCondition, Form.SetType("product")).(selectedProducts := cs[i].selectedProducts)
    ensures var response := Api.Respond(Submit(id, customizeName, paymentMethod, cs, js), Api.PlatformOk, recordExists, js);
      response.Saved?
      && Run.ProductCondition(Run.Entry(StoredConditions(response.config), "products"), lines) == Ok(false)
  {
    assert Form.TypeIs(cs[i], "product") && cs[i].greaterOrSmall == Some(JStr("greater_than"));
    ProductRowStored(id, customizeName, paymentMethod, cs, i, "greater_than", recordExists, js);
    var products := JArr(Api.Strings(Api.ProductsAt(Api.Read(Submit(id, customizeName, paymentMethod, cs, js)).selectedProducts, i)));
    GreaterThanEntryNeverMatches(products, lines);
  }

  // --------------------------------------------------------- other readers

  /** The editor never shows a saved document's conditions: the stored
      `conditions` is an object without `length`, so the page starts from the
      default product row. */
  lemma {:induction false} EditorStartsFromDefault(fd: FD.Fields, platform: Api.Platform, recordExists: bool, js: Primitives)
    requires Api.Respond(fd, platform, recordExists, js).Saved?
    ensures Form.Initial(Some(Api.Respond(fd, platform, recordExists, js).config), js) == Ok([Form.DefaultCondition])
  {
    var config := Api.Respond(fd, platform, recordExists, js).config;
    var conditions := Get(Some(config), "conditions");
    assert conditions.Some? && conditions.value.JObj? && "length" !in conditions.value.fields;
    assert !Form.HasPositiveLength(conditions.value, js);
  }

  /** A country code the checkout reports in upper case. */
  predicate UpperCase(code: string) {
    forall k :: 0 <= k < |code| ==> 'A' <= code[k] <= 'Z'
  }

  /** The country menu stores lower-case codes ("in", "cn"), and the
      comparison is case-sensitive, so `is` never matches a delivery group
      with an upper-case code and `is_not` always does. */
  lemma {:induction false} LowerCaseCountryNeverMatches(groups: seq<Checkout.DeliveryGroup>, country: string)
    requires country in {"in", "cn"}
    requires forall k :: 0 <= k < |groups| && groups[k].countryCode.Some? ==> UpperCase(groups[k].countryCode.value)
    ensures !Run.ShipsToListed(groups, [JStr(country)])
  {
    forall k | 0 <= k < |groups| && groups[k].countryCode.Some? && groups[k].countryCode.value != ""
      ensures JStr(groups[k].countryCode.value) != JStr(country)
    {
      var code := groups[k].countryCode.value;
      assert 'A' <= code[0] <= 'Z';
    }
  }
}

/** The hide-payment editor page (`Body` of the hide-payment route): the
    condition list it starts from, its add/remove/change handlers, the picker
    update, `validateForm` and the form data `handleSubmit` submits to the
    hide-payment API. */
module HidePaymentForm {
  import opened Js
  import FD = FormData

  /** The amount field: NaN (what `parseFloat` gives for a non-number text) or a value. */
  datatype Amount = NaN | Value(json: Json)

  /** One condition of the page state. Types, comparisons and countries are
      whatever the record or the menus put there; `None` is undefined. */
  datatype PaymentCondition = PaymentCondition(
    discountType: Option<Json>,
    greaterOrSmall: Option<Json>,
    amount: Amount,
    selectedProducts: seq<string>,
    country: Option<Json>)

  /** The state when there is no stored list: one product condition. */
  const DefaultCondition := PaymentCondition(Some(JStr("product")), Some(JStr("is")), Value(JNum(0.0)), [], Some(JStr("in")))

  /** What the add button appends. */
  const AddedCondition := PaymentCondition(Some(JStr("cart_total")), Some(JStr("greater_than")), Value(JNum(0.0)), [], Some(JStr("in")))

  function TypeIs(c: PaymentCondition, kind: string): bool {
    c.discountType == Some(JStr(kind))
  }

  // ----------------------------------------------------------- initial state

  /** `v.length > 0` for a value that may have no length. */
  predicate HasPositiveLength(v: Json, js: Primitives) {
    match v
    case JArr(items) => |items| > 0
    case JStr(s) => |s| > 0
    case JObj(_) => Gt(ToNumber(Get(Some(v), "length"), js), Some(0.0))
    case _ => false
  }

  /** One stored condition mapped to the page shape; `null` throws, and so does
      a truthy `selectedProducts` that is not a string (it has no `split`). */
  function FromRecord(item: Json): Result<PaymentCondition> {
    if item == JNull then Throws
    else
      var products := Get(Some(item), "selectedProducts");
      if Truthy(products) && !products.value.JStr? then Throws
      else
        Ok(PaymentCondition(
          Get(Some(item), "type"),
          Get(Some(item), "greaterOrSmall"),
          Value(OrElse(Get(Some(item), "cartTotal"), JNum(0.0))),
          if Truthy(products) then Split(products.value.s, ',') else [],
          Some(OrElse(Get(Some(item), "country"), JStr("in")))))
  }

  function FromRecords(items: seq<Json>): (r: Result<seq<PaymentCondition>>)
    ensures r.Ok? ==> |r.value| == |items| && forall i :: 0 <= i < |items| ==> FromRecord(items[i]) == Ok(r.value[i])
    ensures r.Throws? <==> exists i :: 0 <= i < |items| && FromRecord(items[i]).Throws?
  {
    if |items| == 0 then Ok([])
    else
      match FromRecord(items[0])
      case Throws => Throws
      case Ok(c) =>
        var rest := FromRecords(items[1..]);
        assert forall i :: 1 <= i < |items| ==> items[1..][i - 1] == items[i];
        match rest
        case Throws => Throws
        case Ok(cs) => Ok([c] + cs)
  }

  /** The `useState` initialiser: the stored conditions are mapped only when
      they are truthy and have a positive `length`; then only an array can be
      mapped. Otherwise the page starts from the default condition. */
  function Initial(customization: Option<Json>, js: Primitives): (r: Result<seq<PaymentCondition>>)
    ensures !Truthy(Get(customization, "conditions")) ==> r == Ok([DefaultCondition])
    ensures r.Ok? ==> |r.value| > 0
  {
    var conditions := Get(customization, "conditions");
    if Truthy(conditions) && HasPositiveLength(conditions.value, js) then
      if conditions.value.JArr? then FromRecords(conditions.value.items) else Throws
    else Ok([DefaultCondition])
  }

  // ----------------------------------------------------------------- edits

  /** The field changes the page's controls make. */
  datatype Edit = SetType(t: string) | SetComparison(c: string) | SetAmount(n: Option<real>) | SetCountry(country: string)

  /** `{ ...c, [field]: value }`; an amount is `parseFloat` of the text field. */
  function Apply(c: PaymentCondition, e: Edit): PaymentCondition {
    match e
    case SetType(t) => c.(discountType := Some(JStr(t)))
    case SetComparison(v) => c.(greaterOrSmall := Some(JStr(v)))
    case SetAmount(n) => c.(amount := if n.Some? then Value(JNum(n.value)) else NaN)
    case SetCountry(v) => c.(country := Some(JStr(v)))
  }

  /** `handleAddCondition`: appends a cart-total condition, with no duplicate check. */
  function AddCondition(conditions: seq<PaymentCondition>): (r: seq<PaymentCondition>)
    ensures |r| == |conditions| + 1 && r[..|conditions|] == conditions && r[|conditions|] == AddedCondition
  {
    conditions + [AddedCondition]
  }

  /** `handleRemoveCondition(index)`: drops exactly the element at `index`. */
  function RemoveCondition(conditions: seq<PaymentCondition>, index: int): (r: seq<PaymentCondition>)
    ensures 0 <= index < |conditions| ==> r == conditions[..index] + conditions[index + 1..]
    ensures !(0 <= index < |conditions|) ==> r == conditions
  {
    RemoveIndex(conditions, index)
  }

  /** `handleConditionChange(index, field, value)`. */
  function ChangeCondition(conditions: seq<PaymentCondition>, index: int, e: Edit): (r: seq<PaymentCondition>)
    ensures |r| == |conditions|
    ensures forall i :: 0 <= i < |conditions| && i != index ==> r[i] == conditions[i]
    ensures 0 <= index < |conditions| ==> r[index] == Apply(conditions[index], e)
  {
    if 0 <= index < |conditions| then ReplaceAt(conditions, index, Apply(conditions[index], e)) else conditions
  }

  /** The product picker: the picked ids replace the list of the condition at
      `index`; a cancelled picker (`None`) changes nothing. */
  function PickProducts(conditions: seq<PaymentCondition>, index: int, picked: Option<seq<string>>): (r: seq<PaymentCondition>)
    ensures |r| == |conditions|
    ensures forall i :: 0 <= i < |conditions| && (i != index || picked.None?) ==> r[i] == conditions[i]
    ensures picked.Some? && 0 <= index < |conditions| ==>
      r[index] == conditions[index].(selectedProducts := picked.value)
  {
    if picked.Some? && 0 <= index < |conditions| then
      ReplaceAt(conditions, index, conditions[index].(selectedProducts := picked.value))
    else conditions
  }

  // ------------------------------------------------------------ validation

  datatype FormError =
    | NameRequired
    | InvalidName
    | PaymentMethodRequired
    | DuplicateConditions
    | ConditionRequired
    | CartAmountRequired
    | ProductRequired
    | CountryRequired

  function NameErrors(customizeName: string): (r: seq<FormError>)
    ensures |r| <= 1
  {
    if IsBlank(customizeName) then [NameRequired]
    else if customizeName == "No name.." then [InvalidName]
    else []
  }

  predicate AmountTruthy(a: Amount) {
    a.Value? && Truthy(Some(a.json))
  }

  function Types(conditions: seq<PaymentCondition>): (r: seq<Option<Json>>)
    ensures |r| == |conditions| && forall i :: 0 <= i < |conditions| ==> r[i] == conditions[i].discountType
  {
    if |conditions| == 0 then [] else [conditions[0].discountType] + Types(conditions[1..])
  }

  /** The checks the `forEach` makes on one condition. */
  function RowErrors(c: PaymentCondition): seq<FormError> {
    (if TypeIs(c, "cart_total") && !AmountTruthy(c.amount) then [CartAmountRequired] else [])
    + (if TypeIs(c, "product") && |c.selectedProducts| == 0 then [ProductRequired] else [])
    + (if TypeIs(c, "shipping_country") && !Truthy(c.country) then [CountryRequired] else [])
  }

  function AllRowErrors(conditions: seq<PaymentCondition>, n: nat): seq<FormError>
    requires n <= |conditions|
  {
    if n == 0 then [] else AllRowErrors(conditions, n - 1) + RowErrors(conditions[n - 1])
  }

  function MethodErrors(paymentMethod: string): seq<FormError> {
    if IsBlank(paymentMethod) then [PaymentMethodRequired] else []
  }

  function DuplicateErrors(conditions: seq<PaymentCondition>): seq<FormError> {
    if Distinct(Types(conditions)) then [] else [DuplicateConditions]
  }

  function ListErrors(conditions: seq<PaymentCondition>): seq<FormError> {
    if |conditions| == 0 then [ConditionRequired] else AllRowErrors(conditions, |conditions|)
  }

  /** What `validateForm` collects, in order; the name check runs twice. */
  function FormErrors(customizeName: string, paymentMethod: string, conditions: seq<PaymentCondition>): seq<FormError> {
    NameErrors(customizeName) + MethodErrors(paymentMethod) + DuplicateErrors(conditions)
    + NameErrors(customizeName) + ListErrors(conditions)
  }

  /** The `Set` of condition types is smaller than the list exactly when two
      conditions share a type. */
  method HasDuplicateTypes(conditionTypes: seq<Option<Json>>) returns (duplicated: bool)
    ensures duplicated <==> !Distinct(conditionTypes)
  {
    var uniqueConditions := set t | t in conditionTypes;
    DistinctIffSetSize(conditionTypes);
    duplicated := |uniqueConditions| != |conditionTypes|;
  }

  /** `validateForm()`: the list of messages (the form is valid iff it is empty). */
  method ValidateForm(customizeName: string, paymentMethod: string, conditions: seq<PaymentCondition>)
    returns (errorMessages: seq<FormError>)
    ensures errorMessages == FormErrors(customizeName, paymentMethod, conditions)
  {
    hide NameErrors, AllRowErrors, Types, IsBlank, Distinct;
    var nameErrors := NameErrors(customizeName);
    errorMessages := nameErrors;
    if IsBlank(paymentMethod) {
      errorMessages := errorMessages + [PaymentMethodRequired];
    }
    assert errorMessages == nameErrors + MethodErrors(paymentMethod);
    var duplicated := HasDuplicateTypes(Types(conditions));
    if duplicated {
      errorMessages := errorMessages + [DuplicateConditions];
    }
    assert errorMessages == nameErrors + MethodErrors(paymentMethod) + DuplicateErrors(conditions);
    errorMessages := errorMessages + nameErrors;
    if |conditions| == 0 {
      errorMessages := errorMessages + [ConditionRequired];
    } else {
      var rows := CheckConditions(conditions);
      errorMessages := errorMessages + rows;
    }
  }

  /** The `conditions.forEach` of `validateForm`. */
  method CheckConditions(conditions: seq<PaymentCondition>) returns (errorMessages: seq<FormError>)
    ensures errorMessages == AllRowErrors(conditions, |conditions|)
  {
    errorMessages := [];
    var i := 0;
    while i < |conditions|
      invariant 0 <= i <= |conditions|
      invariant errorMessages == AllRowErrors(conditions, i)
    {
      var c := conditions[i];
      var step: seq<FormError> := [];
      if TypeIs(c, "cart_total") && !AmountTruthy(c.amount) {
        step := step + [CartAmountRequired];
      }
      if TypeIs(c, "product") && |c.selectedProducts| == 0 {
        step := step + [ProductRequired];
      }
      if TypeIs(c, "shipping_country") && !Truthy(c.country) {
        step := step + [CountryRequired];
      }
      assert step == RowErrors(c);
      errorMessages := errorMessages + step;
      i := i + 1;
    }
  }

  // ------------------------------------------------- validation properties

  /** The per-condition checks never report a name, a payment method, a
      duplicate or a missing list. */
  lemma {:induction false} RowErrorsAreRowChecks(conditions: seq<PaymentCondition>, n: nat)
    requires n <= |conditions|
    ensures forall e :: e in AllRowErrors(conditions, n) ==> e.CartAmountRequired? || e.ProductRequired? || e.CountryRequired?
  {
    if n > 0 {
      RowErrorsAreRowChecks(conditions, n - 1);
    }
  }

  /** A condition that carries the value its type needs. */
  predicate RowComplete(c: PaymentCondition) {
    (TypeIs(c, "cart_total") ==> AmountTruthy(c.amount))
    && (TypeIs(c, "product") ==> |c.selectedProducts| > 0)
    && (TypeIs(c, "shipping_country") ==> Truthy(c.country))
  }

  /** The per-condition checks report nothing exactly when every condition is complete. */
  lemma {:induction false} AllRowErrorsEmpty(conditions: seq<PaymentCondition>, n: nat)
    requires n <= |conditions|
    ensures AllRowErrors(conditions, n) == [] <==> forall i :: 0 <= i < n ==> RowComplete(conditions[i])
  {
    if n > 0 {
      AllRowErrorsEmpty(conditions, n - 1);
      var c := conditions[n - 1];
      assert RowErrors(c) == [] <==> RowComplete(c);
      assert |AllRowErrors(conditions, n)| == |AllRowErrors(conditions, n - 1)| + |RowErrors(c)|;
    }
  }

  /** How often a message that no per-condition check reports occurs in the form's list. */
  lemma HeaderCount(customizeName: string, paymentMethod: string, conditions: seq<PaymentCondition>, e: FormError)
    requires !(e.CartAmountRequired? || e.ProductRequired? || e.CountryRequired? || e.ConditionRequired?)
    ensures multiset(FormErrors(customizeName, paymentMethod, conditions))[e]
      == 2 * multiset(NameErrors(customizeName))[e] + multiset(MethodErrors(paymentMethod))[e]
         + multiset(DuplicateErrors(conditions))[e]
  {
    var rest := ListErrors(conditions);
    RowErrorsAreRowChecks(conditions, |conditions|);
    assert e !in rest;
    assert multiset(FormErrors(customizeName, paymentMethod, conditions))
      == multiset(NameErrors(customizeName)) + multiset(MethodErrors(paymentMethod)) + multiset(DuplicateErrors(conditions))
      + multiset(NameErrors(customizeName)) + multiset(rest);
  }

  /** The "name required" message appears twice for a blank name, and never otherwise. */
  lemma BlankNameReportedTwice(customizeName: string, paymentMethod: string, conditions: seq<PaymentCondition>)
    ensures multiset(FormErrors(customizeName, paymentMethod, conditions))[NameRequired]
      == if IsBlank(customizeName) then 2 else 0
  {
    HeaderCount(customizeName, paymentMethod, conditions, NameRequired);
  }

  /** The "No name.." message appears twice for that name, and never otherwise. */
  lemma InvalidNameReportedTwice(customizeName: string, paymentMethod: string, conditions: seq<PaymentCondition>)
    ensures multiset(FormErrors(customizeName, paymentMethod, conditions))[InvalidName]
      == if !IsBlank(customizeName) && customizeName == "No name.." then 2 else 0
  {
    HeaderCount(customizeName, paymentMethod, conditions, InvalidName);
  }

  /** The form is valid (no message) iff the name is set and not "No name..",
      a payment method is chosen, the types are distinct, there is a condition
      and every condition carries its value. */
  lemma ValidIff(customizeName: string, paymentMethod: string, conditions: seq<PaymentCondition>)
    ensures FormErrors(customizeName, paymentMethod, conditions) == [] <==>
      !IsBlank(customizeName) && customizeName != "No name.." && !IsBlank(paymentMethod)
      && Distinct(Types(conditions)) && |conditions| > 0
      && forall i :: 0 <= i < |conditions| ==> RowComplete(conditions[i])
  {
    var all := FormErrors(customizeName, paymentMethod, conditions);
    assert |all| == 2 * |NameErrors(customizeName)| + |MethodErrors(paymentMethod)|
      + |DuplicateErrors(conditions)| + |ListErrors(conditions)|;
    AllRowErrorsEmpty(conditions, |conditions|);
  }

  /** The add button adds a second cart-total condition when one exists, and
      the form then refuses to submit. */
  lemma AddedDuplicateIsFlagged(customizeName: string, paymentMethod: string, conditions: seq<PaymentCondition>, i: nat)
    requires i < |conditions| && TypeIs(conditions[i], "cart_total")
    ensures DuplicateConditions in FormErrors(customizeName, paymentMethod, AddCondition(conditions))
  {
    var added := AddCondition(conditions);
    assert Types(added)[i] == Types(added)[|conditions|];
  }

  // ---------------------------------------------------------- submission

  /** `parseFloat(condition.amount) || 0`. */
  function SubmittedAmount(a: Amount, js: Primitives): real {
    if a.NaN? then 0.0
    else
      match ParseFloat(Some(a.json), js)
      case None => 0.0
      case Some(x) => x
  }

  /** The entries `handleSubmit` appends for one condition; `append` turns
      every value into a string. */
  function ConditionFields(c: PaymentCondition, js: Primitives): FD.Fields {
    [FD.Entry("conditionType", ToStr(c.discountType, js)), FD.Entry("greaterSmaller", ToStr(c.greaterOrSmall, js))]
    + (if TypeIs(c, "cart_total") then [FD.Entry("cartTotal", js.numberToString(SubmittedAmount(c.amount, js)))]
       else if TypeIs(c, "product") then [FD.Entry("selectedProducts", Join(c.selectedProducts, ","))]
       else if TypeIs(c, "shipping_country") then [FD.Entry("country", ToStr(Some(OrElse(c.country, JStr(""))), js))]
       else [])
  }

  function Header(id: string, customizeName: string, paymentMethod: string): FD.Fields {
    [FD.Entry("id", id), FD.Entry("customizeName", customizeName), FD.Entry("paymentMethod", paymentMethod)]
  }

  /** The form data after the first `n` conditions have been appended. */
  function Submitted(id: string, customizeName: string, paymentMethod: string,
                     conditions: seq<PaymentCondition>, n: nat, js: Primitives): FD.Fields
    requires n <= |conditions|
  {
    if n == 0 then Header(id, customizeName, paymentMethod)
    else Submitted(id, customizeName, paymentMethod, conditions, n - 1, js) + ConditionFields(conditions[n - 1], js)
  }

  /** The form data `handleSubmit` builds, condition by condition. */
  method BuildFormData(id: string, customizeName: string, paymentMethod: string,
                       conditions: seq<PaymentCondition>, js: Primitives) returns (fd: FD.Fields)
    ensures fd == Submitted(id, customizeName, paymentMethod, conditions, |conditions|, js)
  {
    fd := [FD.Entry("id", id)];
    fd := fd + [FD.Entry("customizeName", customizeName)];
    fd := fd + [FD.Entry("paymentMethod", paymentMethod)];
    var i := 0;
    while i < |conditions|
      invariant 0 <= i <= |conditions|
      invariant fd == Submitted(id, customizeName, paymentMethod, conditions, i, js)
    {
      var c := conditions[i];
      var before := fd;
      fd := fd + [FD.Entry("conditionType", ToStr(c.discountType, js))];
      fd := fd + [FD.Entry("greaterSmaller", ToStr(c.greaterOrSmall, js))];
      if TypeIs(c, "cart_total") {
        fd := fd + [FD.Entry("cartTotal", js.numberToString(SubmittedAmount(c.amount, js)))];
      } else if TypeIs(c, "product") {
        fd := fd + [FD.Entry("selectedProducts", Join(c.selectedProducts, ","))];
      } else if TypeIs(c, "shipping_country") {
        fd := fd + [FD.Entry("country", ToStr(Some(OrElse(c.country, JStr(""))), js))];
      }
      assert fd == before + ConditionFields(c, js);
      i := i + 1;
    }
  }
}

/** The stand-alone hide-payment form component (`FormBody`): its product
    picker (toggle, open, confirm), its condition list editors (add with a
    refusal, remove, change), `validateForm` with its keyed error object, and
    the form data `handleSubmit` builds. Every cart-total condition shares
    the one `cartAmount` field of the component. */
module HidePaymentFormBody {
  import opened Js
  import FD = FormData

  /** A condition as the component's controls edit it. */
  datatype Condition = Condition(
    discountType: string,
    greaterOrSmall: string,
    amount: Json,
    selectedProducts: seq<string>,
    country: string)

  /** What `handleAddCondition` appends and what the list starts with. */
  const DefaultCondition := Condition("cart_total", "greater_than", JNum(0.0), [], "in")

  /** The banner; `Hidden` is `{ show: false, status: '', message: '' }`. */
  datatype Banner = Hidden | Shown(status: string, message: string)

  const DuplicateBanner := Shown("warning", "This condition type already exists.")
  const InvalidBanner := Shown("critical", "Please fix the errors in the form before submitting.")

  datatype ErrorMessage =
    | NameRequired
    | InvalidName
    | PaymentMethodRequired
    | ConditionRequired
    | CartAmountRequired
    | ProductRequired
    | CountryRequired

  /** `newErrors`: one optional message per key `validateForm` may set. */
  datatype Errors = Errors(
    customizeName: Option<ErrorMessage>,
    paymentMethod: Option<ErrorMessage>,
    conditions: Option<ErrorMessage>,
    cartAmount: Option<ErrorMessage>,
    products: Option<ErrorMessage>,
    country: Option<ErrorMessage>)

  const NoErrors := Errors(None, None, None, None, None, None)

  function Count(v: Option<ErrorMessage>): nat {
    if v.Some? then 1 else 0
  }

  /** `Object.keys(newErrors).length`. */
  function KeyCount(e: Errors): (n: nat)
    ensures n == 0 <==> e == NoErrors
  {
    Count(e.customizeName) + Count(e.paymentMethod) + Count(e.conditions)
    + Count(e.cartAmount) + Count(e.products) + Count(e.country)
  }

  /** The component's state. */
  datatype State = State(
    parentValue: string,
    customizeName: string,
    banner: Banner,
    modalActive: bool,
    selectedProducts: seq<string>,
    currentConditionIndex: Option<int>,
    conditions: seq<Condition>,
    cartAmount: Json,
    errors: Errors)

  const InitialState := State("", "", Hidden, false, [], None, [DefaultCondition], JNum(0.0), NoErrors)

  // --------------------------------------------------------------- counting

  /** How many conditions have the type `kind`. */
  function CountType(conditions: seq<Condition>, kind: string): nat {
    if |conditions| == 0 then 0
    else CountType(conditions[..|conditions| - 1], kind)
         + (if conditions[|conditions| - 1].discountType == kind then 1 else 0)
  }

  /** `conditions.some((condition) => condition.discountType === kind)`. */
  predicate HasType(conditions: seq<Condition>, kind: string) {
    exists i :: 0 <= i < |conditions| && conditions[i].discountType == kind
  }

  /** The count is zero exactly when no condition has the type. */
  lemma {:induction false} CountZeroIff(conditions: seq<Condition>, kind: string)
    ensures CountType(conditions, kind) == 0 <==> !HasType(conditions, kind)
  {
    if |conditions| > 0 {
      var init := conditions[..|conditions| - 1];
      CountZeroIff(init, kind);
      if HasType(init, kind) {
        var i :| 0 <= i < |init| && init[i].discountType == kind;
        assert conditions[i] == init[i];
      }
      if HasType(conditions, kind) && conditions[|conditions| - 1].discountType != kind {
        var i :| 0 <= i < |conditions| && conditions[i].discountType == kind;
        assert init[i] == conditions[i];
      }
    }
  }

  // --------------------------------------------------------- product picker

  /** `toggleModal`. */
  function ToggleModal(s: State): (r: State)
    ensures r.modalActive == !s.modalActive
    ensures r.(modalActive := s.modalActive) == s
  {
    s.(modalActive := !s.modalActive)
  }

  /** `handleSelectProduct(id)`: removes every occurrence of a present id,
      appends an absent one. */
  function SelectProduct(s: State, id: string): (r: State)
    ensures id in r.selectedProducts <==> id !in s.selectedProducts
    ensures forall p :: p != id ==> (p in r.selectedProducts <==> p in s.selectedProducts)
    ensures id !in s.selectedProducts ==> r.selectedProducts == s.selectedProducts + [id]
    ensures r.(selectedProducts := s.selectedProducts) == s
  {
    s.(selectedProducts := Toggle(s.selectedProducts, id))
  }

  /** Picking an absent product and picking it again restores the state. */
  lemma SelectProductTwiceRestores(s: State, id: string)
    requires id !in s.selectedProducts
    ensures SelectProduct(SelectProduct(s, id), id) == s
  {
    ToggleTwiceRestores(s.selectedProducts, id);
  }

  /** `openModalForCondition(index)`: the picker starts from the condition's
      products; an index with no condition throws (it has no `selectedProducts`). */
  function OpenModal(s: State, index: int): (r: Result<State>)
    ensures r.Ok? <==> 0 <= index < |s.conditions|
    ensures r.Ok? ==> r.value == s.(currentConditionIndex := Some(index),
                                     selectedProducts := s.conditions[index].selectedProducts,
                                     modalActive := !s.modalActive)
  {
    if 0 <= index < |s.conditions| then
      Ok(ToggleModal(s.(currentConditionIndex := Some(index), selectedProducts := s.conditions[index].selectedProducts)))
    else Throws
  }

  /** `handleConfirmSelection`: the picked products go into the condition at
      `currentConditionIndex` and nowhere else, and only when it is set; the
      modal toggles in every case. */
  function ConfirmSelection(s: State): (r: State)
    ensures |r.conditions| == |s.conditions|
    ensures forall i :: 0 <= i < |s.conditions| ==>
      r.conditions[i] == if s.currentConditionIndex == Some(i)
                         then s.conditions[i].(selectedProducts := s.selectedProducts)
                         else s.conditions[i]
    ensures r == s.(conditions := r.conditions, modalActive := !s.modalActive)
  {
    var conditions :=
      if s.currentConditionIndex.Some? then
        var index := s.currentConditionIndex.value;
        seq(|s.conditions|, i requires 0 <= i < |s.conditions| =>
          if i == index then s.conditions[i].(selectedProducts := s.selectedProducts) else s.conditions[i])
      else s.conditions;
    ToggleModal(s.(conditions := conditions))
  }

  /** Opening the picker on a condition and confirming changes no condition
      and leaves the modal as it was. */
  lemma {:induction false} OpenThenConfirmKeepsConditions(s: State, index: int)
    requires 0 <= index < |s.conditions|
    ensures OpenModal(s, index).Ok?
    ensures ConfirmSelection(OpenModal(s, index).value).conditions == s.conditions
    ensures ConfirmSelection(OpenModal(s, index).value).modalActive == s.modalActive
  {
    var t := ConfirmSelection(OpenModal(s, index).value);
    assert forall i :: 0 <= i < |s.conditions| ==> t.conditions[i] == s.conditions[i];
  }

  /** Opening the picker on a condition, toggling one product and confirming
      toggles that product in that condition and in no other. */
  lemma {:induction false} OpenToggleConfirm(s: State, index: int, id: string)
    requires 0 <= index < |s.conditions|
    ensures OpenModal(s, index).Ok?
    ensures
      var t := ConfirmSelection(SelectProduct(OpenModal(s, index).value, id));
      |t.conditions| == |s.conditions|
      && t.conditions[index].selectedProducts == Toggle(s.conditions[index].selectedProducts, id)
      && (forall i :: 0 <= i < |s.conditions| && i != index ==> t.conditions[i] == s.conditions[i])
  {
    var start := OpenModal(s, index).value;
    var picked := SelectProduct(start, id);
    assert picked.currentConditionIndex == Some(index);
    assert picked.selectedProducts == Toggle(s.conditions[index].selectedProducts, id);
  }

  // ------------------------------------------------------------ list edits

  /** `handleAddCondition`: refused with a warning banner while some
      condition is a cart total; otherwise one default condition is appended. */
  function AddCondition(s: State): (r: State)
    ensures HasType(s.conditions, "cart_total") ==> r == s.(banner := DuplicateBanner)
    ensures !HasType(s.conditions, "cart_total") ==> r == s.(conditions := s.conditions + [DefaultCondition])
  {
    if HasType(s.conditions, "cart_total") then s.(banner := DuplicateBanner)
    else s.(conditions := s.conditions + [DefaultCondition])
  }

  /** The add button never makes a second cart-total condition: afterwards
      there is exactly one if there was none, and as many as before otherwise. */
  lemma {:induction false} AddNeverDuplicatesCartTotal(s: State)
    ensures CountType(AddCondition(s).conditions, "cart_total")
      == if CountType(s.conditions, "cart_total") == 0 then 1 else CountType(s.conditions, "cart_total")
  {
    CountZeroIff(s.conditions, "cart_total");
    if !HasType(s.conditions, "cart_total") {
      var added := s.conditions + [DefaultCondition];
      assert added[..|added| - 1] == s.conditions;
    }
  }

  /** A second press of the add button changes no condition. */
  lemma {:induction false} AddTwiceAddsOnce(s: State)
    ensures AddCondition(AddCondition(s)).conditions == AddCondition(s).conditions
  {
    var once := AddCondition(s);
    if !HasType(s.conditions, "cart_total") {
      assert once.conditions[|s.conditions|].discountType == "cart_total";
    }
  }

  /** `handleRemoveCondition(index)`: drops exactly the element at `index`. */
  function RemoveCondition(s: State, index: int): (r: State)
    ensures 0 <= index < |s.conditions| ==> r.conditions == s.conditions[..index] + s.conditions[index + 1..]
    ensures !(0 <= index < |s.conditions|) ==> r.conditions == s.conditions
    ensures r == s.(conditions := r.conditions)
  {
    s.(conditions := RemoveIndex(s.conditions, index))
  }

  /** The fields `handleConditionChange(index, field, value)` writes. */
  datatype Edit =
    | SetType(t: string)
    | SetComparison(c: string)
    | SetAmount(a: Json)
    | SetProducts(ps: seq<string>)
    | SetCountry(country: string)

  /** `{ ...c, [field]: value }`. */
  function Apply(c: Condition, e: Edit): Condition {
    match e
    case SetType(t) => c.(discountType := t)
    case SetComparison(v) => c.(greaterOrSmall := v)
    case SetAmount(a) => c.(amount := a)
    case SetProducts(ps) => c.(selectedProducts := ps)
    case SetCountry(v) => c.(country := v)
  }

  /** `handleConditionChange(index, field, value)`: one field of one element. */
  function ChangeCondition(s: State, index: int, e: Edit): (r: State)
    ensures |r.conditions| == |s.conditions|
    ensures forall i :: 0 <= i < |s.conditions| ==>
      r.conditions[i] == if i == index then Apply(s.conditions[i], e) else s.conditions[i]
    ensures r == s.(conditions := r.conditions)
  {
    if 0 <= index < |s.conditions| then s.(conditions := ReplaceAt(s.conditions, index, Apply(s.conditions[index], e)))
    else s
  }

  /** The add button's guard does not cover the type menu: changing a
      product condition's type to cart total makes one more cart-total condition. */
  lemma {:induction false} ChangeBypassesAddGuard(s: State, index: int)
    requires 0 <= index < |s.conditions| && s.conditions[index].discountType != "cart_total"
    ensures CountType(ChangeCondition(s, index, SetType("cart_total")).conditions, "cart_total")
      == CountType(s.conditions, "cart_total") + 1
  {
    var changed := ChangeCondition(s, index, SetType("cart_total")).conditions;
    CountReplace(s.conditions, changed, index, "cart_total");
  }

  /** Replacing one element changes the count by what that element contributes. */
  lemma {:induction false} CountReplace(a: seq<Condition>, b: seq<Condition>, index: nat, kind: string)
    requires |a| == |b| && index < |a|
    requires forall i :: 0 <= i < |a| && i != index ==> a[i] == b[i]
    ensures CountType(b, kind) + (if a[index].discountType == kind then 1 else 0)
      == CountType(a, kind) + (if b[index].discountType == kind then 1 else 0)
  {
    var n := |a|;
    if index == n - 1 {
      assert a[..n - 1] == b[..n - 1];
    } else {
      CountReplace(a[..n - 1], b[..n - 1], index, kind);
    }
  }

  // ------------------------------------------------------------ validation

  /** The name and payment-method checks, which run first. */
  function HeaderErrors(customizeName: string, parentValue: string): Errors {
    var named :=
      if IsBlank(customizeName) then NoErrors.(customizeName := Some(NameRequired))
      else if customizeName == "No name.." then NoErrors.(customizeName := Some(InvalidName))
      else NoErrors;
    if IsBlank(parentValue) then named.(paymentMethod := Some(PaymentMethodRequired)) else named
  }

  /** The cart-total check reads the shared `cartAmount`, not the condition's own amount. */
  predicate CartFlag(c: Condition, cartAmount: Json) {
    c.discountType == "cart_total" && !Truthy(Some(cartAmount))
  }

  predicate ProductFlag(c: Condition) {
    c.discountType == "product" && |c.selectedProducts| == 0
  }

  /** `!condition.country`: the only falsy string is the empty one. */
  predicate CountryFlag(c: Condition) {
    c.discountType == "shipping_country" && c.country == ""
  }

  /** The three checks of the `forEach` on one condition, writing into `m`. */
  function RowStep(m: Errors, c: Condition, cartAmount: Json): Errors {
    var m1 := if CartFlag(c, cartAmount) then m.(cartAmount := Some(CartAmountRequired)) else m;
    var m2 := if ProductFlag(c) then m1.(products := Some(ProductRequired)) else m1;
    if CountryFlag(c) then m2.(country := Some(CountryRequired)) else m2
  }

  /** `newErrors` after the `forEach` has visited the first `n` conditions. */
  function Rows(m: Errors, conditions: seq<Condition>, n: nat, cartAmount: Json): Errors
    requires n <= |conditions|
  {
    if n == 0 then m else RowStep(Rows(m, conditions, n - 1, cartAmount), conditions[n - 1], cartAmount)
  }

  /** The error object `validateForm` builds. */
  function FormErrors(customizeName: string, parentValue: string, conditions: seq<Condition>, cartAmount: Json): Errors {
    var header := HeaderErrors(customizeName, parentValue);
    if |conditions| == 0 then header.(conditions := Some(ConditionRequired))
    else Rows(header, conditions, |conditions|, cartAmount)
  }

  /** After the loop a row key is set iff it was set before or some visited
      condition sets it; the loop never touches the other keys. */
  lemma {:induction false} RowsKeys(m: Errors, conditions: seq<Condition>, n: nat, cartAmount: Json)
    requires n <= |conditions|
    ensures var r := Rows(m, conditions, n, cartAmount);
      r.customizeName == m.customizeName && r.paymentMethod == m.paymentMethod && r.conditions == m.conditions
      && r.cartAmount == (if exists i :: 0 <= i < n && CartFlag(conditions[i], cartAmount) then Some(CartAmountRequired) else m.cartAmount)
      && r.products == (if exists i :: 0 <= i < n && ProductFlag(conditions[i]) then Some(ProductRequired) else m.products)
      && r.country == (if exists i :: 0 <= i < n && CountryFlag(conditions[i]) then Some(CountryRequired) else m.country)
  {
    hide RowStep, CartFlag, ProductFlag, CountryFlag;
    if n > 0 {
      RowsKeys(m, conditions, n - 1, cartAmount);
      var c := conditions[n - 1];
      RowStepKeys(Rows(m, conditions, n - 1, cartAmount), c, cartAmount);
      assert (exists i :: 0 <= i < n && CartFlag(conditions[i], cartAmount))
        <==> (exists i :: 0 <= i < n - 1 && CartFlag(conditions[i], cartAmount)) || CartFlag(c, cartAmount);
      assert (exists i :: 0 <= i < n && ProductFlag(conditions[i]))
        <==> (exists i :: 0 <= i < n - 1 && ProductFlag(conditions[i])) || ProductFlag(c);
      assert (exists i :: 0 <= i < n && CountryFlag(conditions[i]))
        <==> (exists i :: 0 <= i < n - 1 && CountryFlag(conditions[i])) || CountryFlag(c);
    }
  }

  /** One step sets a row key iff its condition calls for it. */
  lemma RowStepKeys(m: Errors, c: Condition, cartAmount: Json)
    ensures var r := RowStep(m, c, cartAmount);
      r.customizeName == m.customizeName && r.paymentMethod == m.paymentMethod && r.conditions == m.conditions
      && r.cartAmount == (if CartFlag(c, cartAmount) then Some(CartAmountRequired) else m.cartAmount)
      && r.products == (if ProductFlag(c) then Some(ProductRequired) else m.products)
      && r.country == (if CountryFlag(c) then Some(CountryRequired) else m.country)
  {
  }

  /** What each key of the error object means. */
  lemma FormErrorsKeys(customizeName: string, parentValue: string, conditions: seq<Condition>, cartAmount: Json)
    ensures var e := FormErrors(customizeName, parentValue, conditions, cartAmount);
      e.customizeName == (if IsBlank(customizeName) then Some(NameRequired)
                          else if customizeName == "No name.." then Some(InvalidName) else None)
      && (e.paymentMethod.Some? <==> IsBlank(parentValue))
      && (e.conditions.Some? <==> |conditions| == 0)
      && (e.cartAmount.Some? <==> exists i :: 0 <= i < |conditions| && CartFlag(conditions[i], cartAmount))
      && (e.products.Some? <==> exists i :: 0 <= i < |conditions| && ProductFlag(conditions[i]))
      && (e.country.Some? <==> exists i :: 0 <= i < |conditions| && CountryFlag(conditions[i]))
  {
    RowsKeys(HeaderErrors(customizeName, parentValue), conditions, |conditions|, cartAmount);
  }

  /** The form validates iff the name is set and not "No name..", a payment
      method is chosen, there is a condition, the shared cart amount is
      truthy when some condition is a cart total, no product condition is
      empty and no country condition lacks its country. */
  lemma ValidIff(customizeName: string, parentValue: string, conditions: seq<Condition>, cartAmount: Json)
    ensures KeyCount(FormErrors(customizeName, parentValue, conditions, cartAmount)) == 0 <==>
      !IsBlank(customizeName) && customizeName != "No name.." && !IsBlank(parentValue) && |conditions| > 0
      && (HasType(conditions, "cart_total") ==> Truthy(Some(cartAmount)))
      && (forall i :: 0 <= i < |conditions| ==> !ProductFlag(conditions[i]))
      && (forall i :: 0 <= i < |conditions| ==> !CountryFlag(conditions[i]))
  {
    FormErrorsKeys(customizeName, parentValue, conditions, cartAmount);
    assert HasType(conditions, "cart_total") && !Truthy(Some(cartAmount))
      <==> exists i :: 0 <= i < |conditions| && CartFlag(conditions[i], cartAmount);
  }

  /** Conditions that differ only in their own amounts. */
  predicate SameButAmounts(a: seq<Condition>, b: seq<Condition>) {
    |a| == |b| && forall i :: 0 <= i < |a| ==> b[i] == a[i].(amount := b[i].amount)
  }

  lemma {:induction false} RowsIgnoreAmounts(m: Errors, a: seq<Condition>, b: seq<Condition>, n: nat, cartAmount: Json)
    requires SameButAmounts(a, b) && n <= |a|
    ensures Rows(m, a, n, cartAmount) == Rows(m, b, n, cartAmount)
  {
    hide RowStep;
    if n > 0 {
      RowsIgnoreAmounts(m, a, b, n - 1, cartAmount);
      assert b[n - 1] == a[n - 1].(amount := b[n - 1].amount);
      RowStepIgnoresAmount(Rows(m, a, n - 1, cartAmount), a[n - 1], b[n - 1].amount, cartAmount);
    }
  }

  lemma RowStepIgnoresAmount(m: Errors, c: Condition, amount: Json, cartAmount: Json)
    ensures RowStep(m, c.(amount := amount), cartAmount) == RowStep(m, c, cartAmount)
  {
  }

  /** Validation never reads a condition's own amount, only the shared one. */
  lemma SharedAmountValidation(customizeName: string, parentValue: string, a: seq<Condition>, b: seq<Condition>, cartAmount: Json)
    requires SameButAmounts(a, b)
    ensures FormErrors(customizeName, parentValue, a, cartAmount) == FormErrors(customizeName, parentValue, b, cartAmount)
  {
    RowsIgnoreAmounts(HeaderErrors(customizeName, parentValue), a, b, |a|, cartAmount);
  }

  /** `validateForm()`: the error object, and whether it has no key. */
  method ValidateForm(customizeName: string, parentValue: string, conditions: seq<Condition>, cartAmount: Json)
    returns (newErrors: Errors, valid: bool)
    ensures newErrors == FormErrors(customizeName, parentValue, conditions, cartAmount)
    ensures valid <==> KeyCount(newErrors) == 0
  {
    newErrors := NoErrors;
    if IsBlank(customizeName) {
      newErrors := newErrors.(customizeName := Some(NameRequired));
    } else if customizeName == "No name.." {
      newErrors := newErrors.(customizeName := Some(InvalidName));
    }
    if IsBlank(parentValue) {
      newErrors := newErrors.(paymentMethod := Some(PaymentMethodRequired));
    }
    assert newErrors == HeaderErrors(customizeName, parentValue);
    if |conditions| == 0 {
      newErrors := newErrors.(conditions := Some(ConditionRequired));
    } else {
      newErrors := CheckConditions(newErrors, conditions, cartAmount);
    }
    valid := KeyCount(newErrors) == 0;
  }

  /** The `conditions.forEach` of `validateForm`, writing into `newErrors`. */
  method CheckConditions(errors: Errors, conditions: seq<Condition>, cartAmount: Json) returns (newErrors: Errors)
    ensures newErrors == Rows(errors, conditions, |conditions|, cartAmount)
  {
    newErrors := errors;
    var i := 0;
    while i < |conditions|
      invariant 0 <= i <= |conditions|
      invariant newErrors == Rows(errors, conditions, i, cartAmount)
    {
      var condition := conditions[i];
      var before := newErrors;
      if condition.discountType == "cart_total" && !Truthy(Some(cartAmount)) {
        newErrors := newErrors.(cartAmount := Some(CartAmountRequired));
      }
      if condition.discountType == "product" && |condition.selectedProducts| == 0 {
        newErrors := newErrors.(products := Some(ProductRequired));
      }
      if condition.discountType == "shipping_country" && condition.country == "" {
        newErrors := newErrors.(country := Some(CountryRequired));
      }
      assert newErrors == RowStep(before, condition, cartAmount);
      i := i + 1;
    }
  }

  // ---------------------------------------------------------- submission

  /** The entries appended for one condition; the cart total is the shared
      `cartAmount`, turned into a string by `append`. */
  function ConditionFields(c: Condition, cartAmount: Json, js: Primitives): FD.Fields {
    [FD.Entry("conditionType", c.discountType), FD.Entry("greaterSmaller", c.greaterOrSmall)]
    + (if c.discountType == "cart_total" then [FD.Entry("cartTotal", ToStr(Some(cartAmount), js))]
       else if c.discountType == "product" then [FD.Entry("selectedProducts", Join(c.selectedProducts, ","))]
       else if c.discountType == "shipping_country" then [FD.Entry("country", c.country)]
       else [])
  }

  /** The form data once the first `n` conditions have been appended. */
  function Submitted(id: string, customizeName: string, parentValue: string,
                     conditions: seq<Condition>, n: nat, cartAmount: Json, js: Primitives): FD.Fields
    requires n <= |conditions|
  {
    if n == 0 then [FD.Entry("id", id), FD.Entry("customizeName", customizeName), FD.Entry("paymentMethod", parentValue)]
    else Submitted(id, customizeName, parentValue, conditions, n - 1, cartAmount, js) + ConditionFields(conditions[n - 1], cartAmount, js)
  }

  /** One condition contributes the shared amount under `cartTotal` iff it
      is a cart-total condition. */
  lemma ConditionFieldsCartTotal(c: Condition, cartAmount: Json, js: Primitives)
    ensures FD.GetAll(ConditionFields(c, cartAmount, js), "cartTotal")
      == if c.discountType == "cart_total" then [ToStr(Some(cartAmount), js)] else []
  {
    var step := ConditionFields(c, cartAmount, js);
    FD.GetAllAppend([], step[0], "cartTotal");
    FD.GetAllAppend([step[0]], step[1], "cartTotal");
    assert step[..2] == [step[0]] + [step[1]];
    FD.GetAllConcat(step[..2], step[2..], "cartTotal");
    assert step == step[..2] + step[2..];
    if |step| == 3 {
      FD.GetAllAppend([], step[2], "cartTotal");
      assert step[2..] == [] + [step[2]];
    }
  }

  /** Every cart-total condition submits the same shared amount: the
      `cartTotal` values are that one string, once per cart-total condition. */
  lemma {:induction false} SubmittedCartTotals(id: string, customizeName: string, parentValue: string,
                                               conditions: seq<Condition>, n: nat, cartAmount: Json, js: Primitives)
    requires n <= |conditions|
    ensures var totals := FD.GetAll(Submitted(id, customizeName, parentValue, conditions, n, cartAmount, js), "cartTotal");
      |totals| == CountType(conditions[..n], "cart_total")
      && forall j :: 0 <= j < |totals| ==> totals[j] == ToStr(Some(cartAmount), js)
  {
    hide ConditionFields, ToStr, FD.GetAll;
    if n == 0 {
      HeaderHasNoCartTotal(id, customizeName, parentValue);
    } else {
      var before := Submitted(id, customizeName, parentValue, conditions, n - 1, cartAmount, js);
      var step := ConditionFields(conditions[n - 1], cartAmount, js);
      SubmittedCartTotals(id, customizeName, parentValue, conditions, n - 1, cartAmount, js);
      ConditionFieldsCartTotal(conditions[n - 1], cartAmount, js);
      FD.GetAllConcat(before, step, "cartTotal");
      assert conditions[..n][..n - 1] == conditions[..n - 1];
    }
  }

  lemma HeaderHasNoCartTotal(id: string, customizeName: string, parentValue: string)
    ensures FD.GetAll([FD.Entry("id", id), FD.Entry("customizeName", customizeName), FD.Entry("paymentMethod", parentValue)], "cartTotal") == []
  {
    var fd := [FD.Entry("id", id), FD.Entry("customizeName", customizeName), FD.Entry("paymentMethod", parentValue)];
    FD.GetAllAppend([], fd[0], "cartTotal");
    FD.GetAllAppend([fd[0]], fd[1], "cartTotal");
    FD.GetAllAppend([fd[0], fd[1]], fd[2], "cartTotal");
    assert fd == [fd[0], fd[1]] + [fd[2]];
  }

  /** The submitted form data never reads a condition's own amount. */
  lemma {:induction false} SubmittedIgnoresAmounts(id: string, customizeName: string, parentValue: string,
                                                   a: seq<Condition>, b: seq<Condition>, n: nat, cartAmount: Json, js: Primitives)
    requires SameButAmounts(a, b) && n <= |a|
    ensures Submitted(id, customizeName, parentValue, a, n, cartAmount, js) == Submitted(id, customizeName, parentValue, b, n, cartAmount, js)
  {
    if n > 0 {
      SubmittedIgnoresAmounts(id, customizeName, parentValue, a, b, n - 1, cartAmount, js);
      assert b[n - 1] == a[n - 1].(amount := b[n - 1].amount);
    }
  }

  /** The `conditions.forEach` of `handleSubmit`. */
  method BuildFormData(id: string, customizeName: string, parentValue: string,
                       conditions: seq<Condition>, cartAmount: Json, js: Primitives) returns (formData: FD.Fields)
    ensures formData == Submitted(id, customizeName, parentValue, conditions, |conditions|, cartAmount, js)
  {
    formData := [FD.Entry("id", id)];
    formData := formData + [FD.Entry("customizeName", customizeName)];
    formData := formData + [FD.Entry("paymentMethod", parentValue)];
    var i := 0;
    while i < |conditions|
      invariant 0 <= i <= |conditions|
      invariant formData == Submitted(id, customizeName, parentValue, conditions, i, cartAmount, js)
    {
      var condition := conditions[i];
      var before := formData;
      formData := formData + [FD.Entry("conditionType", condition.discountType)];
      formData := formData + [FD.Entry("greaterSmaller", condition.greaterOrSmall)];
      if condition.discountType == "cart_total" {
        formData := formData + [FD.Entry("cartTotal", ToStr(Some(cartAmount), js))];
      } else if condition.discountType == "product" {
        formData := formData + [FD.Entry("selectedProducts", Join(condition.selectedProducts, ","))];
      } else if condition.discountType == "shipping_country" {
        formData := formData + [FD.Entry("country", condition.country)];
      }
      assert formData == before + ConditionFields(condition, cartAmount, js);
      i := i + 1;
    }
  }

  /** `handleSubmit` up to the submission: the errors are stored, the
      critical banner is shown when there are any, and form data is built
      (and posted) only for a valid form. */
  method HandleSubmit(s: State, id: string, js: Primitives) returns (r: State, posted: Option<FD.Fields>)
    ensures r.errors == FormErrors(s.customizeName, s.parentValue, s.conditions, s.cartAmount)
    ensures r == s.(errors := r.errors, banner := if KeyCount(r.errors) > 0 then InvalidBanner else s.banner)
    ensures posted.Some? <==> KeyCount(r.errors) == 0
    ensures posted.Some? ==> posted.value == Submitted(id, s.customizeName, s.parentValue, s.conditions, |s.conditions|, s.cartAmount, js)
  {
    var newErrors, valid := ValidateForm(s.customizeName, s.parentValue, s.conditions, s.cartAmount);
    r := s.(errors := newErrors);
    if KeyCount(newErrors) > 0 {
      r := r.(banner := InvalidBanner);
    }
    if !valid {
      posted := None;
      return;
    }
    var formData := BuildFormData(id, s.customizeName, s.parentValue, s.conditions, s.cartAmount, js);
    posted := Some(formData);
  }
}

/** The server actions that save a shipping rule: the hide-shipping API and the
    shipping-message page action. Both validate the submitted form with the same
    condition rules (at most one condition of each unique type, no repeated
    (type, operator, value) triple, a value for every condition, a positive cart
    total), then update or create the rule. The platform and database calls are
    not modelled: their lookups are inputs and the saved configuration is the
    result. */
module ShippingRuleServer {
  import opened Js

  /** The validation messages, one constructor per message template, holding
      the parts the template interpolates. Positions are 1-based (`index + 1`).
      `OnlyOne` holds the condition type, whose first "_" the message shows as
      a space. */
  datatype ServerError =
    | InvalidConditionsFormat
    | InvalidShop
    | NameRequired
    | MessageRequired
    | ShippingMethodRequired
    | ConditionRequired
    | InvalidStructure(position: nat)
    | OnlyOne(typeName: string)
    | DuplicateCondition(kind: string, operator: string, value: string)
    | ValueRequired(position: nat, kind: string)
    | CartTotalNotPositive(position: nat)
    | NotFound
    | NameTaken(name: string)
    | SaveFailed

  /** Which of the two actions: the shipping-message action also requires a message. */
  datatype Variant = HideShipping | ShippingMessage

  /** The submitted form fields (`formData.get`, `None` for null). */
  datatype Form = Form(
    customizeName: Option<string>,
    shippingMethod: Option<string>,
    message: Option<string>,
    conditions: Option<string>,
    shopGid: Option<string>,
    id: Option<string>
  )

  datatype Response =
    | Rejected(status: int, errors: seq<ServerError>)
    | Updated(config: Json)
    | Created(config: Json)

  const UniqueTypes: set<string> := {"cart_total", "customer_type", "shipping_country"}

  const ShopPrefix := "gid://shopify/Shop/"

  function TypeOf(c: Json): Option<Json> { Get(Some(c), "type") }
  function OperatorOf(c: Json): Option<Json> { Get(Some(c), "operator") }
  function ValueOf(c: Json): Option<Json> { Get(Some(c), "value") }

  /** The structure check: an object with a truthy type and operator and a
      value that is neither undefined nor null. */
  predicate WellFormed(c: Json) {
    c.JObj? && Truthy(TypeOf(c)) && Truthy(OperatorOf(c)) && ValueOf(c).Some? && ValueOf(c).value != JNull
  }

  /** The condition's type when it is one of the unique types. */
  function UniqueKind(c: Json): (k: Option<string>)
    ensures k.Some? ==> k.value in UniqueTypes && TypeOf(c) == Some(JStr(k.value))
  {
    var t := TypeOf(c);
    if t.Some? && t.value.JStr? && t.value.s in UniqueTypes then Some(t.value.s) else None
  }

  /** `${type}-${operator}-${value}`, the duplicate-detection key. */
  function Key(c: Json, js: Primitives): string {
    ToStr(TypeOf(c), js) + "-" + ToStr(OperatorOf(c), js) + "-" + ToStr(ValueOf(c), js)
  }

  predicate EmptyValue(c: Json) { ValueOf(c) == Some(JStr("")) }

  /** A cart-total value must parse to a number greater than 0. */
  predicate CartTotalOk(c: Json, js: Primitives) {
    TypeOf(c) == Some(JStr("cart_total")) ==>
      var v := ParseFloat(ValueOf(c), js);
      v.Some? && v.value > 0.0
  }

  /** How many well-formed conditions before position `n` have type `kind`. */
  function PriorCount(conditions: seq<Json>, n: nat, kind: string): nat
    requires n <= |conditions|
  {
    if n == 0 then 0
    else
      PriorCount(conditions, n - 1, kind)
      + (if WellFormed(conditions[n - 1]) && TypeOf(conditions[n - 1]) == Some(JStr(kind)) then 1 else 0)
  }

  /** The keys of the well-formed, non-empty conditions before position `n`. */
  function Recorded(conditions: seq<Json>, n: nat, js: Primitives): set<string>
    requires n <= |conditions|
  {
    if n == 0 then {}
    else
      Recorded(conditions, n - 1, js)
      + (if WellFormed(conditions[n - 1]) && !EmptyValue(conditions[n - 1]) then {Key(conditions[n - 1], js)} else {})
  }

  /** "Only one ... condition allowed": a unique type already counted. */
  function UniqueErrors(conditions: seq<Json>, i: nat): seq<ServerError>
    requires i < |conditions|
  {
    var k := UniqueKind(conditions[i]);
    if k.Some? && PriorCount(conditions, i, k.value) >= 1 then [OnlyOne(k.value)] else []
  }

  /** "Duplicate condition": a non-empty condition whose key was recorded. */
  function DuplicateErrors(conditions: seq<Json>, i: nat, js: Primitives): seq<ServerError>
    requires i < |conditions|
  {
    var c := conditions[i];
    if !EmptyValue(c) && Key(c, js) in Recorded(conditions, i, js)
    then [DuplicateCondition(ToStr(TypeOf(c), js), ToStr(OperatorOf(c), js), ToStr(ValueOf(c), js))] else []
  }

  /** "Value is required" for condition number `i + 1`. */
  function ValueErrors(c: Json, i: nat, js: Primitives): seq<ServerError> {
    if EmptyValue(c) then [ValueRequired(i + 1, ToStr(TypeOf(c), js))] else []
  }

  /** "Cart total must be greater than 0" for condition number `i + 1`. */
  function CartTotalErrors(c: Json, i: nat, js: Primitives): seq<ServerError> {
    if !CartTotalOk(c, js) then [CartTotalNotPositive(i + 1)] else []
  }

  /** The errors the condition at position `i` adds, given what went before it. */
  function ErrorsAt(conditions: seq<Json>, i: nat, js: Primitives): seq<ServerError>
    requires i < |conditions|
  {
    var c := conditions[i];
    if !WellFormed(c) then [InvalidStructure(i + 1)]
    else UniqueErrors(conditions, i) + DuplicateErrors(conditions, i, js) + ValueErrors(c, i, js) + CartTotalErrors(c, i, js)
  }

  /** The errors of the first `n` conditions, in order. */
  function ConditionErrors(conditions: seq<Json>, n: nat, js: Primitives): seq<ServerError>
    requires n <= |conditions|
  {
    if n == 0 then [] else ConditionErrors(conditions, n - 1, js) + ErrorsAt(conditions, n - 1, js)
  }

  /** What `typeCount` holds after the first `n` conditions. */
  predicate TypeCounts(conditions: seq<Json>, n: nat, typeCount: map<string, nat>)
    requires n <= |conditions|
  {
    (forall k :: k in typeCount ==> k in UniqueTypes && typeCount[k] == PriorCount(conditions, n, k))
    && (forall k :: k in UniqueTypes && k !in typeCount ==> PriorCount(conditions, n, k) == 0)
  }

  /** What `typeCount` and `conditionMap` hold after the first `n` conditions. */
  predicate Counters(conditions: seq<Json>, n: nat, typeCount: map<string, nat>, conditionMap: set<string>, js: Primitives)
    requires n <= |conditions|
  {
    TypeCounts(conditions, n, typeCount) && conditionMap == Recorded(conditions, n, js)
  }

  /** A well-formed condition of unique type `k` adds one to its count. */
  lemma CountedStep(conditions: seq<Json>, n: nat, typeCount: map<string, nat>, k: string)
    requires n < |conditions| && TypeCounts(conditions, n, typeCount)
    requires WellFormed(conditions[n]) && UniqueKind(conditions[n]) == Some(k)
    ensures TypeCounts(conditions, n + 1, typeCount[k := (if k in typeCount then typeCount[k] else 0) + 1])
  {
  }

  /** Any other condition leaves every count as it was. */
  lemma UncountedStep(conditions: seq<Json>, n: nat, typeCount: map<string, nat>)
    requires n < |conditions| && TypeCounts(conditions, n, typeCount)
    requires !WellFormed(conditions[n]) || UniqueKind(conditions[n]).None?
    ensures TypeCounts(conditions, n + 1, typeCount)
  {
  }

  /** The `forEach` callback on the condition at `index`: the errors it pushes
      and the counters it leaves. */
  method CheckCondition(conditions: seq<Json>, index: nat, typeCount: map<string, nat>, conditionMap: set<string>, js: Primitives)
    returns (step: seq<ServerError>, typeCount': map<string, nat>, conditionMap': set<string>)
    requires index < |conditions| && Counters(conditions, index, typeCount, conditionMap, js)
    ensures step == ErrorsAt(conditions, index, js)
    ensures Counters(conditions, index + 1, typeCount', conditionMap', js)
  {
    var condition := conditions[index];
    typeCount', conditionMap' := typeCount, conditionMap;
    if !WellFormed(condition) {
      UncountedStep(conditions, index, typeCount);
      step := [InvalidStructure(index + 1)];
      return;
    }
    step := [];
    var kind := UniqueKind(condition);
    if kind.Some? {
      var k := kind.value;
      var count := (if k in typeCount then typeCount[k] else 0) + 1;
      CountedStep(conditions, index, typeCount, k);
      typeCount' := typeCount[k := count];
      if count > 1 {
        step := step + [OnlyOne(k)];
      }
    } else {
      UncountedStep(conditions, index, typeCount);
    }
    assert step == UniqueErrors(conditions, index);
    var key := Key(condition, js);
    if !EmptyValue(condition) && key in conditionMap {
      step := step + [DuplicateCondition(ToStr(TypeOf(condition), js), ToStr(OperatorOf(condition), js), ToStr(ValueOf(condition), js))];
    } else if !EmptyValue(condition) {
      conditionMap' := conditionMap + {key};
    }
    assert step == UniqueErrors(conditions, index) + DuplicateErrors(conditions, index, js);
    if EmptyValue(condition) {
      step := step + [ValueRequired(index + 1, ToStr(TypeOf(condition), js))];
    }
    if !CartTotalOk(condition, js) {
      step := step + [CartTotalNotPositive(index + 1)];
    }
  }

  /** `conditions.forEach(...)` with its `typeCount` object and `conditionMap`
      of seen keys. */
  method ValidateConditions(conditions: seq<Json>, js: Primitives) returns (errors: seq<ServerError>)
    ensures errors == ConditionErrors(conditions, |conditions|, js)
  {
    errors := [];
    var typeCount: map<string, nat> := map[];
    var conditionMap: set<string> := {};
    var index := 0;
    while index < |conditions|
      invariant 0 <= index <= |conditions|
      invariant errors == ConditionErrors(conditions, index, js)
      invariant Counters(conditions, index, typeCount, conditionMap, js)
    {
      var step;
      step, typeCount, conditionMap := CheckCondition(conditions, index, typeCount, conditionMap, js);
      errors := errors + step;
      index := index + 1;
    }
  }

  /** The checks on the fields other than the conditions, in the order the handler runs them.
      The message check reads `customizeName.trim()` (not the message), which
      throws when only the message was submitted. */
  function FieldErrors(form: Form, variant: Variant): Result<seq<ServerError>> {
    var shop := if form.shopGid.None? || !StartsWith(form.shopGid.value, ShopPrefix) then [InvalidShop] else [];
    var name := if form.customizeName.None? || IsBlank(form.customizeName.value) then [NameRequired] else [];
    var shipping := if form.shippingMethod.None? || IsBlank(form.shippingMethod.value) then [ShippingMethodRequired] else [];
    if variant == HideShipping then Ok(shop + name + shipping)
    else if form.message.None? || form.message.value == "" then Ok(shop + name + [MessageRequired] + shipping)
    else if form.customizeName.None? then Throws
    else Ok(shop + name + (if IsBlank(form.customizeName.value) then [MessageRequired] else []) + shipping)
  }

  /** `JSON.parse(formData.get("conditions"))`; a missing field parses as "null". */
  function ParseConditions(form: Form, js: Primitives): Option<Json> {
    js.jsonParse(if form.conditions.Some? then form.conditions.value else "null")
  }

  /** All validation errors for a parsed conditions value. */
  function Validation(form: Form, variant: Variant, conditions: Json, js: Primitives): Result<seq<ServerError>> {
    match FieldErrors(form, variant)
    case Throws => Throws
    case Ok(fields) =>
      if !conditions.JArr? || |conditions.items| == 0 then Ok(fields + [ConditionRequired])
      else Ok(fields + ConditionErrors(conditions.items, |conditions.items|, js))
  }

  /** The configuration written to the shop metafield. */
  function MetaConfig(form: Form, variant: Variant, conditions: Json): Json
    requires form.shopGid.Some? && form.customizeName.Some? && form.shippingMethod.Some?
  {
    var base := map[
      "shop" := JStr(form.shopGid.value),
      "customizeName" := JStr(form.customizeName.value),
      "shippingMethodToHide" := JStr(form.shippingMethod.value),
      "conditions" := conditions];
    if variant == HideShipping then JObj(base["type" := JStr("Hide Shipping")])
    else JObj(base["type" := JStr("Rename Shipping Method")]["message" := if form.message.Some? then JStr(form.message.value) else JNull])
  }

  /** The action's answer. `recordExists` is the database lookup of `id`;
      `nameTaken` the lookup of (shop, name). Updating a missing record is a 404
      in the hide-shipping API and a failed save (500) in the shipping-message
      action, whose update has no existence check. */
  function Respond(form: Form, variant: Variant, recordExists: bool, nameTaken: bool, js: Primitives): Result<Response> {
    match ParseConditions(form, js)
    case None => Ok(Rejected(400, [InvalidConditionsFormat]))
    case Some(conditions) =>
      match Validation(form, variant, conditions, js)
      case Throws => Throws
      case Ok(errors) =>
        if |errors| > 0 then Ok(Rejected(400, errors))
        else
          assert form.shopGid.Some? && form.customizeName.Some? && form.shippingMethod.Some?;
          if form.id.Some? && form.id.value != "" then
            if !recordExists then
              Ok(if variant == HideShipping then Rejected(404, [NotFound]) else Rejected(500, [SaveFailed]))
            else Ok(Updated(MetaConfig(form, variant, conditions)))
          else if nameTaken then Ok(Rejected(400, [NameTaken(form.customizeName.value)]))
          else Ok(Created(MetaConfig(form, variant, conditions)))
  }

  /** `action({request})`, in the handler's order of steps. */
  method Action(form: Form, variant: Variant, recordExists: bool, nameTaken: bool, js: Primitives) returns (r: Result<Response>)
    ensures r == Respond(form, variant, recordExists, nameTaken, js)
  {
    var parsed := ParseConditions(form, js);
    if parsed.None? {
      return Ok(Rejected(400, [InvalidConditionsFormat]));
    }
    var conditions := parsed.value;
    var fields := FieldErrors(form, variant);
    if fields.Throws? {
      return Throws;
    }
    var errors := fields.value;
    if !conditions.JArr? || |conditions.items| == 0 {
      errors := errors + [ConditionRequired];
    } else {
      var found := ValidateConditions(conditions.items, js);
      errors := errors + found;
    }
    if |errors| > 0 {
      return Ok(Rejected(400, errors));
    }
    if form.id.Some? && form.id.value != "" {
      if !recordExists {
        if variant == HideShipping {
          return Ok(Rejected(404, [NotFound]));
        }
        return Ok(Rejected(500, [SaveFailed]));
      }
      return Ok(Updated(MetaConfig(form, variant, conditions)));
    }
    if nameTaken {
      return Ok(Rejected(400, [NameTaken(form.customizeName.value)]));
    }
    return Ok(Created(MetaConfig(form, variant, conditions)));
  }

  // ------------------------------------------------------------ properties

  /** The conditions a save accepts, stated globally: every condition is
      well-formed with a non-empty value and a positive cart total, no two
      share a unique type, and no two share a key. */
  predicate Accepted(conditions: seq<Json>, js: Primitives) {
    (forall i :: 0 <= i < |conditions| ==>
      WellFormed(conditions[i]) && !EmptyValue(conditions[i]) && CartTotalOk(conditions[i], js))
    && (forall i, j :: 0 <= i < j < |conditions| && UniqueKind(conditions[i]).Some? ==>
          TypeOf(conditions[i]) != TypeOf(conditions[j]))
    && (forall i, j :: 0 <= i < j < |conditions| ==> Key(conditions[i], js) != Key(conditions[j], js))
  }

  lemma {:induction false} PriorCountPositive(conditions: seq<Json>, n: nat, kind: string)
    requires n <= |conditions|
    ensures PriorCount(conditions, n, kind) >= 1 <==>
      exists j :: 0 <= j < n && WellFormed(conditions[j]) && TypeOf(conditions[j]) == Some(JStr(kind))
  {
    if n > 0 {
      PriorCountPositive(conditions, n - 1, kind);
    }
  }

  lemma {:induction false} RecordedKeys(conditions: seq<Json>, n: nat, js: Primitives, key: string)
    requires n <= |conditions|
    ensures key in Recorded(conditions, n, js) <==>
      exists j :: 0 <= j < n && WellFormed(conditions[j]) && !EmptyValue(conditions[j]) && Key(conditions[j], js) == key
  {
    if n > 0 {
      RecordedKeys(conditions, n - 1, js, key);
    }
  }

  /** `Accepted` on the first `n` conditions. */
  predicate AcceptedPrefix(conditions: seq<Json>, n: nat, js: Primitives)
    requires n <= |conditions|
  {
    (forall i :: 0 <= i < n ==>
      WellFormed(conditions[i]) && !EmptyValue(conditions[i]) && CartTotalOk(conditions[i], js))
    && (forall i, j :: 0 <= i < j < n && UniqueKind(conditions[i]).Some? ==>
          TypeOf(conditions[i]) != TypeOf(conditions[j]))
    && (forall i, j :: 0 <= i < j < n ==> Key(conditions[i], js) != Key(conditions[j], js))
  }

  /** The condition at `i` is fine on its own and clashes with no earlier one. */
  predicate FineAt(conditions: seq<Json>, i: nat, js: Primitives)
    requires i < |conditions|
  {
    var c := conditions[i];
    WellFormed(c) && !EmptyValue(c) && CartTotalOk(c, js)
    && (UniqueKind(c).Some? ==> !exists j :: 0 <= j < i && WellFormed(conditions[j]) && TypeOf(conditions[j]) == TypeOf(c))
    && !exists j :: 0 <= j < i && WellFormed(conditions[j]) && !EmptyValue(conditions[j]) && Key(conditions[j], js) == Key(c, js)
  }

  /** None of the first `n` conditions adds an error. */
  predicate CleanUpTo(conditions: seq<Json>, n: nat, js: Primitives)
    requires n <= |conditions|
    decreases n
  {
    n == 0 || (CleanUpTo(conditions, n - 1, js) && ErrorsAt(conditions, n - 1, js) == [])
  }

  lemma ErrorsAtEmptyIff(conditions: seq<Json>, i: nat, js: Primitives)
    requires i < |conditions|
    ensures ErrorsAt(conditions, i, js) == [] <==> FineAt(conditions, i, js)
  {
    var c := conditions[i];
    if WellFormed(c) {
      if UniqueKind(c).Some? {
        PriorCountPositive(conditions, i, UniqueKind(c).value);
      }
      RecordedKeys(conditions, i, js, Key(c, js));
    }
  }

  lemma {:induction false} AcceptedPrefixStep(conditions: seq<Json>, n: nat, js: Primitives)
    requires 0 < n <= |conditions|
    ensures AcceptedPrefix(conditions, n, js) <==> AcceptedPrefix(conditions, n - 1, js) && FineAt(conditions, n - 1, js)
  {
    hide Key, WellFormed, EmptyValue, CartTotalOk;
    if AcceptedPrefix(conditions, n - 1, js) && FineAt(conditions, n - 1, js) {
      forall i, j | 0 <= i < j < n && UniqueKind(conditions[i]).Some?
        ensures TypeOf(conditions[i]) != TypeOf(conditions[j])
      {
      }
    }
  }

  lemma {:induction false} CleanUpToIffPrefix(conditions: seq<Json>, n: nat, js: Primitives)
    requires n <= |conditions|
    ensures CleanUpTo(conditions, n, js) <==> AcceptedPrefix(conditions, n, js)
  {
    hide ErrorsAt, FineAt;
    if n > 0 {
      CleanUpToIffPrefix(conditions, n - 1, js);
      ErrorsAtEmptyIff(conditions, n - 1, js);
      AcceptedPrefixStep(conditions, n, js);
    }
  }

  lemma ConcatEmpty<T>(a: seq<T>, b: seq<T>)
    ensures a + b == [] <==> a == [] && b == []
  {
    if a + b == [] { assert |a + b| == |a| + |b|; }
  }

  lemma {:induction false} NoErrorsIffCleanUpTo(conditions: seq<Json>, n: nat, js: Primitives)
    requires n <= |conditions|
    ensures ConditionErrors(conditions, n, js) == [] <==> CleanUpTo(conditions, n, js)
  {
    hide ErrorsAt;
    if n == 0 {
      assert CleanUpTo(conditions, 0, js);
      assert ConditionErrors(conditions, 0, js) == [];
    }
    if n > 0 {
      NoErrorsIffCleanUpTo(conditions, n - 1, js);
      var before := ConditionErrors(conditions, n - 1, js);
      var here := ErrorsAt(conditions, n - 1, js);
      assert ConditionErrors(conditions, n, js) == before + here;
      assert CleanUpTo(conditions, n, js) == (CleanUpTo(conditions, n - 1, js) && here == []);
      ConcatEmpty(before, here);
    }
  }

  /** The validation passes exactly on the accepted condition lists. */
  lemma NoErrorsIffAccepted(conditions: seq<Json>, js: Primitives)
    ensures ConditionErrors(conditions, |conditions|, js) == [] <==> Accepted(conditions, js)
  {
    NoErrorsIffCleanUpTo(conditions, |conditions|, js);
    CleanUpToIffPrefix(conditions, |conditions|, js);
  }

  /** A malformed condition adds exactly one structure error and nothing else. */
  lemma MalformedAddsOneError(conditions: seq<Json>, i: nat, js: Primitives)
    requires i < |conditions| && !WellFormed(conditions[i])
    ensures ConditionErrors(conditions, i + 1, js) == ConditionErrors(conditions, i, js) + [InvalidStructure(i + 1)]
  {
  }

  /** An empty value is never a duplicate: two conditions with the same type,
      operator and an empty value give two "value is required" errors and no
      duplicate error. */
  lemma EmptyValuesAreNotDuplicates(kind: string, operator: string, js: Primitives)
    requires kind !in UniqueTypes && kind != "cart_total" && kind != "" && operator != ""
    ensures
      var c := JObj(map["type" := JStr(kind), "operator" := JStr(operator), "value" := JStr("")]);
      ConditionErrors([c, c], 2, js) == [ValueRequired(1, kind), ValueRequired(2, kind)]
  {
    var c := JObj(map["type" := JStr(kind), "operator" := JStr(operator), "value" := JStr("")]);
    assert TypeOf(c) == Some(JStr(kind)) && OperatorOf(c) == Some(JStr(operator)) && ValueOf(c) == Some(JStr(""));
    assert WellFormed(c) && EmptyValue(c) && UniqueKind(c).None? && CartTotalOk(c, js);
    assert ErrorsAt([c, c], 0, js) == [ValueRequired(1, kind)];
    assert ErrorsAt([c, c], 1, js) == [ValueRequired(2, kind)];
    assert ConditionErrors([c, c], 1, js) == [ValueRequired(1, kind)];
  }

  function Count<T(==)>(xs: seq<T>, x: T): nat {
    if |xs| == 0 then 0 else (if xs[0] == x then 1 else 0) + Count(xs[1..], x)
  }

  lemma {:induction false} CountConcat<T>(a: seq<T>, b: seq<T>, x: T)
    ensures Count(a + b, x) == Count(a, x) + Count(b, x)
  {
    if |a| > 0 {
      assert (a + b)[1..] == a[1..] + b;
      CountConcat(a[1..], b, x);
    } else {
      assert a + b == b;
    }
  }

  lemma {:induction false} CountAbsent<T>(xs: seq<T>, x: T)
    requires x !in xs
    ensures Count(xs, x) == 0
  {
    if |xs| > 0 {
      assert xs[0] != x && x !in xs[1..];
      CountAbsent(xs[1..], x);
    }
  }

  /** The condition at `i` adds an "only one" error for `kind` iff it is a
      well-formed condition of that type with an earlier one before it. */
  lemma OnlyOneAt(conditions: seq<Json>, i: nat, kind: string, js: Primitives)
    requires i < |conditions| && kind in UniqueTypes
    ensures Count(ErrorsAt(conditions, i, js), OnlyOne(kind)) ==
      if WellFormed(conditions[i]) && TypeOf(conditions[i]) == Some(JStr(kind)) && PriorCount(conditions, i, kind) >= 1
      then 1 else 0
  {
    var c := conditions[i];
    if WellFormed(c) {
      var a := UniqueErrors(conditions, i);
      var d := DuplicateErrors(conditions, i, js);
      var v := ValueErrors(c, i, js);
      var t := CartTotalErrors(c, i, js);
      CountAbsent(d, OnlyOne(kind));
      CountAbsent(v, OnlyOne(kind));
      CountAbsent(t, OnlyOne(kind));
      CountConcat(a + d + v, t, OnlyOne(kind));
      CountConcat(a + d, v, OnlyOne(kind));
      CountConcat(a, d, OnlyOne(kind));
    }
  }

  /** Each occurrence of a unique type beyond the first adds exactly one
      "only one ... condition" error. */
  lemma {:induction false} ExtraUniqueOccurrencesCounted(conditions: seq<Json>, n: nat, kind: string, js: Primitives)
    requires n <= |conditions| && kind in UniqueTypes
    ensures
      var seen := PriorCount(conditions, n, kind);
      Count(ConditionErrors(conditions, n, js), OnlyOne(kind)) == if seen == 0 then 0 else seen - 1
  {
    hide ErrorsAt;
    if n > 0 {
      var before := ConditionErrors(conditions, n - 1, js);
      var here := ErrorsAt(conditions, n - 1, js);
      assert ConditionErrors(conditions, n, js) == before + here;
      ExtraUniqueOccurrencesCounted(conditions, n - 1, kind, js);
      CountConcat(before, here, OnlyOne(kind));
      OnlyOneAt(conditions, n - 1, kind, js);
      var hit := WellFormed(conditions[n - 1]) && TypeOf(conditions[n - 1]) == Some(JStr(kind));
      assert PriorCount(conditions, n, kind) == PriorCount(conditions, n - 1, kind) + (if hit then 1 else 0);
    }
  }

  /** Any error answers 400 with every accumulated error and saves nothing;
      a create whose (shop, name) exists is refused; an update of a missing
      hide-shipping rule answers 404. */
  lemma SaveOnlyWhenValid(form: Form, variant: Variant, recordExists: bool, nameTaken: bool, js: Primitives, conditions: Json)
    requires ParseConditions(form, js) == Some(conditions)
    requires Validation(form, variant, conditions, js).Ok?
    ensures var errors := Validation(form, variant, conditions, js).value;
      var r := Respond(form, variant, recordExists, nameTaken, js).value;
      (|errors| > 0 ==> r == Rejected(400, errors))
      && ((r.Updated? || r.Created?) ==> errors == [] && conditions.JArr? && Accepted(conditions.items, js))
      && (r.Created? ==> !nameTaken)
      && (r.Updated? ==> recordExists)
      && (variant == HideShipping && errors == [] && form.id.Some? && form.id.value != "" && !recordExists
          ==> r == Rejected(404, [NotFound]))
  {
    hide ConditionErrors, Accepted, MetaConfig;
    var errors := Validation(form, variant, conditions, js).value;
    if errors == [] {
      var fields := FieldErrors(form, variant).value;
      if conditions.JArr? && |conditions.items| > 0 {
        assert ConditionErrors(conditions.items, |conditions.items|, js) == [] by {
          assert errors == fields + ConditionErrors(conditions.items, |conditions.items|, js);
        }
        NoErrorsIffAccepted(conditions.items, js);
      }
    }
  }

  /** The shipping-message action fails only when a message came without a
      name, since its message check reads `customizeName.trim()`. */
  lemma FieldChecksThrow(form: Form, variant: Variant)
    ensures FieldErrors(form, variant).Throws? <==>
      variant == ShippingMessage && form.message.Some? && form.message.value != "" && form.customizeName.None?
  {
    hide IsBlank, StartsWith;
  }

  /** The field checks: the shop id must start with the shop prefix, the name
      and the shipping method must be non-blank; the hide-shipping action asks
      for no message. */
  lemma FieldChecks(form: Form, variant: Variant)
    ensures FieldErrors(form, variant).Ok? ==>
      var e := FieldErrors(form, variant).value;
      (InvalidShop in e <==> form.shopGid.None? || !StartsWith(form.shopGid.value, ShopPrefix))
      && (NameRequired in e <==> form.customizeName.None? || IsBlank(form.customizeName.value))
      && (ShippingMethodRequired in e <==> form.shippingMethod.None? || IsBlank(form.shippingMethod.value))
      && (variant == HideShipping ==> MessageRequired !in e)
      && ConditionRequired !in e
  {
    hide IsBlank, StartsWith;
    var shop := if form.shopGid.None? || !StartsWith(form.shopGid.value, ShopPrefix) then [InvalidShop] else [];
    var name := if form.customizeName.None? || IsBlank(form.customizeName.value) then [NameRequired] else [];
    var shipping := if form.shippingMethod.None? || IsBlank(form.shippingMethod.value) then [ShippingMethodRequired] else [];
    if FieldErrors(form, variant).Ok? {
      var e := FieldErrors(form, variant).value;
      var mid := if variant == HideShipping then []
        else if form.message.None? || form.message.value == "" || IsBlank(form.customizeName.value) then [MessageRequired]
        else [];
      assert e == shop + name + mid + shipping;
      assert forall x :: x in e <==> x in shop || x in name || x in mid || x in shipping;
    }
  }

  lemma NoConditionRequiredAt(conditions: seq<Json>, i: nat, js: Primitives)
    requires i < |conditions|
    ensures ConditionRequired !in ErrorsAt(conditions, i, js)
  {
  }

  lemma {:induction false} NoConditionRequiredInRows(conditions: seq<Json>, n: nat, js: Primitives)
    requires n <= |conditions|
    ensures ConditionRequired !in ConditionErrors(conditions, n, js)
  {
    hide ErrorsAt;
    if n > 0 {
      NoConditionRequiredInRows(conditions, n - 1, js);
      NoConditionRequiredAt(conditions, n - 1, js);
    }
  }

  /** "At least one condition is required" is reported exactly when the
      parsed conditions are not a non-empty array. */
  lemma ConditionsMustBeNonEmptyArray(form: Form, variant: Variant, conditions: Json, js: Primitives)
    requires Validation(form, variant, conditions, js).Ok?
    ensures ConditionRequired in Validation(form, variant, conditions, js).value <==>
      !conditions.JArr? || |conditions.items| == 0
  {
    FieldChecksThrow(form, variant);
    FieldChecks(form, variant);
    if conditions.JArr? && |conditions.items| > 0 {
      NoConditionRequiredInRows(conditions.items, |conditions.items|, js);
    }
  }

  /** An unparseable conditions field is answered with the one format error,
      before any other check. */
  lemma UnparseableConditionsFirst(form: Form, variant: Variant, recordExists: bool, nameTaken: bool, js: Primitives)
    requires ParseConditions(form, js).None?
    ensures Respond(form, variant, recordExists, nameTaken, js) == Ok(Rejected(400, [InvalidConditionsFormat]))
  {
  }

  /** The shipping-message action's message check tests the name, not the
      message: a message of white space only passes it. */
  lemma BlankMessagePassesServer(form: Form)
    requires form.message == Some(" ")
    requires form.customizeName.Some? && !IsBlank(form.customizeName.value)
    ensures FieldErrors(form, ShippingMessage).Ok? && MessageRequired !in FieldErrors(form, ShippingMessage).value
  {
  }
}

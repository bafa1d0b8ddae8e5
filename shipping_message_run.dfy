/** The delivery customization that appends a message to one shipping method's
    title when any configured condition holds for the cart. The configuration
    is the JSON document the shipping-message admin route stores in the shop
    metafield: `shippingMethodToHide`, `conditions` and `message`. */
module ShippingMessageRun {
  import opened Js
  import opened Checkout

  /** A `rename` operation on one delivery option. */
  datatype RenameOp = RenameOp(deliveryOptionHandle: string, title: string)

  const CartTotal := Some(JStr("cart_total"))
  const CustomerTag := Some(JStr("customer_tag"))
  const CustomerType := Some(JStr("customer_type"))
  const ShippingCountry := Some(JStr("shipping_country"))
  const ProductTag := Some(JStr("product_tag"))

  const GreaterThan := Some(JStr("greater_than"))
  const LessThan := Some(JStr("less_than"))
  const Is := Some(JStr("is"))
  const IsNot := Some(JStr("is_not"))

  /** `tags.some(tagInfo => tagInfo.tag === value)`: only the tag names are
      compared; the `hasTag` flag of each response is not read. */
  predicate SomeTagIs(tags: seq<TagResponse>, value: Option<Json>) {
    exists i :: 0 <= i < |tags| && value == Some(JStr(tags[i].tag))
  }

  /** `cart.lines.some(line => line.merchandise?.product?.hasTags?.some(...))`. */
  predicate SomeProductTagIs(lines: seq<CartLine>, value: Option<Json>) {
    exists i :: 0 <= i < |lines| && lines[i].merchandise.ProductVariant?
      && SomeTagIs(lines[i].merchandise.product.hasTags, value)
  }

  /** Applies an `is` / `is_not` operator to a test; any other operator gives false. */
  predicate Polarity(operator: Option<Json>, test: bool) {
    if operator == Is then test else if operator == IsNot then !test else false
  }

  /** The decision of `evaluateCondition` once `type`, `operator` and `value`
      have been read from the condition. */
  predicate Holds(kind: Option<Json>, operator: Option<Json>, value: Option<Json>, cart: Cart, js: Primitives) {
    if kind == CartTotal then
      var total := js.parseFloat(if cart.totalAmount.Some? then cart.totalAmount.value else "0");
      var bound := ParseFloat(value, js);
      if total.None? || bound.None? then false
      else if operator == GreaterThan then total.value > bound.value
      else if operator == LessThan then total.value < bound.value
      else false
    else if kind == CustomerTag || kind == CustomerType then
      cart.buyer.Some? && Polarity(operator, SomeTagIs(cart.buyer.value.hasTags, value))
    else if kind == ShippingCountry then
      var code := if |cart.deliveryGroups| > 0 then cart.deliveryGroups[0].countryCode else None;
      code.Some? && code.value != "" && Polarity(operator, value == Some(JStr(code.value)))
    else if kind == ProductTag then
      |cart.lines| > 0 && Polarity(operator, SomeProductTagIs(cart.lines, value))
    else
      false
  }

  /** `evaluateCondition(condition, cart)`: destructuring a null condition throws. */
  function EvaluateCondition(condition: Json, cart: Cart, js: Primitives): (r: Result<bool>)
    ensures r.Throws? <==> condition == JNull
  {
    if condition == JNull then Throws
    else
      var c := Some(condition);
      Ok(Holds(Get(c, "type"), Get(c, "operator"), Get(c, "value"), cart, js))
  }

  /** The `for ... of` loop with `break`: true at the first condition that
      holds; a condition that throws ends the run. */
  function AnyConditionMet(conditions: seq<Json>, cart: Cart, js: Primitives): Result<bool> {
    if |conditions| == 0 then Ok(false)
    else
      match EvaluateCondition(conditions[0], cart, js)
      case Throws => Throws
      case Ok(true) => Ok(true)
      case Ok(false) => AnyConditionMet(conditions[1..], cart, js)
  }

  /** The renames produced for one delivery group's options. */
  function OptionRenames(options: seq<DeliveryOption>, target: string, message: string): seq<RenameOp> {
    if |options| == 0 then []
    else
      var rest := OptionRenames(options[1..], target, message);
      if options[0].title == target then
        [RenameOp(options[0].handle, options[0].title + " - " + message)] + rest
      else rest
  }

  /** `deliveryGroups.flatMap(group => group.deliveryOptions.filter(...).map(...))`. */
  function Renames(groups: seq<DeliveryGroup>, target: string, message: string): seq<RenameOp> {
    if |groups| == 0 then []
    else OptionRenames(groups[0].deliveryOptions, target, message) + Renames(groups[1..], target, message)
  }

  /** The operations `run` returns; `Throws` when the run fails with an error. */
  function Outcome(input: Input, js: Primitives): Result<seq<RenameOp>> {
    if MissingConfig(input) then Ok([])
    else
      match js.jsonParse(input.metafield.value)
      case None => Ok([])
      case Some(config) =>
        if config == JNull then Throws
        else
          var target := Get(Some(config), "shippingMethodToHide");
          var conditions := Get(Some(config), "conditions");
          if !(target.Some? && target.value.JStr? && target.value.s != "") || !IsArray(conditions) then Ok([])
          else
            match AnyConditionMet(conditions.value.items, input.cart, js)
            case Throws => Throws
            case Ok(false) => Ok([])
            case Ok(true) =>
              Ok(Renames(input.cart.deliveryGroups, target.value.s, ToStr(Get(Some(config), "message"), js)))
  }

  /** `run(input)`, step by step as the JavaScript does it. */
  method Run(input: Input, js: Primitives) returns (r: Result<seq<RenameOp>>)
    ensures r == Outcome(input, js)
  {
    if MissingConfig(input) {
      return Ok([]);
    }
    var parsed := js.jsonParse(input.metafield.value);
    if parsed.None? {
      return Ok([]);
    }
    var config := parsed.value;
    if config == JNull {
      return Throws;
    }
    var target := Get(Some(config), "shippingMethodToHide");
    var conditions := Get(Some(config), "conditions");
    var message := Get(Some(config), "message");
    if !(target.Some? && target.value.JStr? && target.value.s != "") || !IsArray(conditions) {
      return Ok([]);
    }
    var items := conditions.value.items;
    var shouldHide := false;
    var i := 0;
    while i < |items|
      invariant 0 <= i <= |items|
      invariant !shouldHide
      invariant AnyConditionMet(items, input.cart, js) == AnyConditionMet(items[i..], input.cart, js)
    {
      var met := EvaluateCondition(items[i], input.cart, js);
      assert items[i..][0] == items[i] && items[i..][1..] == items[i + 1..];
      if met.Throws? {
        return Throws;
      }
      if met.value {
        shouldHide := true;
        break;
      }
      i := i + 1;
    }
    if shouldHide {
      var operations := Renames(input.cart.deliveryGroups, target.value.s, ToStr(message, js));
      if |operations| > 0 {
        return Ok(operations);
      }
      return Ok([]);
    }
    return Ok([]);
  }

  // ------------------------------------------------------------ properties

  /** The conditions are OR-ed: with no null among them, the loop reports
      whether at least one holds. */
  lemma {:induction false} AnyConditionMetIsDisjunction(conditions: seq<Json>, cart: Cart, js: Primitives)
    requires forall i :: 0 <= i < |conditions| ==> conditions[i] != JNull
    ensures AnyConditionMet(conditions, cart, js)
         == Ok(exists i :: 0 <= i < |conditions| && EvaluateCondition(conditions[i], cart, js) == Ok(true))
  {
    if |conditions| > 0 {
      AnyConditionMetIsDisjunction(conditions[1..], cart, js);
      forall i | 1 <= i < |conditions| ensures conditions[1..][i - 1] == conditions[i] { }
    }
  }

  /** A null condition ends the run only when no earlier condition holds. */
  lemma {:induction false} AnyConditionMetThrows(conditions: seq<Json>, cart: Cart, js: Primitives)
    ensures AnyConditionMet(conditions, cart, js).Throws? <==>
      exists k :: 0 <= k < |conditions| && conditions[k] == JNull &&
        forall j :: 0 <= j < k ==> EvaluateCondition(conditions[j], cart, js) == Ok(false)
  {
    if |conditions| > 0 {
      AnyConditionMetThrows(conditions[1..], cart, js);
      var e := EvaluateCondition(conditions[0], cart, js);
      if e == Ok(false) {
        forall k | 1 <= k < |conditions| ensures conditions[1..][k - 1] == conditions[k] { }
        if AnyConditionMet(conditions[1..], cart, js).Throws? {
          var k :| 0 <= k < |conditions[1..]| && conditions[1..][k] == JNull &&
            forall j :: 0 <= j < k ==> EvaluateCondition(conditions[1..][j], cart, js) == Ok(false);
          assert forall j :: 0 <= j < k + 1 ==> EvaluateCondition(conditions[j], cart, js) == Ok(false) by {
            forall j | 0 <= j < k + 1 ensures EvaluateCondition(conditions[j], cart, js) == Ok(false) {
              if j > 0 { assert conditions[j] == conditions[1..][j - 1]; }
            }
          }
        }
        if exists k :: 0 <= k < |conditions| && conditions[k] == JNull &&
             forall j :: 0 <= j < k ==> EvaluateCondition(conditions[j], cart, js) == Ok(false) {
          var k :| 0 <= k < |conditions| && conditions[k] == JNull &&
            forall j :: 0 <= j < k ==> EvaluateCondition(conditions[j], cart, js) == Ok(false);
          assert k > 0;
          assert conditions[1..][k - 1] == JNull;
          assert forall j :: 0 <= j < k - 1 ==> EvaluateCondition(conditions[1..][j], cart, js) == Ok(false) by {
            forall j | 0 <= j < k - 1 ensures EvaluateCondition(conditions[1..][j], cart, js) == Ok(false) {
              assert conditions[1..][j] == conditions[j + 1];
            }
          }
        }
      }
    }
  }

  /** The loop reports a match only when some condition evaluates to true. */
  lemma {:induction false} AnyConditionMetWitness(conditions: seq<Json>, cart: Cart, js: Primitives)
    requires AnyConditionMet(conditions, cart, js) == Ok(true)
    ensures exists i :: 0 <= i < |conditions| && EvaluateCondition(conditions[i], cart, js) == Ok(true)
  {
    if EvaluateCondition(conditions[0], cart, js) != Ok(true) {
      AnyConditionMetWitness(conditions[1..], cart, js);
      var i :| 0 <= i < |conditions[1..]| && EvaluateCondition(conditions[1..][i], cart, js) == Ok(true);
      assert conditions[1..][i] == conditions[i + 1];
    }
  }

  /** The run fails only on a configuration that parses to `null`, or on one
      of the right shape whose conditions hold a `null`; a missing or
      unreadable metafield, a target that is not a non-empty string and
      conditions that are not an array all give no operations. */
  lemma OnlyNullsThrow(input: Input, js: Primitives)
    ensures Outcome(input, js).Throws? ==>
      !MissingConfig(input) && js.jsonParse(input.metafield.value).Some?
      && (js.jsonParse(input.metafield.value).value == JNull
          || (IsArray(Get(js.jsonParse(input.metafield.value), "conditions"))
              && JNull in Get(js.jsonParse(input.metafield.value), "conditions").value.items))
  {
    if Outcome(input, js).Throws? && js.jsonParse(input.metafield.value).value != JNull {
      var items := Get(js.jsonParse(input.metafield.value), "conditions").value.items;
      AnyConditionMetThrows(items, input.cart, js);
    }
  }

  /** Every operation comes from a run in which some condition held, and
      renames an option titled with the configured target. */
  lemma OperationsNeedAMatch(input: Input, js: Primitives, op: RenameOp)
    requires Outcome(input, js).Ok? && op in Outcome(input, js).value
    ensures !MissingConfig(input) && js.jsonParse(input.metafield.value).Some?
    ensures var config := js.jsonParse(input.metafield.value);
      var conditions := Get(config, "conditions");
      var target := Get(config, "shippingMethodToHide");
      IsArray(conditions) && target.Some? && target.value.JStr?
      && (exists i :: 0 <= i < |conditions.value.items| && EvaluateCondition(conditions.value.items[i], input.cart, js) == Ok(true))
      && exists g, k :: 0 <= g < |input.cart.deliveryGroups| && 0 <= k < |input.cart.deliveryGroups[g].deliveryOptions|
           && input.cart.deliveryGroups[g].deliveryOptions[k].title == target.value.s
           && op.deliveryOptionHandle == input.cart.deliveryGroups[g].deliveryOptions[k].handle
  {
    var config := js.jsonParse(input.metafield.value);
    var conditions := Get(config, "conditions");
    var target := Get(config, "shippingMethodToHide").value.s;
    var message := ToStr(Get(config, "message"), js);
    AnyConditionMetWitness(conditions.value.items, input.cart, js);
    RenamesAreMatchingOptions(input.cart.deliveryGroups, target, message, op);
  }

  /** The renames are exactly the options titled with the target, in every
      delivery group, each keeping its handle and getting the message appended. */
  lemma {:induction false} RenamesAreMatchingOptions(groups: seq<DeliveryGroup>, target: string, message: string, op: RenameOp)
    ensures op in Renames(groups, target, message) <==>
      exists g, k :: 0 <= g < |groups| && 0 <= k < |groups[g].deliveryOptions|
        && groups[g].deliveryOptions[k].title == target
        && op == RenameOp(groups[g].deliveryOptions[k].handle, target + " - " + message)
  {
    if |groups| > 0 {
      RenamesAreMatchingOptions(groups[1..], target, message, op);
      OptionRenamesAreMatching(groups[0].deliveryOptions, target, message, op);
      if exists g, k :: 0 <= g < |groups| && 0 <= k < |groups[g].deliveryOptions|
          && groups[g].deliveryOptions[k].title == target
          && op == RenameOp(groups[g].deliveryOptions[k].handle, target + " - " + message) {
        var g, k :| 0 <= g < |groups| && 0 <= k < |groups[g].deliveryOptions|
          && groups[g].deliveryOptions[k].title == target
          && op == RenameOp(groups[g].deliveryOptions[k].handle, target + " - " + message);
        if g > 0 { assert groups[1..][g - 1] == groups[g]; }
      }
    }
  }

  lemma {:induction false} OptionRenamesAreMatching(options: seq<DeliveryOption>, target: string, message: string, op: RenameOp)
    ensures op in OptionRenames(options, target, message) <==>
      exists k :: 0 <= k < |options| && options[k].title == target
        && op == RenameOp(options[k].handle, target + " - " + message)
  {
    if |options| > 0 {
      OptionRenamesAreMatching(options[1..], target, message, op);
      if exists k :: 0 <= k < |options| && options[k].title == target
          && op == RenameOp(options[k].handle, target + " - " + message) {
        var k :| 0 <= k < |options| && options[k].title == target
          && op == RenameOp(options[k].handle, target + " - " + message);
        if k > 0 { assert options[1..][k - 1] == options[k]; }
      }
    }
  }

  /** Every option titled with the target is renamed, one operation each. */
  lemma {:induction false} RenamesCount(groups: seq<DeliveryGroup>, target: string, message: string)
    ensures |Renames(groups, target, message)| == MatchingOptions(groups, target)
  {
    if |groups| > 0 {
      OptionRenamesCount(groups[0].deliveryOptions, target, message);
      RenamesCount(groups[1..], target, message);
    }
  }

  lemma {:induction false} OptionRenamesCount(options: seq<DeliveryOption>, target: string, message: string)
    ensures |OptionRenames(options, target, message)| == MatchingTitles(options, target)
  {
    if |options| > 0 {
      OptionRenamesCount(options[1..], target, message);
    }
  }

  /** The number of options titled `target` in one group. */
  function MatchingTitles(options: seq<DeliveryOption>, target: string): nat {
    if |options| == 0 then 0
    else (if options[0].title == target then 1 else 0) + MatchingTitles(options[1..], target)
  }

  /** The number of options titled `target` over all groups. */
  function MatchingOptions(groups: seq<DeliveryGroup>, target: string): nat {
    if |groups| == 0 then 0
    else MatchingTitles(groups[0].deliveryOptions, target) + MatchingOptions(groups[1..], target)
  }

  /** A cart-total condition compares strictly: at a total equal to the bound
      neither `greater_than` nor `less_than` holds, and never both hold. */
  lemma CartTotalIsStrict(value: Option<Json>, cart: Cart, js: Primitives)
    ensures !(Holds(CartTotal, GreaterThan, value, cart, js) && Holds(CartTotal, LessThan, value, cart, js))
    ensures js.parseFloat(if cart.totalAmount.Some? then cart.totalAmount.value else "0") == ParseFloat(value, js)
        ==> !Holds(CartTotal, GreaterThan, value, cart, js) && !Holds(CartTotal, LessThan, value, cart, js)
  {
  }

  /** Tag conditions read only tag names: two customers whose queried tags have
      the same names get the same answer whatever the `hasTag` flags say. */
  lemma {:induction false} TagFlagsAreIgnored(kind: Option<Json>, operator: Option<Json>, value: Option<Json>, cart: Cart, other: seq<TagResponse>, js: Primitives)
    requires kind == CustomerTag || kind == CustomerType
    requires cart.buyer.Some?
    requires |other| == |cart.buyer.value.hasTags|
    requires forall i :: 0 <= i < |other| ==> other[i].tag == cart.buyer.value.hasTags[i].tag
    ensures Holds(kind, operator, value, cart, js) == Holds(kind, operator, value, cart.(buyer := Some(Customer(other))), js)
  {
    assert SomeTagIs(other, value) == SomeTagIs(cart.buyer.value.hasTags, value) by {
      if SomeTagIs(other, value) {
        var i :| 0 <= i < |other| && value == Some(JStr(other[i].tag));
        assert value == Some(JStr(cart.buyer.value.hasTags[i].tag));
      }
      if SomeTagIs(cart.buyer.value.hasTags, value) {
        var i :| 0 <= i < |cart.buyer.value.hasTags| && value == Some(JStr(cart.buyer.value.hasTags[i].tag));
        assert value == Some(JStr(other[i].tag));
      }
    }
  }

  /** The `is` and `is_not` forms of a condition are complements whenever the
      guard of its type passes; when it fails, both are false. */
  lemma OperatorsAreComplements(kind: Option<Json>, value: Option<Json>, cart: Cart, js: Primitives)
    requires kind in {CustomerTag, CustomerType, ShippingCountry, ProductTag}
    ensures
      var guard :=
        if kind == ShippingCountry then
          |cart.deliveryGroups| > 0 && cart.deliveryGroups[0].countryCode.Some?
            && cart.deliveryGroups[0].countryCode.value != ""
        else if kind == ProductTag then |cart.lines| > 0
        else cart.buyer.Some?;
      if guard then Holds(kind, Is, value, cart, js) == !Holds(kind, IsNot, value, cart, js)
      else !Holds(kind, Is, value, cart, js) && !Holds(kind, IsNot, value, cart, js)
  {
  }

  /** An unknown condition type, or an operator its type does not support, never holds. */
  lemma UnsupportedNeverHolds(kind: Option<Json>, operator: Option<Json>, value: Option<Json>, cart: Cart, js: Primitives)
    requires kind !in {CartTotal, CustomerTag, CustomerType, ShippingCountry, ProductTag}
          || (kind == CartTotal && operator !in {GreaterThan, LessThan})
          || (kind != CartTotal && operator !in {Is, IsNot})
    ensures !Holds(kind, operator, value, cart, js)
  {
  }

  /** With a configuration that has no conditions, nothing is ever renamed. */
  lemma EmptyConditionsChangeNothing(input: Input, js: Primitives)
    requires !MissingConfig(input)
    requires js.jsonParse(input.metafield.value).Some?
    requires Get(js.jsonParse(input.metafield.value), "conditions") == Some(JArr([]))
    ensures Outcome(input, js) == Ok([])
  {
  }

  /** With no `message` in the configuration, the appended text is "undefined". */
  lemma MissingMessageAppendsUndefined(input: Input, js: Primitives, op: RenameOp)
    requires !MissingConfig(input)
    requires js.jsonParse(input.metafield.value).Some?
    requires Get(js.jsonParse(input.metafield.value), "message").None?
    requires Outcome(input, js).Ok? && op in Outcome(input, js).value
    ensures exists t :: op.title == t + " - undefined"
  {
    var config := js.jsonParse(input.metafield.value).value;
    var target := Get(Some(config), "shippingMethodToHide").value.s;
    assert Outcome(input, js).value == Renames(input.cart.deliveryGroups, target, "undefined");
    RenamesAreMatchingOptions(input.cart.deliveryGroups, target, "undefined", op);
    assert op.title == target + " - undefined";
  }
}

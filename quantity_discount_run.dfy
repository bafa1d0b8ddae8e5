/** The product discount that gives every cart line the same percentage once
    the total item quantity reaches one of two configured thresholds. Its
    configuration is `{thresholdHigh, discountHigh, thresholdLow, discountLow}`. */
module QuantityDiscountRun {
  import opened Js
  import opened Checkout

  /** One discount: the targeted variant (`None` for a custom product, which
      has no variant id), the percentage (`None` when it is NaN) and the message. */
  datatype Discount = Discount(variantId: Option<string>, percentage: Option<real>, message: string)

  datatype DiscountResult = DiscountResult(strategy: string, discounts: seq<Discount>)

  const First := "FIRST"

  /** `lines.reduce((sum, line) => sum + line.quantity, acc)`. */
  function SumFrom(lines: seq<CartLine>, acc: int): int {
    if |lines| == 0 then acc else SumFrom(lines[1..], acc + lines[0].quantity)
  }

  /** The total item quantity, as an independent right-to-left sum. */
  function QuantitySum(lines: seq<CartLine>): int {
    if |lines| == 0 then 0 else QuantitySum(lines[..|lines| - 1]) + lines[|lines| - 1].quantity
  }

  /** The left fold the JavaScript runs adds up exactly the line quantities. */
  lemma {:induction false} ReduceIsSum(lines: seq<CartLine>, acc: int)
    ensures SumFrom(lines, acc) == acc + QuantitySum(lines)
  {
    if |lines| > 0 {
      ReduceIsSum(lines[1..], acc + lines[0].quantity);
      QuantitySumFront(lines);
    }
  }

  lemma {:induction false} QuantitySumFront(lines: seq<CartLine>)
    requires |lines| > 0
    ensures QuantitySum(lines) == lines[0].quantity + QuantitySum(lines[1..])
    decreases |lines|
  {
    if |lines| > 1 {
      var init := lines[..|lines| - 1];
      QuantitySumFront(init);
      assert init[1..] == lines[1..][..|lines[1..]| - 1];
      assert init[0] == lines[0];
    } else {
      assert lines[..0] == [] && lines[1..] == [];
    }
  }

  /** `total >= config[key]`, with the threshold converted by `Number`. */
  predicate Reaches(total: int, config: Json, key: string, js: Primitives) {
    Ge(Some(total as real), ToNumber(Get(Some(config), key), js))
  }

  /** The if/else ladder: the high tier is tried first; `Some(JNum(0.0))` is the
      initial `discount = 0`. */
  function ChosenDiscount(total: int, config: Json, js: Primitives): (d: Option<Json>)
    ensures Reaches(total, config, "thresholdHigh", js) ==> d == Get(Some(config), "discountHigh")
    ensures !Reaches(total, config, "thresholdHigh", js) && Reaches(total, config, "thresholdLow", js) ==>
      d == Get(Some(config), "discountLow")
    ensures !Reaches(total, config, "thresholdHigh", js) && !Reaches(total, config, "thresholdLow", js) ==>
      d == Some(JNum(0.0))
  {
    if Reaches(total, config, "thresholdHigh", js) then Get(Some(config), "discountHigh")
    else if Reaches(total, config, "thresholdLow", js) then Get(Some(config), "discountLow")
    else Some(JNum(0.0))
  }

  /** More items never fall to a lower tier: a cart that reaches the high
      threshold keeps `discountHigh` when it grows, and one that reaches
      neither threshold had reached neither when it was smaller. */
  lemma MoreItemsNeverLowerTier(total: int, larger: int, config: Json, js: Primitives)
    requires total <= larger
    ensures Reaches(total, config, "thresholdLow", js) ==> Reaches(larger, config, "thresholdLow", js)
    ensures Reaches(total, config, "thresholdHigh", js) ==>
      ChosenDiscount(larger, config, js) == Get(Some(config), "discountHigh")
    ensures !Reaches(larger, config, "thresholdHigh", js) && !Reaches(larger, config, "thresholdLow", js) ==>
      ChosenDiscount(total, config, js) == Some(JNum(0.0))
  {
  }

  /** `discount * 100`. */
  function Percentage(discount: Option<Json>, js: Primitives): Option<real> {
    match ToNumber(discount, js)
    case None => None
    case Some(x) => Some(x * 100.0)
  }

  /** `String(n)` for a number that may be NaN. */
  function NumberText(n: Option<real>, js: Primitives): string {
    if n.None? then "NaN" else js.numberToString(n.value)
  }

  /** The `map` over lines: one discount per line, in order. */
  function LineDiscounts(lines: seq<CartLine>, percentage: Option<real>, js: Primitives): (ds: seq<Discount>)
    ensures |ds| == |lines|
    ensures forall i :: 0 <= i < |lines| ==>
      ds[i].variantId == (if lines[i].merchandise.ProductVariant? then Some(lines[i].merchandise.id) else None)
    ensures forall i :: 0 <= i < |lines| ==> ds[i].percentage == percentage
    ensures forall i :: 0 <= i < |lines| ==>
      ds[i].message == "You have received a " + NumberText(percentage, js) + "% discount!"
  {
    if |lines| == 0 then []
    else
      var m := lines[0].merchandise;
      var d := Discount(if m.ProductVariant? then Some(m.id) else None, percentage,
        "You have received a " + NumberText(percentage, js) + "% discount!");
      var rest := LineDiscounts(lines[1..], percentage, js);
      assert forall i :: 1 <= i < |lines| ==> lines[1..][i - 1] == lines[i];
      [d] + rest
  }

  /** `run(input)`. Nothing is caught: a missing metafield, invalid JSON or a
      null document make the run fail. */
  function Run(input: Input, js: Primitives): (r: Result<DiscountResult>)
    ensures r.Ok? ==> r.value.strategy == First
    ensures input.metafield.None? ==> r.Throws?
  {
    if input.metafield.None? then Throws
    else
      match js.jsonParse(input.metafield.value)
      case None => Throws
      case Some(config) =>
        if config == JNull then Throws
        else
          var total := SumFrom(input.cart.lines, 0);
          var discount := ChosenDiscount(total, config, js);
          if discount == Some(JNum(0.0)) then Ok(DiscountResult(First, []))
          else Ok(DiscountResult(First, LineDiscounts(input.cart.lines, Percentage(discount, js), js)))
  }

  /** The decision is made on the sum of the line quantities, the high tier
      first; a zero discount yields no discounts and any other yields exactly one
      per line. */
  lemma RunOnObjectConfig(input: Input, js: Primitives, config: Json)
    requires input.metafield.Some? && js.jsonParse(input.metafield.value) == Some(config) && config.JObj?
    ensures
      var discount := ChosenDiscount(QuantitySum(input.cart.lines), config, js);
      Run(input, js) == Ok(DiscountResult(First,
        if discount == Some(JNum(0.0)) then [] else LineDiscounts(input.cart.lines, Percentage(discount, js), js)))
  {
    ReduceIsSum(input.cart.lines, 0);
  }

  /** The tiers of an example configuration (5 items: 5%, 10 items: 10%). */
  lemma ExampleTiers(js: Primitives)
    ensures
      var config := JObj(map["thresholdHigh" := JNum(10.0), "discountHigh" := JNum(0.10),
                             "thresholdLow" := JNum(5.0), "discountLow" := JNum(0.05)]);
      Percentage(ChosenDiscount(4, config, js), js) == Some(0.0) && ChosenDiscount(4, config, js) == Some(JNum(0.0)) &&
      Percentage(ChosenDiscount(7, config, js), js) == Some(5.0) &&
      Percentage(ChosenDiscount(12, config, js), js) == Some(10.0)
  {
  }

  /** A `null` discount is not `0`, so it still produces a discount on every
      line, of zero percent. */
  lemma NullDiscountIsApplied(input: Input, js: Primitives, config: Json)
    requires input.metafield.Some? && js.jsonParse(input.metafield.value) == Some(config) && config.JObj?
    requires "thresholdLow" in config.fields && config.fields["thresholdLow"] == JNum(0.0)
    requires "thresholdHigh" !in config.fields
    requires "discountLow" in config.fields && config.fields["discountLow"] == JNull
    requires forall i :: 0 <= i < |input.cart.lines| ==> input.cart.lines[i].quantity >= 0
    ensures Run(input, js).Ok? && |Run(input, js).value.discounts| == |input.cart.lines|
    ensures forall i :: 0 <= i < |input.cart.lines| ==> Run(input, js).value.discounts[i].percentage == Some(0.0)
  {
    NonNegativeSum(input.cart.lines);
    RunOnObjectConfig(input, js, config);
  }

  lemma {:induction false} NonNegativeSum(lines: seq<CartLine>)
    requires forall i :: 0 <= i < |lines| ==> lines[i].quantity >= 0
    ensures QuantitySum(lines) >= 0
  {
    if |lines| > 0 {
      NonNegativeSum(lines[..|lines| - 1]);
    }
  }
}

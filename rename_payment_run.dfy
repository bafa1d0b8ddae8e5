/** The payment customization that renames the configured payment method.
    Its configuration is `{shopId, customizeName, paymentMethod, newName}`. */
module RenamePaymentRun {
  import opened Js
  import opened Checkout

  /** A `rename` operation; `name` is whatever `newName` held, so it may be any
      JSON value or undefined. */
  datatype RenameOp = RenameOp(paymentMethodId: string, name: Option<Json>)

  /** The two `map`s: a payment method whose name is exactly `paymentMethod`
      takes `newName`; every other method keeps its name. */
  function RenameAll(methods: seq<PaymentMethod>, paymentMethod: Option<Json>, newName: Option<Json>): (ops: seq<RenameOp>)
    ensures |ops| == |methods|
    ensures forall i :: 0 <= i < |methods| ==> ops[i].paymentMethodId == methods[i].id
    ensures forall i :: 0 <= i < |methods| ==>
      (ops[i].name == newName <== paymentMethod == Some(JStr(methods[i].name)))
    ensures forall i :: 0 <= i < |methods| ==>
      (paymentMethod != Some(JStr(methods[i].name)) ==> ops[i].name == Some(JStr(methods[i].name)))
  {
    if |methods| == 0 then []
    else
      var m := methods[0];
      var op := if paymentMethod == Some(JStr(m.name)) then RenameOp(m.id, newName) else RenameOp(m.id, Some(JStr(m.name)));
      var rest := RenameAll(methods[1..], paymentMethod, newName);
      assert forall i :: 1 <= i < |methods| ==> methods[1..][i - 1] == methods[i];
      [op] + rest
  }

  /** `run(input)`. Nothing is caught: a missing metafield, invalid JSON or a
      null document make the run fail. */
  function Run(input: Input, js: Primitives): (r: Result<seq<RenameOp>>)
    ensures input.metafield.None? ==> r.Throws?
    ensures input.metafield.Some? && js.jsonParse(input.metafield.value).None? ==> r.Throws?
  {
    if input.metafield.None? then Throws
    else
      match js.jsonParse(input.metafield.value)
      case None => Throws
      case Some(parsed) =>
        if parsed == JNull then Throws
        else Ok(RenameAll(input.paymentMethods, Get(Some(parsed), "paymentMethod"), Get(Some(parsed), "newName")))
  }

  /** A parsed object configuration always succeeds, with one operation per
      payment method, in order, keeping each id, and the new name exactly on
      the methods whose name equals the configured one. */
  lemma RunOnObjectConfig(input: Input, js: Primitives, fields: map<string, Json>)
    requires input.metafield.Some? && js.jsonParse(input.metafield.value) == Some(JObj(fields))
    ensures Run(input, js).Ok?
    ensures |Run(input, js).value| == |input.paymentMethods|
    ensures forall i :: 0 <= i < |input.paymentMethods| ==>
      Run(input, js).value[i].paymentMethodId == input.paymentMethods[i].id
  {
  }

  /** When the new name differs from every method's current name, a method is
      renamed iff its name is exactly the configured one. */
  lemma {:induction false} RenamedIffNameMatches(methods: seq<PaymentMethod>, paymentMethod: string, newName: string, i: int)
    requires 0 <= i < |methods|
    requires forall k :: 0 <= k < |methods| ==> methods[k].name != newName
    ensures RenameAll(methods, Some(JStr(paymentMethod)), Some(JStr(newName)))[i].name == Some(JStr(newName))
        <==> methods[i].name == paymentMethod
  {
    var ops := RenameAll(methods, Some(JStr(paymentMethod)), Some(JStr(newName)));
    if methods[i].name != paymentMethod {
      assert ops[i].name == Some(JStr(methods[i].name));
    }
  }
}

/** The admin pages that edit a shipping rule (hide a shipping method, or add
    a message to one): the client-side `validateForm`, the condition list
    editor `ConditionBuilder` and the summary text of a condition. Both pages
    carry the same editor; the shipping-message page also checks the message. */
module ShippingRuleForm {
  import opened Js
  import Server = ShippingRuleServer

  /** One condition as the form holds it; every field is a string. */
  datatype Condition = Condition(condType: string, operator: string, value: string)

  datatype Field = TypeField | OperatorField | ValueField

  /** The alert the editor shows when it refuses an edit. */
  datatype Alert = OnlyOneAllowed(condType: string) | DuplicateNotAllowed

  /** The client-side messages; positions are 1-based. */
  datatype ClientError =
    | NameRequired
    | ShippingMethodRequired
    | MessageRequired
    | OnlyOne(condType: string)
    | DuplicateAt(position: nat)
    | ValueRequired(position: nat)
    | CartTotalNotPositive

  /** The condition a new row starts with. */
  const DefaultCondition := Condition("cart_total", "greater_than", "")

  function WithField(c: Condition, field: Field, v: string): (r: Condition)
    ensures field == TypeField ==> r.condType == v && r.operator == c.operator && r.value == c.value
    ensures field == OperatorField ==> r.operator == v && r.condType == c.condType && r.value == c.value
    ensures field == ValueField ==> r.value == v && r.condType == c.condType && r.operator == c.operator
  {
    match field
    case TypeField => c.(condType := v)
    case OperatorField => c.(operator := v)
    case ValueField => c.(value := v)
  }

  /** `${type}-${operator}-${value}`. */
  function Key(c: Condition): string {
    c.condType + "-" + c.operator + "-" + c.value
  }

  /** How many of the first `n` conditions have type `kind`. */
  function TypeCount(conditions: seq<Condition>, n: nat, kind: string): nat
    requires n <= |conditions|
  {
    if n == 0 then 0
    else TypeCount(conditions, n - 1, kind) + (if conditions[n - 1].condType == kind then 1 else 0)
  }

  /** The first loop of `validateForm`: one error per extra occurrence of a unique type. */
  function OnlyOneErrors(conditions: seq<Condition>, n: nat): seq<ClientError>
    requires n <= |conditions|
  {
    if n == 0 then []
    else
      var c := conditions[n - 1];
      OnlyOneErrors(conditions, n - 1)
      + (if c.condType in Server.UniqueTypes && TypeCount(conditions, n - 1, c.condType) >= 1 then [OnlyOne(c.condType)] else [])
  }

  /** The keys of the first `i` conditions. */
  function KeysBefore(conditions: seq<Condition>, i: nat): set<string>
    requires i <= |conditions|
  {
    set j | 0 <= j < i :: Key(conditions[j])
  }

  /** The errors the second loop reports for the condition at `i`. A repeated
      key is a duplicate even when the value is empty; a cart total that does
      not parse passes. */
  function RowErrorsAt(conditions: seq<Condition>, i: nat, js: Primitives): seq<ClientError>
    requires i < |conditions|
  {
    var c := conditions[i];
    (if Key(c) in KeysBefore(conditions, i) then [DuplicateAt(i + 1)] else [])
    + (if c.value == "" then [ValueRequired(i + 1)] else [])
    + (if c.condType == "cart_total" && Le(js.parseFloat(c.value), Some(0.0)) then [CartTotalNotPositive] else [])
  }

  function RowErrors(conditions: seq<Condition>, n: nat, js: Primitives): seq<ClientError>
    requires n <= |conditions|
  {
    if n == 0 then [] else RowErrors(conditions, n - 1, js) + RowErrorsAt(conditions, n - 1, js)
  }

  /** The checks on the name, the shipping method and, on the shipping-message
      page, the message; each must be non-blank. */
  function HeaderErrors(variant: Server.Variant, customizeName: string, shippingMethod: string, message: string): seq<ClientError> {
    (if IsBlank(customizeName) then [NameRequired] else [])
    + (if IsBlank(shippingMethod) then [ShippingMethodRequired] else [])
    + (if variant == Server.ShippingMessage && IsBlank(message) then [MessageRequired] else [])
  }

  /** All errors `validateForm` returns, in order. */
  function FormErrors(variant: Server.Variant, customizeName: string, shippingMethod: string, message: string,
                      conditions: seq<Condition>, js: Primitives): seq<ClientError> {
    HeaderErrors(variant, customizeName, shippingMethod, message)
    + OnlyOneErrors(conditions, |conditions|) + RowErrors(conditions, |conditions|, js)
  }

  /** `validateForm()`: the header checks, then its two `forEach` loops. */
  method ValidateForm(variant: Server.Variant, customizeName: string, shippingMethod: string, message: string,
                      conditions: seq<Condition>, js: Primitives) returns (errors: seq<ClientError>)
    ensures errors == FormErrors(variant, customizeName, shippingMethod, message, conditions, js)
  {
    hide OnlyOneErrors, RowErrors, IsBlank;
    errors := [];
    if IsBlank(customizeName) {
      errors := errors + [NameRequired];
    }
    if IsBlank(shippingMethod) {
      errors := errors + [ShippingMethodRequired];
    }
    if variant == Server.ShippingMessage && IsBlank(message) {
      errors := errors + [MessageRequired];
    }
    assert errors == HeaderErrors(variant, customizeName, shippingMethod, message);
    var unique := CheckUniqueTypes(conditions);
    var rows := CheckRows(conditions, js);
    errors := errors + unique + rows;
  }

  /** The first loop: counts the unique types in `typeCount`. */
  method CheckUniqueTypes(conditions: seq<Condition>) returns (errors: seq<ClientError>)
    ensures errors == OnlyOneErrors(conditions, |conditions|)
  {
    errors := [];
    var typeCount: map<string, nat> := map[];
    var i := 0;
    while i < |conditions|
      invariant 0 <= i <= |conditions|
      invariant errors == OnlyOneErrors(conditions, i)
      invariant Counted(conditions, i, typeCount)
    {
      var step;
      step, typeCount := CountType(conditions, i, typeCount);
      errors := errors + step;
      i := i + 1;
    }
  }

  /** The first loop's callback on the condition at `i`. */
  method CountType(conditions: seq<Condition>, i: nat, typeCount: map<string, nat>)
    returns (step: seq<ClientError>, typeCount': map<string, nat>)
    requires i < |conditions| && Counted(conditions, i, typeCount)
    ensures OnlyOneErrors(conditions, i + 1) == OnlyOneErrors(conditions, i) + step
    ensures Counted(conditions, i + 1, typeCount')
  {
    var c := conditions[i];
    step, typeCount' := [], typeCount;
    if c.condType in Server.UniqueTypes {
      assert (if c.condType in typeCount then typeCount[c.condType] else 0) == TypeCount(conditions, i, c.condType);
      var count := (if c.condType in typeCount then typeCount[c.condType] else 0) + 1;
      CountedStep(conditions, i, typeCount);
      typeCount' := typeCount[c.condType := count];
      if count > 1 {
        step := [OnlyOne(c.condType)];
      }
    } else {
      UncountedStep(conditions, i, typeCount);
    }
  }

  /** What `typeCount` holds after the first `n` conditions. */
  predicate Counted(conditions: seq<Condition>, n: nat, typeCount: map<string, nat>)
    requires n <= |conditions|
  {
    (forall k :: k in typeCount ==> k in Server.UniqueTypes && typeCount[k] == TypeCount(conditions, n, k))
    && (forall k :: k in Server.UniqueTypes && k !in typeCount ==> TypeCount(conditions, n, k) == 0)
  }

  lemma CountedStep(conditions: seq<Condition>, n: nat, typeCount: map<string, nat>)
    requires n < |conditions| && Counted(conditions, n, typeCount) && conditions[n].condType in Server.UniqueTypes
    ensures var k := conditions[n].condType;
      Counted(conditions, n + 1, typeCount[k := (if k in typeCount then typeCount[k] else 0) + 1])
  {
  }

  lemma UncountedStep(conditions: seq<Condition>, n: nat, typeCount: map<string, nat>)
    requires n < |conditions| && Counted(conditions, n, typeCount) && conditions[n].condType !in Server.UniqueTypes
    ensures Counted(conditions, n + 1, typeCount)
  {
  }

  /** The second loop: remembers each key in `conditionMap` and checks each row. */
  method CheckRows(conditions: seq<Condition>, js: Primitives) returns (errors: seq<ClientError>)
    ensures errors == RowErrors(conditions, |conditions|, js)
  {
    errors := [];
    var conditionMap: set<string> := {};
    var i := 0;
    while i < |conditions|
      invariant 0 <= i <= |conditions|
      invariant errors == RowErrors(conditions, i, js)
      invariant conditionMap == KeysBefore(conditions, i)
    {
      var c := conditions[i];
      var key := Key(c);
      var step: seq<ClientError> := [];
      if key in conditionMap {
        step := step + [DuplicateAt(i + 1)];
      } else {
        conditionMap := conditionMap + {key};
      }
      if c.value == "" {
        step := step + [ValueRequired(i + 1)];
      }
      if c.condType == "cart_total" && Le(js.parseFloat(c.value), Some(0.0)) {
        step := step + [CartTotalNotPositive];
      }
      KeysBeforeStep(conditions, i);
      assert step == RowErrorsAt(conditions, i, js);
      errors := errors + step;
      i := i + 1;
    }
  }

  lemma KeysBeforeStep(conditions: seq<Condition>, i: nat)
    requires i < |conditions|
    ensures KeysBefore(conditions, i + 1) == KeysBefore(conditions, i) + {Key(conditions[i])}
  {
  }

  /** `isConditionTypeUsed(type, currentIndex)`: only unique types can be in use. */
  predicate TypeUsedElsewhere(conditions: seq<Condition>, kind: string, currentIndex: int) {
    kind in Server.UniqueTypes && exists i :: 0 <= i < |conditions| && i != currentIndex && conditions[i].condType == kind
  }

  /** Another condition has the same type, operator and non-empty value as the one at `index`. */
  predicate DuplicateOf(conditions: seq<Condition>, index: int)
    requires 0 <= index < |conditions|
  {
    exists i :: 0 <= i < |conditions| && i != index && conditions[i] == conditions[index] && conditions[i].value != ""
  }

  /** `getConditionText(condition)`, the summary line of a condition. */
  function ConditionText(c: Condition): (text: string)
    ensures text == "" <==> c.condType !in {"cart_total", "customer_tag", "customer_type", "shipping_country", "product_tag"}
  {
    var polarity := if c.operator == "is" then "is" else "is not";
    if c.condType == "cart_total" then
      (if c.operator == "greater_than" then "Cart Total is greater than $" else "Cart Total is smaller than $") + c.value
    else if c.condType == "customer_tag" then "Customer Tag " + polarity + " " + c.value
    else if c.condType == "customer_type" then "Customer Type " + polarity + " " + c.value
    else if c.condType == "shipping_country" then "Shipping Country " + polarity + " " + c.value
    else if c.condType == "product_tag" then "Product Tag " + polarity + " " + c.value
    else ""
  }

  /** A cart-total summary says "greater than" exactly for the `greater_than` operator. */
  lemma CartTotalTextNamesOperator(c: Condition)
    requires c.condType == "cart_total"
    ensures StartsWith(ConditionText(c), "Cart Total is greater than $") <==> c.operator == "greater_than"
    ensures StartsWith(ConditionText(c), "Cart Total is smaller than $") <==> c.operator != "greater_than"
  {
    var greater := "Cart Total is greater than $";
    var smaller := "Cart Total is smaller than $";
    assert greater[14] == 'g' && smaller[14] == 's' && |greater| == |smaller| == 28;
    if c.operator == "greater_than" {
      assert ConditionText(c) == greater + c.value;
      PrefixStarts(greater, c.value, smaller);
    } else {
      assert ConditionText(c) == smaller + c.value;
      PrefixStarts(smaller, c.value, greater);
    }
  }

  /** `p + rest` starts with `p` and with no other string of the same length. */
  lemma PrefixStarts(p: string, rest: string, q: string)
    requires |q| == |p| && q != p
    ensures StartsWith(p + rest, p) && !StartsWith(p + rest, q)
  {
    assert (p + rest)[..|p|] == p;
  }

  // -------------------------------------------------------------- the editor

  /** A condition object held in the page state; the change handler writes its
      fields in place. */
  class ConditionRow {
    var condType: string
    var operator: string
    var value: string

    constructor (c: Condition)
      ensures condType == c.condType && operator == c.operator && value == c.value
    {
      condType, operator, value := c.condType, c.operator, c.value;
    }

    function Snapshot(): Condition
      reads this
    {
      Condition(condType, operator, value)
    }

    /** `newConditions[index][field] = value`. */
    method Write(field: Field, v: string)
      modifies this
      ensures Snapshot() == WithField(old(Snapshot()), field, v)
    {
      match field {
        case TypeField => condType := v;
        case OperatorField => operator := v;
        case ValueField => value := v;
      }
    }
  }

  /** The values of a list of rows, in order. */
  function Snapshots(rows: seq<ConditionRow>): (cs: seq<Condition>)
    reads rows
    ensures |cs| == |rows|
  {
    if |rows| == 0 then [] else [rows[0].Snapshot()] + Snapshots(rows[1..])
  }

  lemma {:induction false} SnapshotsAt(rows: seq<ConditionRow>)
    ensures forall i :: 0 <= i < |rows| ==> Snapshots(rows)[i] == rows[i].Snapshot()
  {
    if |rows| > 0 {
      SnapshotsAt(rows[1..]);
    }
  }

  /** Removing a row object removes its value. */
  lemma SnapshotsSplice(rows: seq<ConditionRow>, index: int)
    ensures Snapshots(SpliceOne(rows, index)) == SpliceOne(Snapshots(rows), index)
  {
    var r := SpliceOne(rows, index);
    SnapshotsAt(rows);
    SnapshotsAt(r);
    var k := SpliceStart(|rows|, index);
    if k < |rows| {
      assert r == rows[..k] + rows[k + 1..];
      assert forall i :: 0 <= i < |r| ==> r[i] == if i < k then rows[i] else rows[i + 1];
    }
  }

  /** The `ConditionBuilder` with the page state it updates: the `conditions`
      array of row objects, which every render reads and the submit stringifies;
      `committed`, the argument of the last `setConditions` call (the row
      values at that moment); and the parent's alert. */
  class ConditionBuilder {
    var conditions: seq<ConditionRow>
    var committed: seq<Condition>
    var alert: Option<Alert>

    /** Every row is its own object: the handlers only ever add fresh rows. */
    predicate Valid()
      reads this`conditions
    {
      forall i, j :: 0 <= i < j < |conditions| ==> conditions[i] != conditions[j]
    }

    function Values(): seq<Condition>
      reads this`conditions, conditions
    {
      Snapshots(conditions)
    }

    /** The initial state: one default cart-total condition. */
    constructor ()
      ensures Valid() && Values() == [DefaultCondition] && committed == Values() && alert == None
    {
      var row := new ConditionRow(DefaultCondition);
      conditions := [row];
      committed := [DefaultCondition];
      alert := None;
    }

    /** `isConditionTypeUsed(type, currentIndex)`. */
    predicate IsConditionTypeUsed(kind: string, currentIndex: int)
      reads this, conditions
    {
      TypeUsedElsewhere(Values(), kind, currentIndex)
    }

    /** `handleAddCondition`: appends one default condition. */
    method AddCondition()
      requires Valid()
      modifies this
      ensures Valid()
      ensures Values() == old(Values()) + [DefaultCondition]
      ensures committed == Values() && alert == old(alert)
    {
      SnapshotsAt(conditions);
      var row := new ConditionRow(DefaultCondition);
      conditions := conditions + [row];
      SnapshotsAt(conditions);
      committed := Values();
    }

    /** `handleRemoveCondition(index)`: `splice(index, 1)` on a copy. */
    method RemoveCondition(index: int)
      requires Valid()
      modifies this
      ensures Valid()
      ensures Values() == SpliceOne(old(Values()), index)
      ensures committed == Values() && alert == old(alert)
    {
      SnapshotsSplice(conditions, index);
      conditions := SpliceOne(conditions, index);
      committed := Values();
    }

    /** The row values (what the page displays and submits), the last
        committed values and the alert. */
    function View(): EditorView
      reads this, conditions
    {
      EditorView(Values(), committed, alert)
    }

    /** `handleConditionChange(index, field, value)`, with the row objects
      written in place. */
    method ConditionChange(index: int, field: Field, v: string)
      requires Valid() && 0 <= index < |conditions|
      modifies this, conditions[index]
      ensures Valid() && conditions == old(conditions)
      ensures View() == Changed(old(View()), index, field, v)
    {
      if field == TypeField && IsConditionTypeUsed(v, index) {
        alert := Some(OnlyOneAllowed(v));
        return;
      }
      WriteAndCheck(index, field, v);
    }

    /** The change once the type check has passed: write the row, then
      refuse a duplicate or commit with `setConditions`. */
    method WriteAndCheck(index: int, field: Field, v: string)
      requires Valid() && 0 <= index < |conditions|
      requires !(field == TypeField && IsConditionTypeUsed(v, index))
      modifies this, conditions[index]
      ensures Valid() && conditions == old(conditions)
      ensures View() == Changed(old(View()), index, field, v)
    {
      ghost var before := Values();
      SnapshotsAt(conditions);
      var row := conditions[index];
      row.Write(field, v);
      var values := Values();
      SnapshotsAt(conditions);
      assert forall i :: 0 <= i < |conditions| && i != index ==> conditions[i] != row;
      assert values == before[index := WithField(before[index], field, v)];
      if DuplicateOf(values, index) {
        alert := Some(DuplicateNotAllowed);
      } else {
        committed := values;
      }
    }
  }

  /** The condition values the rows hold, the values of the last
      `setConditions` call, and the alert. */
  datatype EditorView = EditorView(values: seq<Condition>, committed: seq<Condition>, alert: Option<Alert>)

  /** The effect of a change: a unique type already in use elsewhere is
      refused with no change. Otherwise the field is written into the row
      first; a resulting duplicate is then refused by not calling
      `setConditions`, but the row keeps the written value. */
  function Changed(e: EditorView, index: int, field: Field, v: string): EditorView
    requires 0 <= index < |e.values|
  {
    if field == TypeField && TypeUsedElsewhere(e.values, v, index) then e.(alert := Some(OnlyOneAllowed(v)))
    else
      var values := e.values[index := WithField(e.values[index], field, v)];
      if DuplicateOf(values, index) then e.(values := values, alert := Some(DuplicateNotAllowed))
      else e.(values := values, committed := values)
  }

  /** The three outcomes of a change: what each leaves in the rows, whether
      `setConditions` is called, and the alert. */
  lemma ChangedCases(e: EditorView, index: int, field: Field, v: string)
    requires 0 <= index < |e.values|
    ensures var r := Changed(e, index, field, v);
      var refused := field == TypeField && TypeUsedElsewhere(e.values, v, index);
      (refused ==> r.values == e.values && r.committed == e.committed && r.alert == Some(OnlyOneAllowed(v)))
      && (!refused ==> r.values == e.values[index := WithField(e.values[index], field, v)])
      && (!refused && DuplicateOf(r.values, index) ==> r.committed == e.committed && r.alert == Some(DuplicateNotAllowed))
      && (!refused && !DuplicateOf(r.values, index) ==> r.committed == r.values && r.alert == e.alert)
  {
  }

  /** A refused duplicate is not refused in effect: the alert is raised and
      `setConditions` is skipped, but the row object already holds the new
      value. The alert re-renders the builder from those rows, so the page
      displays the duplicate, and the submit stringifies it. The last
      committed values no longer match the rows. */
  lemma RefusedDuplicateIsKept(e: EditorView, index: int, v: string)
    requires 0 <= index < |e.values| && e.committed == e.values
    requires e.values[index].value != v
    requires DuplicateOf(e.values[index := e.values[index].(value := v)], index)
    ensures var r := Changed(e, index, ValueField, v);
      r.alert == Some(DuplicateNotAllowed)
      && r.values == e.values[index := e.values[index].(value := v)]
      && DuplicateOf(r.values, index)
      && AllToJson(r.values)[index] == ToJson(e.values[index].(value := v))
      && r.committed == e.values && r.committed != r.values
  {
    var r := Changed(e, index, ValueField, v);
    assert r.values[index] != r.committed[index];
  }

  // ------------------------------------------------------------ properties

  /** The conditions as `JSON.stringify` submits them and the server parses them back. */
  function ToJson(c: Condition): Json {
    JObj(map["type" := JStr(c.condType), "operator" := JStr(c.operator), "value" := JStr(c.value)])
  }

  function AllToJson(conditions: seq<Condition>): (r: seq<Json>)
    ensures |r| == |conditions| && forall i :: 0 <= i < |conditions| ==> r[i] == ToJson(conditions[i])
  {
    if |conditions| == 0 then [] else [ToJson(conditions[0])] + AllToJson(conditions[1..])
  }

  lemma {:induction false} OnlyOneErrorsEmpty(conditions: seq<Condition>, n: nat)
    requires n <= |conditions|
    ensures OnlyOneErrors(conditions, n) == [] <==>
      forall i :: 0 <= i < n && conditions[i].condType in Server.UniqueTypes ==>
        !exists j :: 0 <= j < i && conditions[j].condType == conditions[i].condType
  {
    if n > 0 {
      OnlyOneErrorsEmpty(conditions, n - 1);
      TypeCountPositive(conditions, n - 1, conditions[n - 1].condType);
    }
  }

  lemma {:induction false} TypeCountPositive(conditions: seq<Condition>, n: nat, kind: string)
    requires n <= |conditions|
    ensures TypeCount(conditions, n, kind) >= 1 <==> exists j :: 0 <= j < n && conditions[j].condType == kind
  {
    if n > 0 {
      TypeCountPositive(conditions, n - 1, kind);
    }
  }

  lemma {:induction false} RowErrorsEmpty(conditions: seq<Condition>, n: nat, js: Primitives)
    requires n <= |conditions|
    ensures RowErrors(conditions, n, js) == [] <==> forall i :: 0 <= i < n ==> RowErrorsAt(conditions, i, js) == []
  {
    if n > 0 {
      RowErrorsEmpty(conditions, n - 1, js);
      var before := RowErrors(conditions, n - 1, js);
      var here := RowErrorsAt(conditions, n - 1, js);
      assert RowErrors(conditions, n, js) == before + here;
      assert before + here == [] <==> before == [] && here == [] by {
        if before + here == [] { assert |before| + |here| == 0; }
      }
    }
  }

  /** What the server reads back from one submitted condition. */
  lemma ToJsonReadsBack(c: Condition, js: Primitives)
    ensures Server.TypeOf(ToJson(c)) == Some(JStr(c.condType))
    ensures Server.OperatorOf(ToJson(c)) == Some(JStr(c.operator))
    ensures Server.ValueOf(ToJson(c)) == Some(JStr(c.value))
    ensures Server.Key(ToJson(c), js) == Key(c)
  {
  }

  /** When every condition has a type and an operator from the form's menus and
      every cart total parses, a list the client accepts is accepted by the
      server too. */
  lemma ClientAcceptedIsServerAccepted(conditions: seq<Condition>, js: Primitives)
    requires forall i :: 0 <= i < |conditions| ==> conditions[i].condType != "" && conditions[i].operator != ""
    requires forall i :: 0 <= i < |conditions| && conditions[i].condType == "cart_total" ==>
      js.parseFloat(conditions[i].value).Some?
    requires OnlyOneErrors(conditions, |conditions|) == [] && RowErrors(conditions, |conditions|, js) == []
    ensures Server.Accepted(AllToJson(conditions), js)
    ensures Server.ConditionErrors(AllToJson(conditions), |conditions|, js) == []
  {
    hide Server.ErrorsAt, Server.ConditionErrors, Server.Key, OnlyOneErrors, RowErrors;
    var json := AllToJson(conditions);
    var n := |conditions|;
    OnlyOneErrorsEmpty(conditions, n);
    RowErrorsEmpty(conditions, n, js);
    forall i | 0 <= i < n
      ensures Server.WellFormed(json[i]) && !Server.EmptyValue(json[i]) && Server.CartTotalOk(json[i], js)
    {
      ToJsonReadsBack(conditions[i], js);
      assert RowErrorsAt(conditions, i, js) == [];
    }
    forall i, j | 0 <= i < j < n && Server.UniqueKind(json[i]).Some?
      ensures Server.TypeOf(json[i]) != Server.TypeOf(json[j])
    {
      ToJsonReadsBack(conditions[i], js);
      ToJsonReadsBack(conditions[j], js);
    }
    forall i, j | 0 <= i < j < n
      ensures Server.Key(json[i], js) != Server.Key(json[j], js)
    {
      ToJsonReadsBack(conditions[i], js);
      ToJsonReadsBack(conditions[j], js);
      assert RowErrorsAt(conditions, j, js) == [];
      assert Key(conditions[i]) in KeysBefore(conditions, j);
    }
    Server.NoErrorsIffAccepted(json, js);
  }

  /** The client flags two identical conditions with an empty value as a
      duplicate; the server does not. */
  lemma EmptyDuplicateOnlyOnClient(js: Primitives)
    ensures
      var c := Condition("customer_tag", "is", "");
      DuplicateAt(2) in RowErrors([c, c], 2, js)
      && Server.ConditionErrors(AllToJson([c, c]), 2, js)
         == [Server.ValueRequired(1, "customer_tag"), Server.ValueRequired(2, "customer_tag")]
  {
    var c := Condition("customer_tag", "is", "");
    assert [c, c][0] == c;
    assert Key(c) in KeysBefore([c, c], 1);
    assert RowErrors([c, c], 2, js) == RowErrors([c, c], 1, js) + RowErrorsAt([c, c], 1, js);
    assert AllToJson([c, c]) == [ToJson(c), ToJson(c)];
    Server.EmptyValuesAreNotDuplicates("customer_tag", "is", js);
  }

  /** A cart total that does not parse passes the client check and is caught
      by the server. */
  lemma NonNumericCartTotalOnlyCaughtByServer(v: string, js: Primitives)
    requires v != "" && js.parseFloat(v).None?
    ensures RowErrors([Condition("cart_total", "greater_than", v)], 1, js) == []
    ensures Server.CartTotalNotPositive(1) in Server.ConditionErrors(AllToJson([Condition("cart_total", "greater_than", v)]), 1, js)
  {
    var c := Condition("cart_total", "greater_than", v);
    assert KeysBefore([c], 0) == {};
    var json := AllToJson([c]);
    assert json[0] == ToJson(c);
    assert Server.TypeOf(json[0]) == Some(JStr("cart_total"));
    assert Server.ValueOf(json[0]) == Some(JStr(v));
    assert Server.WellFormed(json[0]);
    assert !Server.CartTotalOk(json[0], js);
    assert Server.ConditionErrors(json, 1, js) == Server.ErrorsAt(json, 0, js);
  }

  /** A message of white space only: refused by the client, accepted by the server. */
  lemma BlankMessageOnlyCaughtByClient(customizeName: string, shippingMethod: string)
    requires !IsBlank(customizeName) && !IsBlank(shippingMethod)
    ensures MessageRequired in HeaderErrors(Server.ShippingMessage, customizeName, shippingMethod, " ")
    ensures Server.MessageRequired !in Server.FieldErrors(
      Server.Form(Some(customizeName), Some(shippingMethod), Some(" "), None, None, None), Server.ShippingMessage).value
  {
    assert AllSpace(" ");
    Server.BlankMessagePassesServer(Server.Form(Some(customizeName), Some(shippingMethod), Some(" "), None, None, None));
  }
}

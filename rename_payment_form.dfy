/** The rename-payment page: the form's `validateForm`, the trimmed values
    `handleSubmit` posts, and the configuration the route's `action` stores
    for the payment-rename checkout function. The Admin API and database
    calls of the action are left out. */
module RenamePaymentForm {
  import opened Js
  import opened Checkout
  import FD = FormData
  import Run = RenamePaymentRun

  datatype ErrorMessage =
    | NameRequired
    | NameTooShort
    | InvalidName
    | PaymentMethodRequired
    | NewNameRequired

  /** `newErrors`: one optional message per key `validateForm` may set. */
  datatype Errors = Errors(
    customizeName: Option<ErrorMessage>,
    paymentMethod: Option<ErrorMessage>,
    newName: Option<ErrorMessage>)

  const NoErrors := Errors(None, None, None)

  /** `Object.keys(newErrors).length`. */
  function KeyCount(e: Errors): (n: nat)
    ensures n == 0 <==> e == NoErrors
  {
    (if e.customizeName.Some? then 1 else 0) + (if e.paymentMethod.Some? then 1 else 0)
    + (if e.newName.Some? then 1 else 0)
  }

  /** The name check: an `if`/`else if` chain, so at most one message.
      The last test compares the untrimmed name. */
  function NameError(customizeName: string): Option<ErrorMessage> {
    if Trim(customizeName) == "" then Some(NameRequired)
    else if |Trim(customizeName)| < 3 then Some(NameTooShort)
    else if customizeName == "No name.." then Some(InvalidName)
    else None
  }

  /** The error object `validateForm` builds. */
  function FormErrors(customizeName: string, parentValue: string, newName: string): Errors {
    Errors(NameError(customizeName),
      if Trim(parentValue) == "" then Some(PaymentMethodRequired) else None,
      if Trim(newName) == "" then Some(NewNameRequired) else None)
  }

  /** `validateForm()`: the error object, and whether it has no key. */
  method ValidateForm(customizeName: string, parentValue: string, newName: string)
    returns (newErrors: Errors, valid: bool)
    ensures newErrors == FormErrors(customizeName, parentValue, newName)
    ensures valid <==> KeyCount(newErrors) == 0
  {
    newErrors := NoErrors;
    if Trim(customizeName) == "" {
      newErrors := newErrors.(customizeName := Some(NameRequired));
    } else if |Trim(customizeName)| < 3 {
      newErrors := newErrors.(customizeName := Some(NameTooShort));
    } else if customizeName == "No name.." {
      newErrors := newErrors.(customizeName := Some(InvalidName));
    }
    if Trim(parentValue) == "" {
      newErrors := newErrors.(paymentMethod := Some(PaymentMethodRequired));
    }
    if Trim(newName) == "" {
      newErrors := newErrors.(newName := Some(NewNameRequired));
    }
    valid := KeyCount(newErrors) == 0;
  }

  /** The name chain, message by message, in its order of precedence. */
  lemma NameErrorChain(customizeName: string)
    ensures NameError(customizeName) == Some(NameRequired) <==> IsBlank(customizeName)
    ensures NameError(customizeName) == Some(NameTooShort) <==> !IsBlank(customizeName) && |Trim(customizeName)| < 3
    ensures NameError(customizeName) == Some(InvalidName) <==>
      |Trim(customizeName)| >= 3 && customizeName == "No name.."
    ensures NameError(customizeName) == None <==> |Trim(customizeName)| >= 3 && customizeName != "No name.."
  {
  }

  /** "No name.." is long enough, so its own message is reachable. */
  lemma PlaceholderNameIsRejected()
    ensures NameError("No name..") == Some(InvalidName)
  {
    assert Trim("No name..") == "No name.." by {
      TrimKeepsEnds("No name..");
    }
  }

  /** A string with no space at either end trims to itself. */
  lemma TrimKeepsEnds(s: string)
    requires |s| > 0 && !IsSpace(s[0]) && !IsSpace(s[|s| - 1])
    ensures Trim(s) == s
  {
  }

  /** The form is valid iff the trimmed name has at least three characters
      and is not "No name..", and the payment method and the new name are
      not blank. */
  lemma ValidIff(customizeName: string, parentValue: string, newName: string)
    ensures KeyCount(FormErrors(customizeName, parentValue, newName)) == 0 <==>
      |Trim(customizeName)| >= 3 && customizeName != "No name.."
      && !IsBlank(parentValue) && !IsBlank(newName)
  {
    NameErrorChain(customizeName);
  }

  /** The form data `handleSubmit` posts: the trimmed values. */
  function Submitted(id: string, customizeName: string, parentValue: string, newName: string): FD.Fields {
    [FD.Entry("id", id), FD.Entry("customizeName", Trim(customizeName)),
     FD.Entry("paymentMethod", Trim(parentValue)), FD.Entry("new_name", Trim(newName))]
  }

  /** `handleSubmit`: nothing is posted unless the form validates; then the
      errors are cleared and the trimmed values are posted. */
  method HandleSubmit(id: string, customizeName: string, parentValue: string, newName: string)
    returns (errors: Errors, posted: Option<FD.Fields>)
    ensures posted.Some? <==> KeyCount(FormErrors(customizeName, parentValue, newName)) == 0
    ensures posted.Some? ==> errors == NoErrors && posted.value == Submitted(id, customizeName, parentValue, newName)
    ensures posted.None? ==> errors == FormErrors(customizeName, parentValue, newName)
  {
    hide Trim, FormErrors, KeyCount;
    var valid;
    errors, valid := ValidateForm(customizeName, parentValue, newName);
    if !valid {
      posted := None;
      return;
    }
    errors := NoErrors;
    var formData := [FD.Entry("id", id)];
    formData := formData + [FD.Entry("customizeName", Trim(customizeName))];
    formData := formData + [FD.Entry("paymentMethod", Trim(parentValue))];
    formData := formData + [FD.Entry("new_name", Trim(newName))];
    posted := Some(formData);
  }

  /** A form value as it is stored: the string, or `null` when the field is missing. */
  function NullableString(v: Option<string>): Json {
    if v.Some? then JStr(v.value) else JNull
  }

  /** The configuration `action` stores in the shop metafield. */
  function ActionConfig(fd: FD.Fields): (config: Json)
    ensures config.JObj? && config.fields.Keys == {"shopId", "customizeName", "paymentMethod", "newName"}
    ensures Get(Some(config), "paymentMethod") == Some(NullableString(FD.Get(fd, "paymentMethod")))
    ensures Get(Some(config), "newName") == Some(NullableString(FD.Get(fd, "new_name")))
  {
    JObj(map["shopId" := NullableString(FD.Get(fd, "id")),
             "customizeName" := NullableString(FD.Get(fd, "customizeName")),
             "paymentMethod" := NullableString(FD.Get(fd, "paymentMethod")),
             "newName" := NullableString(FD.Get(fd, "new_name"))])
  }

  /** The posted fields read back as the trimmed values. */
  lemma SubmittedReadsBack(id: string, customizeName: string, parentValue: string, newName: string)
    ensures var fd := Submitted(id, customizeName, parentValue, newName);
      FD.Get(fd, "id") == Some(id) && FD.Get(fd, "customizeName") == Some(Trim(customizeName))
      && FD.Get(fd, "paymentMethod") == Some(Trim(parentValue)) && FD.Get(fd, "new_name") == Some(Trim(newName))
  {
    var e0, e1, e2, e3 := FD.Entry("id", id), FD.Entry("customizeName", Trim(customizeName)),
      FD.Entry("paymentMethod", Trim(parentValue)), FD.Entry("new_name", Trim(newName));
    assert Submitted(id, customizeName, parentValue, newName) == [e0, e1, e2, e3];
    assert [e0, e1, e2, e3][1..] == [e1, e2, e3];
    assert [e1, e2, e3][1..] == [e2, e3];
    assert [e2, e3][1..] == [e3];
    assert FD.Get([e3], "new_name") == Some(Trim(newName));
    assert FD.Get([e2, e3], "paymentMethod") == Some(Trim(parentValue));
    assert FD.Get([e2, e3], "new_name") == Some(Trim(newName));
    assert FD.Get([e1, e2, e3], "customizeName") == Some(Trim(customizeName));
  }

  /** A form that validates and is saved makes the rename function give each
      payment method, in order and keeping its id, the trimmed new name
      exactly when its name equals the trimmed chosen method; any other
      method keeps its name. The metafield reads back as the stored
      configuration. */
  lemma {:induction false} SubmittedFormRenames(id: string, customizeName: string, parentValue: string, newName: string,
                                                input: Input, js: Primitives)
    requires KeyCount(FormErrors(customizeName, parentValue, newName)) == 0
    requires input.metafield.Some?
    requires js.jsonParse(input.metafield.value) == Some(ActionConfig(Submitted(id, customizeName, parentValue, newName)))
    ensures Run.Run(input, js).Ok?
    ensures var ops := Run.Run(input, js).value;
      |ops| == |input.paymentMethods|
      && forall i :: 0 <= i < |ops| ==>
        ops[i].paymentMethodId == input.paymentMethods[i].id
        && ops[i].name == if input.paymentMethods[i].name == Trim(parentValue) then Some(JStr(Trim(newName)))
                          else Some(JStr(input.paymentMethods[i].name))
  {
    SubmittedReadsBack(id, customizeName, parentValue, newName);
    var config := ActionConfig(Submitted(id, customizeName, parentValue, newName));
    assert Get(Some(config), "paymentMethod") == Some(JStr(Trim(parentValue)));
    assert Get(Some(config), "newName") == Some(JStr(Trim(newName)));
  }
}

# Checkout customizations: rule engines and their editors

This project models the deterministic core of a Shopify app that customizes
checkout. The app has three parts:

- **Checkout-time functions.** Four functions run inside Shopify's checkout.
  Each reads the cart and a JSON configuration stored in a metafield, and
  returns a list of operations:
  - rename a delivery option by appending a message;
  - hide the cash-on-delivery payment method;
  - rename a payment method;
  - give a quantity-based percentage discount on every line.
- **Admin pages and actions that author those configurations.** These are
  client-side `validateForm` functions, the condition list editors, the
  server-side validation of submitted rules, the serialisation of a form into
  `FormData`, and the document each action stores.
- **The post-purchase upsell.** This covers the editor state and its controls,
  the action that decides which owners receive the `settings.upsell`
  metafield, the thank-you block that reads that metafield and decides whether
  to show the upsell, and the label on the upsell listing page. The branding
  page's small string rules belong here too: the hex colour check, `toHex`,
  and the checkout editor link.

Writers and readers are linked by lemmas across modules:

- the hide-payment editor → the hide-payment API → the hide-payment function;
- the rename-payment page → the rename function;
- the upsell API → the thank-you block;
- the shipping pages' client validation → their server validation.

JavaScript's values are the `Js.Json` datatype. Its truthiness, `?.`, `||`,
`trim`, `split`, `includes` and `replace` are written out in module `Js`.
A thrown exception is `Js.Result.Throws`.

The browser's `FormData` is module `FormData`: an ordered list of name and
value entries that `append` extends, `get` reads the first value of and
`getAll` reads every value of. It is platform behaviour rather than part of
the repository, so its members (`FormData.Get`, `FormData.GetAll`,
`FormData.GetAllAppend`, `FormData.GetAllConcat`) have no row under "## Model".

The library primitives are the fields of a `Js.Primitives` record, which every
operation receives as a parameter:

- `parseFloat`;
- `Number`;
- `JSON.parse`;
- number formatting.

The Admin API and the database are not called. A lookup (does a record exist,
did a write fail) is a boolean input. A write is a record of what would be
written.

Where the code does something surprising, the model does what the code does,
and a lemma states the consequence. Examples:

- the hide-payment function's comparison is inverted;
- it looks up "Cash on Delivery" by a hard-coded name;
- it compares variant ids where product ids are stored;
- a rejected condition edit on the shipping pages still writes into the shared
  row object;
- the server does not catch a blank message.

## Model

| member | source | states |
|---|---|---|
| ShippingMessageRun.EvaluateCondition | extensions/add-message-to-shipping-method/src/run.js:41-46 | reading a condition fails exactly when it is `null`; any other value gives the boolean decision of the type switch |
| ShippingMessageRun.CartTotalIsStrict | extensions/add-message-to-shipping-method/src/run.js:47-54 | the cart-total comparison is strict: `greater_than` and `less_than` never both hold, and neither holds when the total (a missing total read as "0") equals the bound |
| ShippingMessageRun.OperatorsAreComplements | extensions/add-message-to-shipping-method/src/run.js:55-89 | for customer tag, customer type, shipping country (first delivery group only) and product tag, `is` and `is_not` are complements when the type's guard (a buyer, a non-empty country code, a non-empty cart) passes, and both are false otherwise |
| ShippingMessageRun.UnsupportedNeverHolds | extensions/add-message-to-shipping-method/src/run.js:46-92 | an unknown type, or an operator the type does not support, never holds |
| ShippingMessageRun.TagFlagsAreIgnored | extensions/add-message-to-shipping-method/src/run.js:55-71 | tag conditions compare tag names only; the `hasTag` flag of each queried tag is not read |
| ShippingMessageRun.AnyConditionMetIsDisjunction | extensions/add-message-to-shipping-method/src/run.js:129-139 | with no `null` condition the loop with `break` computes the OR of the conditions |
| ShippingMessageRun.AnyConditionMetThrows | extensions/add-message-to-shipping-method/src/run.js:129-139 | the loop fails iff a `null` condition is reached before any condition holds |
| ShippingMessageRun.AnyConditionMetWitness | extensions/add-message-to-shipping-method/src/run.js:129-139 | a reported match is backed by a condition that evaluates to true |
| ShippingMessageRun.Run | extensions/add-message-to-shipping-method/src/run.js:99-173 | the step-by-step run (early returns, the flag loop with `break`, the operations check) returns exactly `Outcome` |
| ShippingMessageRun.OnlyNullsThrow | extensions/add-message-to-shipping-method/src/run.js:101-125 | a missing or unparseable metafield, a target that is not a non-empty string and non-array conditions give no operations; the only failures are a configuration parsing to `null` (destructured) and a `null` condition |
| ShippingMessageRun.OperationsNeedAMatch | extensions/add-message-to-shipping-method/src/run.js:129-166 | every operation comes from a well-shaped configuration in which some condition holds, and renames an option titled with the target, keeping its handle |
| ShippingMessageRun.RenamesAreMatchingOptions | extensions/add-message-to-shipping-method/src/run.js:146-156 | an operation is produced iff some option of some delivery group has the target title; it keeps that option's handle and its title becomes `title + " - " + message` |
| ShippingMessageRun.OptionRenamesAreMatching | extensions/add-message-to-shipping-method/src/run.js:147-155 | the same within one delivery group's options |
| ShippingMessageRun.RenamesCount | extensions/add-message-to-shipping-method/src/run.js:146-156 | exactly one operation per matching option over all groups |
| ShippingMessageRun.OptionRenamesCount | extensions/add-message-to-shipping-method/src/run.js:147-155 | exactly one operation per matching option of one group |
| ShippingMessageRun.EmptyConditionsChangeNothing | extensions/add-message-to-shipping-method/src/run.js:129-172 | an empty conditions list gives no operations |
| ShippingMessageRun.MissingMessageAppendsUndefined | extensions/add-message-to-shipping-method/src/run.js:150-155 | with no `message` in the configuration the appended text is "undefined" |
| HidePaymentRun.Includes | extensions/hide-payment-method-cart-total/src/run.js:96-96 | `includes` is membership (strict equality) on an array, substring search on a string, and throws on any other value |
| HidePaymentRun.SomeIncludedInArray | extensions/hide-payment-method-cart-total/src/run.js:96-96 | on an array of ids, `some(includes)` is true iff some cart id is in the array |
| HidePaymentRun.ProductIdsAreParents | extensions/hide-payment-method-cart-total/src/run.js:89-94 | the ids the `is` branch searches are the parent product ids of the product-variant lines |
| HidePaymentRun.VariantIdsAreVariants | extensions/hide-payment-method-cart-total/src/run.js:107-110 | the ids the `is_not` branch searches are the variant ids of the product-variant lines |
| HidePaymentRun.ProductConditionIdKinds | extensions/hide-payment-method-cart-total/src/run.js:86-111 | `is` fires iff some product-variant line's parent product id is listed, `is_not` fires iff no line's variant id is listed |
| HidePaymentRun.IsNotIgnoresProductIds | extensions/hide-payment-method-cart-total/src/run.js:106-111 | a cart holding a variant of the listed product still fires `is_not`, because the branch compares variant ids with product ids |
| HidePaymentRun.TotalComparatorIsInverted | extensions/hide-payment-method-cart-total/src/run.js:57-84 | the comparator is inverted: `greater_than` fires iff the cart total is at most the amount, `less_than` iff it is at least the amount |
| HidePaymentRun.MissingAmountNeverFires | extensions/hide-payment-method-cart-total/src/run.js:57-84 | with no configured amount the cart-total condition is false |
| HidePaymentRun.CountryConditionIsListMembership | extensions/hide-payment-method-cart-total/src/run.js:70-127 | country `is` fires iff some delivery group's country code equals the configured country exactly, and `is_not` is its negation |
| HidePaymentRun.OnlyFirstEntryCounts | extensions/hide-payment-method-cart-total/src/run.js:52-54 | only the first entry of a category is read; further entries change nothing |
| HidePaymentRun.FindCashOnDelivery | extensions/hide-payment-method-cart-total/src/run.js:151-153 | the result is the first payment method whose name contains "Cash on Delivery", and none when no name does |
| HidePaymentRun.Run | extensions/hide-payment-method-cart-total/src/run.js:34-174 | at most one operation; a missing metafield value or unparseable JSON gives none |
| HidePaymentRun.HideIsDisjunction | extensions/hide-payment-method-cart-total/src/run.js:142-168 | the run hides the first cash-on-delivery method iff the cart-total, product or country condition holds; otherwise, or with no such method, there are no operations |
| HidePaymentRun.PaymentMethodIsIgnored | extensions/hide-payment-method-cart-total/src/run.js:49-49 | the configured `paymentMethod` does not affect the outcome |
| HidePaymentRun.MalformedProductsHideNothing | extensions/hide-payment-method-cart-total/src/run.js:170-173 | a product list that is neither an array nor a string throws once a product-variant line is present; the error is caught and nothing is hidden, even if another condition holds |
| RenamePaymentRun.RenameAll | extensions/change-name-of-payment-method/src/run.js:29-49 | one operation per payment method, in order, each keeping its method's id; a method whose name is exactly `paymentMethod` gets `newName`, every other keeps its own name |
| RenamePaymentRun.Run | extensions/change-name-of-payment-method/src/run.js:19-23 | with no fail-safe, a missing metafield or invalid JSON makes the run fail |
| RenamePaymentRun.RunOnObjectConfig | extensions/change-name-of-payment-method/src/run.js:19-49 | a configuration that parses to an object always succeeds with one operation per method, in order, keeping each id |
| RenamePaymentRun.RenamedIffNameMatches | extensions/change-name-of-payment-method/src/run.js:31-38 | when the new name is not already some method's name, a method ends up with the new name iff its name equals the configured one |
| QuantityDiscountRun.ReduceIsSum | extensions/cart-quantity-based-discount/src/run.js:15-18 | the `reduce` adds up exactly the line quantities |
| QuantityDiscountRun.QuantitySumFront | extensions/cart-quantity-based-discount/src/run.js:15-18 | the sum splits off its first line (the step that lets the left fold meet the sum) |
| QuantityDiscountRun.ChosenDiscount | extensions/cart-quantity-based-discount/src/run.js:20-25 | quantity at least `thresholdHigh` gives `discountHigh`; otherwise at least `thresholdLow` gives `discountLow`; otherwise 0; the high tier is checked first |
| QuantityDiscountRun.LineDiscounts | extensions/cart-quantity-based-discount/src/run.js:33-49 | exactly one discount per cart line, in order, targeting that line's variant, with percentage `discount * 100` and the message built from it |
| QuantityDiscountRun.Run | extensions/cart-quantity-based-discount/src/run.js:1-56 | every result has strategy "FIRST"; a missing metafield makes the run fail |
| QuantityDiscountRun.RunOnObjectConfig | extensions/cart-quantity-based-discount/src/run.js:14-55 | on an object configuration the result is decided on the sum of line quantities: discount 0 gives an empty list, any other discount one per line |
| QuantityDiscountRun.MoreItemsNeverLowerTier | extensions/cart-quantity-based-discount/src/run.js:20-25 | a larger cart never gets a lower tier: reaching the high threshold keeps `discountHigh`, and a cart reaching no threshold got 0 when it was smaller |
| QuantityDiscountRun.ExampleTiers | extensions/cart-quantity-based-discount/src/run.js:20-25 | for tiers 5 items / 5 % and 10 items / 10 %, 4 items give 0, 7 give 5 % and 12 give 10 % |
| QuantityDiscountRun.NullDiscountIsApplied | extensions/cart-quantity-based-discount/src/run.js:27-30 | a `null` discount is not `=== 0`, so every line still gets a discount, of zero percent |
| QuantityDiscountRun.NonNegativeSum | extensions/cart-quantity-based-discount/src/run.js:15-18 | non-negative line quantities give a non-negative total |
| ShippingRuleServer.UniqueKind | app/routes/api.hide-shipping-method.jsx:53-72 | a condition counts as unique-typed only when its type is one of cart_total, customer_type, shipping_country, and then that is its type |
| ShippingRuleServer.CountedStep | app/routes/api.hide-shipping-method.jsx:71-74 | incrementing `typeCount[type]` for a well-formed unique-typed condition keeps every count equal to the number of earlier well-formed conditions of that type |
| ShippingRuleServer.UncountedStep | app/routes/api.hide-shipping-method.jsx:59-79 | a malformed or non-unique condition leaves every type count correct without touching `typeCount` |
| ShippingRuleServer.CheckCondition | app/routes/api.hide-shipping-method.jsx:57-107 | one `forEach` callback pushes exactly the errors the condition earns given the conditions before it, and leaves `typeCount` and `conditionMap` holding the counts and keys of the conditions so far |
| ShippingRuleServer.ValidateConditions | app/routes/app.shipping-add-message.jsx:152-207 | the whole `forEach` (identical in both admin actions) accumulates the errors of every condition, in order |
| ShippingRuleServer.Action | app/routes/api.hide-shipping-method.jsx:18-204 | the action's response is the one the step-by-step validation, update/create and name-uniqueness rules determine |
| ShippingRuleServer.PriorCountPositive | app/routes/api.hide-shipping-method.jsx:72-74 | a type has been counted before position n iff some earlier well-formed condition has that type |
| ShippingRuleServer.RecordedKeys | app/routes/api.hide-shipping-method.jsx:81-90 | a key is in `conditionMap` before position n iff some earlier well-formed condition with a non-empty value has that key |
| ShippingRuleServer.ErrorsAtEmptyIff | app/routes/api.hide-shipping-method.jsx:57-107 | a condition adds no error iff it is well-formed, has a value and a valid cart total, repeats no earlier unique type and no earlier key |
| ShippingRuleServer.AcceptedPrefixStep | app/routes/api.hide-shipping-method.jsx:57-107 | the first n conditions are acceptable iff the first n-1 are and the n-th is fine after them |
| ShippingRuleServer.CleanUpToIffPrefix | app/routes/api.hide-shipping-method.jsx:57-107 | "no condition so far adds an error" is the same as "the prefix is acceptable" |
| ShippingRuleServer.NoErrorsIffCleanUpTo | app/routes/api.hide-shipping-method.jsx:57-107 | the accumulated errors of a prefix are empty iff no condition of it adds an error |
| ShippingRuleServer.NoErrorsIffAccepted | app/routes/api.hide-shipping-method.jsx:53-107 | the condition checks pass exactly on lists where every condition is well-formed with a value and a positive cart total, no unique type repeats and no two conditions share a key (both directions) |
| ShippingRuleServer.MalformedAddsOneError | app/routes/api.hide-shipping-method.jsx:59-69 | a malformed condition adds exactly one structure error naming its position and nothing else |
| ShippingRuleServer.EmptyValuesAreNotDuplicates | app/routes/api.hide-shipping-method.jsx:81-97 | two identical conditions with an empty value each get "value is required" and neither is reported as a duplicate |
| ShippingRuleServer.OnlyOneAt | app/routes/api.hide-shipping-method.jsx:71-79 | a condition adds one "only one" error for a unique type iff it is a well-formed condition of that type seen before, else none |
| ShippingRuleServer.ExtraUniqueOccurrencesCounted | app/routes/api.hide-shipping-method.jsx:53-79 | over the whole list, each occurrence of a unique type beyond the first adds exactly one "only one" error |
| ShippingRuleServer.SaveOnlyWhenValid | app/routes/api.hide-shipping-method.jsx:111-204 | any validation error answers 400 with all the errors and saves nothing; a save implies an accepted condition list; a create implies the name is free; an update of a missing rule answers 404 |
| ShippingRuleServer.FieldChecks | app/routes/api.hide-shipping-method.jsx:27-48 | the shop, name and shipping-method errors are present exactly when the shop id lacks the shop prefix or the name or shipping method is missing or blank; the hide-shipping action never asks for a message |
| ShippingRuleServer.FieldChecksThrow | app/routes/app.shipping-add-message.jsx:138-140 | the shipping-message validation throws exactly when a message is sent without a name, because its message check calls `customizeName.trim()` |
| ShippingRuleServer.ConditionsMustBeNonEmptyArray | app/routes/api.hide-shipping-method.jsx:49-51 | "at least one condition is required" is reported exactly when the parsed conditions are not a non-empty array |
| ShippingRuleServer.UnparseableConditionsFirst | app/routes/api.hide-shipping-method.jsx:20-24 | conditions that fail to parse are answered 400 with the one format error, before any other check |
| ShippingRuleServer.BlankMessagePassesServer | app/routes/app.shipping-add-message.jsx:138-140 | a white-space-only message passes the server's message check when the name is non-blank |
| ShippingRuleForm.WithField | app/routes/app.hide-shipping-method.jsx:409-410 | writing one field of a condition sets that field and leaves the other two as they were |
| ShippingRuleForm.ValidateForm | app/routes/app.shipping-add-message.jsx:521-569 | `validateForm` returns the header errors, then one "only one" error per extra unique-typed condition, then the per-row duplicate, value and cart-total errors, in that order |
| ShippingRuleForm.CheckUniqueTypes | app/routes/app.hide-shipping-method.jsx:139-151 | the first loop reports an "only one" error for every unique-typed condition whose type occurred earlier |
| ShippingRuleForm.CountType | app/routes/app.hide-shipping-method.jsx:142-150 | one step of the first loop adds exactly that condition's error and keeps `typeCount` equal to the number of occurrences so far of each unique type |
| ShippingRuleForm.CountedStep | app/routes/app.hide-shipping-method.jsx:143-144 | incrementing the count of a unique type keeps `typeCount` correct after one more condition |
| ShippingRuleForm.UncountedStep | app/routes/app.hide-shipping-method.jsx:143-144 | a condition of another type leaves `typeCount` correct untouched |
| ShippingRuleForm.CheckRows | app/routes/app.hide-shipping-method.jsx:153-169 | the second loop reports, per row, a duplicate when its key occurred earlier (even with an empty value), a missing value, and a cart total that parses to at most 0 |
| ShippingRuleForm.KeysBeforeStep | app/routes/app.hide-shipping-method.jsx:156-161 | `conditionMap` after row i holds exactly the keys of rows 0..i |
| ShippingRuleForm.OnlyOneErrorsEmpty | app/routes/app.hide-shipping-method.jsx:139-151 | the first loop reports nothing iff no unique type occurs twice |
| ShippingRuleForm.TypeCountPositive | app/routes/app.hide-shipping-method.jsx:142-145 | a type has been counted before row n iff some earlier row has that type |
| ShippingRuleForm.RowErrorsEmpty | app/routes/app.hide-shipping-method.jsx:153-169 | the second loop reports nothing iff no single row earns an error |
| ShippingRuleForm.ConditionText | app/routes/app.hide-shipping-method.jsx:685-700 | the summary line is empty exactly for a type outside the five known condition types |
| ShippingRuleForm.CartTotalTextNamesOperator | app/routes/app.hide-shipping-method.jsx:687-688 | a cart-total summary reads "is greater than" exactly for the `greater_than` operator and "is smaller than" for every other |
| ShippingRuleForm.ConditionRow.constructor | app/routes/app.hide-shipping-method.jsx:118-124 | a row object starts holding the given condition |
| ShippingRuleForm.ConditionRow.Write | app/routes/app.hide-shipping-method.jsx:409-410 | `newConditions[index][field] = value` mutates only that field of that row object |
| ShippingRuleForm.SnapshotsSplice | app/routes/app.hide-shipping-method.jsx:383-387 | splicing a row object out of the list removes exactly its value from the list of values |
| ShippingRuleForm.ConditionBuilder.constructor | app/routes/app.hide-shipping-method.jsx:118-124 | the editor starts with one default cart-total condition and no alert |
| ShippingRuleForm.ConditionBuilder.AddCondition | app/routes/app.hide-shipping-method.jsx:371-381 | adding appends one default condition and changes nothing else |
| ShippingRuleForm.ConditionBuilder.RemoveCondition | app/routes/app.hide-shipping-method.jsx:383-387 | removing is `splice(index, 1)` on a copy, with JavaScript's index normalisation, and changes nothing else |
| ShippingRuleForm.ConditionBuilder.ConditionChange | app/routes/app.hide-shipping-method.jsx:389-433 | a change performs exactly the transition `Changed` describes: refused for a unique type in use elsewhere, otherwise written into the row object, then committed with `setConditions` unless it creates a duplicate |
| ShippingRuleForm.ConditionBuilder.WriteAndCheck | app/routes/app.hide-shipping-method.jsx:408-432 | once the type check passed, the field is written into the shared row object and `setConditions` is called only when no duplicate results |
| ShippingRuleForm.ChangedCases | app/routes/app.hide-shipping-method.jsx:389-433 | the three outcomes of a change and what each leaves in the rows, in the last `setConditions` values and in the alert |
| ShippingRuleForm.RefusedDuplicateIsKept | app/routes/app.hide-shipping-method.jsx:408-430 | after a refused duplicate the alert is set and `setConditions` is skipped, yet the rows hold the duplicate, which is what the page displays and what `AllToJson` submits |
| ShippingRuleForm.AllToJson | app/routes/app.hide-shipping-method.jsx:192 | the submitted list has one JSON object per condition, in order |
| ShippingRuleForm.ToJsonReadsBack | app/routes/app.hide-shipping-method.jsx:192 | the server reads back the type, operator, value and key each submitted condition had in the form |
| ShippingRuleForm.ClientAcceptedIsServerAccepted | app/routes/app.hide-shipping-method.jsx:128-172 | with types and operators from the menus and parseable cart totals, a list the client accepts passes every server condition check |
| ShippingRuleForm.EmptyDuplicateOnlyOnClient | app/routes/app.hide-shipping-method.jsx:155-161 | two identical conditions with an empty value are a duplicate for the client but only two "value is required" errors for the server |
| ShippingRuleForm.NonNumericCartTotalOnlyCaughtByServer | app/routes/app.hide-shipping-method.jsx:166-168 | a cart total that does not parse passes the client check (NaN <= 0 is false) and is refused by the server |
| ShippingRuleForm.BlankMessageOnlyCaughtByClient | app/routes/app.shipping-add-message.jsx:532-534 | a white-space-only message is refused by the client and passes the server's message check |
| PaymentsHideApi.Categorise | app/routes/api.payments.hide.jsx:52-83 | the categorisation loop leaves in each of the three arrays exactly the entries of the conditions of that type, in form order |
| PaymentsHideApi.Action | app/routes/api.payments.hide.jsx:6-366 | the action answers exactly as the shop-id check, the duplicate-type check, the Admin API outcomes and the update-or-create database step determine |
| PaymentsHideApi.CategorisedMembers | app/routes/api.payments.hide.jsx:60-82 | an entry is in a category iff it was built from a condition of that type (both directions) |
| PaymentsHideApi.CategorisedEmpty | app/routes/api.payments.hide.jsx:60-82 | a type no condition has gets an empty array |
| PaymentsHideApi.AtMostOneEntry | app/routes/api.payments.hide.jsx:35-83 | once the duplicate check passed, each category holds at most one entry |
| PaymentsHideApi.CategorisedSingle | app/routes/api.payments.hide.jsx:35-83 | once the duplicate check passed, the category of a condition's type holds exactly that condition's entry |
| PaymentsHideApi.EachConditionSortedOnce | app/routes/api.payments.hide.jsx:60-82 | the three categories together hold one entry per condition of a known type; unknown types are dropped |
| PaymentsHideApi.SharedAmountAndCountry | app/routes/api.payments.hide.jsx:55-57 | every cart-total entry carries the one form-wide `Number(cartTotal) \|\| 0` and every shipping-country entry the one form-wide country |
| PaymentsHideApi.ProductsIndexedByPosition | app/routes/api.payments.hide.jsx:56 | product lists are read at the condition's overall position, so a product condition after a cart-total condition stores no products when one list was submitted |
| PaymentsHideApi.SavedIff | app/routes/api.payments.hide.jsx:15-49 | the rule is saved iff the shop id is present, the condition types are distinct and the Admin API calls succeed; it updates iff a record with the same shop and name exists; a missing shop id is refused first |
| HidePaymentForm.FromRecords | app/routes/app.hide-payment.jsx:158-166 | mapping the stored conditions keeps their number and order, and throws iff some stored condition is null or has a non-string truthy `selectedProducts` |
| HidePaymentForm.Initial | app/routes/app.hide-payment.jsx:156-177 | without truthy stored conditions the page starts from the one default product condition; whenever it does not throw it starts with at least one condition |
| HidePaymentForm.AddCondition | app/routes/app.hide-payment.jsx:228-240 | the add button appends one cart-total condition at the end and keeps the others, with no duplicate check |
| HidePaymentForm.RemoveCondition | app/routes/app.hide-payment.jsx:243-247 | removing drops exactly the condition at the index, and nothing for an index out of range |
| HidePaymentForm.ChangeCondition | app/routes/app.hide-payment.jsx:250-256 | a field change rewrites only the condition at the index and keeps the list's length |
| HidePaymentForm.PickProducts | app/routes/app.hide-payment.jsx:181-216 | a picked product list replaces the ids of that condition only; a cancelled picker changes nothing |
| HidePaymentForm.HasDuplicateTypes | app/routes/app.hide-payment.jsx:288-295 | the `new Set(types).size !== types.length` test is true iff two conditions share a type |
| HidePaymentForm.ValidateForm | app/routes/app.hide-payment.jsx:272-342 | `validateForm` collects exactly the name, payment-method, duplicate, repeated-name and per-condition messages, in source order |
| HidePaymentForm.CheckConditions | app/routes/app.hide-payment.jsx:304-325 | the condition loop reports, per condition, the missing amount, product list or country its type needs |
| HidePaymentForm.RowErrorsAreRowChecks | app/routes/app.hide-payment.jsx:307-324 | the condition loop only ever reports the three per-condition messages |
| HidePaymentForm.AllRowErrorsEmpty | app/routes/app.hide-payment.jsx:307-324 | the condition loop reports nothing iff every condition carries the value its type needs |
| HidePaymentForm.HeaderCount | app/routes/app.hide-payment.jsx:274-301 | each name message is counted twice because the name checks run twice; the other header messages once |
| HidePaymentForm.BlankNameReportedTwice | app/routes/app.hide-payment.jsx:274-301 | a blank name yields "Customization name is required" exactly twice, otherwise never |
| HidePaymentForm.InvalidNameReportedTwice | app/routes/app.hide-payment.jsx:274-301 | the name "No name.." yields "Please enter a valid name" exactly twice, otherwise never |
| HidePaymentForm.ValidIff | app/routes/app.hide-payment.jsx:272-342 | the form submits iff the name is set and not "No name..", a payment method is chosen, the types are distinct, there is a condition and each carries its value (both directions) |
| HidePaymentForm.AddedDuplicateIsFlagged | app/routes/app.hide-payment.jsx:228-240 | adding a condition when a cart-total condition exists makes the form refuse to submit with the duplicate message |
| HidePaymentForm.BuildFormData | app/routes/app.hide-payment.jsx:356-374 | `handleSubmit` appends the header fields, then per condition its type, comparison and the one value field its type uses |
| HidePaymentFlow.ConditionFieldValues | app/routes/app.hide-payment.jsx:362-373 | one condition submits exactly one `conditionType`, one `greaterSmaller`, and only the value field its type uses |
| HidePaymentFlow.HeaderFields | app/routes/app.hide-payment.jsx:356-359 | the header holds exactly one `id`, `customizeName` and `paymentMethod` and no condition field |
| HidePaymentFlow.SubmittedGetAll | app/routes/app.hide-payment.jsx:356-374 | every `getAll` on the submitted form data lists the header's values, then each condition's values under that name, in order |
| HidePaymentFlow.ValuesByField | app/routes/app.hide-payment.jsx:362-374 | per field name, the submitted values are the type texts, the comparison texts, the cart-total amounts and the joined product ids of the conditions that send them |
| HidePaymentFlow.SubmittedRead | app/routes/api.payments.hide.jsx:15-27 | the action reads back the id, name and payment method, one type and one comparison per condition, every product condition's ids, and the first cart-total amount the form sent |
| HidePaymentFlow.DistinctTypeTexts | app/routes/api.payments.hide.jsx:35-36 | types the form accepts as distinct arrive as distinct texts, so the action's duplicate check passes |
| HidePaymentFlow.StoredEntry | extensions/hide-payment-method-cart-total/src/run.js:48-54 | the checkout function reads each category's single stored entry back as that entry |
| HidePaymentFlow.GreaterThanMeansAtMost | extensions/hide-payment-method-cart-total/src/run.js:76-83 | a stored `greater_than` entry with amount a holds exactly when the cart total is at most a |
| HidePaymentFlow.CartRowRead | app/routes/api.payments.hide.jsx:23-25 | for the one cart-total row, the action reads its position's comparison and the amount the form sent |
| HidePaymentFlow.CartAmountRead | app/routes/api.payments.hide.jsx:55 | `Number(cartTotal) \|\| 0` of the submitted amount text is the amount of the one cart-total row |
| HidePaymentFlow.SubmittedAmountReadsBack | app/routes/app.hide-payment.jsx:367 | `parseFloat(amount) \|\| 0` of a numeric amount is that amount, and its text reads back as it |
| HidePaymentFlow.CartEntrySaved | app/routes/api.payments.hide.jsx:67-72 | the stored cart-total category is the one entry with the row's comparison and amount |
| HidePaymentFlow.CartLabelAgrees | app/routes/app.hide-payment.jsx:573 | the row labelled "is less than" is saved, and the checkout function then hides the method exactly when the cart total is at most the entered amount |
| HidePaymentFlow.ProductsStoredOnlyAtFirstPosition | app/routes/api.payments.hide.jsx:56 | the one product row's ids are stored when it is the first condition, and nothing is stored otherwise, because product lists are looked up by overall position |
| HidePaymentFlow.RowRead | app/routes/api.payments.hide.jsx:23-24 | the action reads a row's type and comparison back at the row's position |
| HidePaymentFlow.ProductEntrySaved | app/routes/api.payments.hide.jsx:61-66 | the stored product category is the one entry with the row's comparison and the ids read at its position |
| HidePaymentFlow.ProductRowStored | app/routes/api.payments.hide.jsx:86-106 | the saved document's first product entry, as the checkout function reads it, is that entry |
| HidePaymentFlow.LaterProductRowStoresNoIds | app/routes/api.payments.hide.jsx:56 | a product row that is not the first condition is stored with an empty product list |
| HidePaymentFlow.LaterProductRowNeverHides | extensions/hide-payment-method-cart-total/src/run.js:88-96 | a product row that is not the first condition is saved but its `is` test is false for every cart |
| HidePaymentFlow.EmptyIsEntryNeverMatches | extensions/hide-payment-method-cart-total/src/run.js:88-96 | an `is` entry with no products matches no cart |
| HidePaymentFlow.GreaterThanEntryNeverMatches | extensions/hide-payment-method-cart-total/src/run.js:88-111 | a product entry with comparison `greater_than` is neither `is` nor `is_not`, so its test is false for every cart |
| HidePaymentFlow.SwitchedRowNeverHides | app/routes/app.hide-payment.jsx:228-240 | the added row switched to product keeps `greater_than` (the product menu only offers "is" and is never touched), so the saved product test is false for every cart |
| HidePaymentFlow.EditorStartsFromDefault | app/routes/app.hide-payment.jsx:156-177 | reopening a saved rule shows the default product row, because the stored `conditions` is an object without `length` |
| HidePaymentFlow.LowerCaseCountryNeverMatches | app/routes/app.hide-payment.jsx:676-681 | the menu's lower-case codes never equal an upper-case country code, so the `is` country test is false for such carts |
| HidePaymentFormBody.KeyCount | app/components/HidePayment/FormBody.jsx:173-181 | `Object.keys(newErrors).length` is 0 exactly for the error object with no key set |
| HidePaymentFormBody.CountZeroIff | app/components/HidePayment/FormBody.jsx:80-82 | no condition has a type iff the count of conditions with that type is 0 |
| HidePaymentFormBody.ToggleModal | app/components/HidePayment/FormBody.jsx:43-45 | `toggleModal` flips the modal flag and changes nothing else |
| HidePaymentFormBody.SelectProduct | app/components/HidePayment/FormBody.jsx:47-51 | selecting an id removes it when present and appends it when absent; every other id and the rest of the state stay as they were |
| HidePaymentFormBody.SelectProductTwiceRestores | app/components/HidePayment/FormBody.jsx:47-51 | selecting an absent id twice restores the state |
| HidePaymentFormBody.OpenModal | app/components/HidePayment/FormBody.jsx:121-125 | opening the picker on a condition copies its products into the selection, records the index and opens the modal; an index out of range throws |
| HidePaymentFormBody.ConfirmSelection | app/components/HidePayment/FormBody.jsx:53-64 | confirming writes the selection into the current condition only, and closes the modal |
| HidePaymentFormBody.OpenThenConfirmKeepsConditions | app/components/HidePayment/FormBody.jsx:53-64 | opening the picker on a condition and confirming without a change leaves every condition as it was |
| HidePaymentFormBody.OpenToggleConfirm | app/components/HidePayment/FormBody.jsx:47-64 | opening, toggling one product and confirming toggles that product in that condition only |
| HidePaymentFormBody.AddCondition | app/components/HidePayment/FormBody.jsx:78-100 | the add button shows the warning banner when a cart-total condition exists and otherwise appends one |
| HidePaymentFormBody.AddNeverDuplicatesCartTotal | app/components/HidePayment/FormBody.jsx:78-100 | after the add button there is exactly one cart-total condition if there was none, and as many as before otherwise |
| HidePaymentFormBody.AddTwiceAddsOnce | app/components/HidePayment/FormBody.jsx:78-100 | a second press of the add button changes no condition |
| HidePaymentFormBody.RemoveCondition | app/components/HidePayment/FormBody.jsx:103-107 | removing drops exactly the condition at the index and nothing for an index out of range |
| HidePaymentFormBody.ChangeCondition | app/components/HidePayment/FormBody.jsx:110-116 | a field change rewrites only the condition at the index |
| HidePaymentFormBody.ChangeBypassesAddGuard | app/components/HidePayment/FormBody.jsx:110-116 | the type menu can make a second cart-total condition, which the add button's guard refuses |
| HidePaymentFormBody.CountReplace | app/components/HidePayment/FormBody.jsx:110-116 | replacing one condition changes a type's count only by what that condition contributes |
| HidePaymentFormBody.RowsKeys | app/components/HidePayment/FormBody.jsx:151-167 | after the loop a per-row key is set iff it was set before or some visited condition calls for it |
| HidePaymentFormBody.RowStepKeys | app/components/HidePayment/FormBody.jsx:152-166 | one step sets the cart-amount, products or country key iff its condition calls for it and leaves the other keys |
| HidePaymentFormBody.FormErrorsKeys | app/components/HidePayment/FormBody.jsx:132-168 | each key of the error object is set exactly when its check fails |
| HidePaymentFormBody.ValidIff | app/components/HidePayment/FormBody.jsx:132-182 | the form validates iff the name is set and not "No name..", a payment method is chosen, there is a condition, the shared cart amount is truthy when a cart-total condition exists, and each product and country condition has its value |
| HidePaymentFormBody.RowsIgnoreAmounts | app/components/HidePayment/FormBody.jsx:151-167 | the condition loop gives the same errors for conditions that differ only in their own amounts |
| HidePaymentFormBody.RowStepIgnoresAmount | app/components/HidePayment/FormBody.jsx:152-154 | one step never reads the condition's own amount |
| HidePaymentFormBody.SharedAmountValidation | app/components/HidePayment/FormBody.jsx:132-168 | validation reads only the shared cart amount, never a condition's own |
| HidePaymentFormBody.ValidateForm | app/components/HidePayment/FormBody.jsx:132-182 | `validateForm` builds exactly the error object of the checks and answers whether it has no key |
| HidePaymentFormBody.CheckConditions | app/components/HidePayment/FormBody.jsx:151-167 | the `forEach` writes exactly the per-row keys the conditions call for |
| HidePaymentFormBody.ConditionFieldsCartTotal | app/components/HidePayment/FormBody.jsx:204-205 | one condition submits the shared amount under `cartTotal` iff it is a cart-total condition |
| HidePaymentFormBody.SubmittedCartTotals | app/components/HidePayment/FormBody.jsx:201-214 | every submitted `cartTotal` is the same shared amount, once per cart-total condition |
| HidePaymentFormBody.HeaderHasNoCartTotal | app/components/HidePayment/FormBody.jsx:195-198 | the header fields hold no `cartTotal` |
| HidePaymentFormBody.SubmittedIgnoresAmounts | app/components/HidePayment/FormBody.jsx:201-214 | the submitted form data never depends on a condition's own amount |
| HidePaymentFormBody.BuildFormData | app/components/HidePayment/FormBody.jsx:195-214 | `handleSubmit` appends the header fields and then each condition's type, comparison and the value field its type uses |
| HidePaymentFormBody.HandleSubmit | app/components/HidePayment/FormBody.jsx:184-220 | the errors are stored; the form data is posted iff there is none, and the critical banner is shown otherwise |
| RenamePaymentForm.KeyCount | app/routes/app.rename-payment.jsx:352-367 | `Object.keys(newErrors).length` is 0 exactly for the error object with no key set |
| RenamePaymentForm.ValidateForm | app/routes/app.rename-payment.jsx:336-367 | `validateForm` builds exactly the error object of the name, payment-method and new-name checks and answers whether it has no key |
| RenamePaymentForm.NameErrorChain | app/routes/app.rename-payment.jsx:338-344 | the name gets "required" iff it is blank, "at least 3 characters" iff it trims to one or two characters, "valid name" iff it is "No name..", and nothing otherwise, in that order of precedence |
| RenamePaymentForm.PlaceholderNameIsRejected | app/routes/app.rename-payment.jsx:342-344 | the name "No name.." reaches its own message |
| RenamePaymentForm.TrimKeepsEnds | app/routes/app.rename-payment.jsx:380-382 | a value with no white space at either end is posted unchanged |
| RenamePaymentForm.ValidIff | app/routes/app.rename-payment.jsx:336-367 | the form is valid iff the trimmed name has at least three characters and is not "No name..", and the payment method and new name are not blank (both directions) |
| RenamePaymentForm.HandleSubmit | app/routes/app.rename-payment.jsx:373-382 | nothing is posted unless the form validates; then the errors are cleared and the id and the trimmed values are posted |
| RenamePaymentForm.ActionConfig | app/routes/app.rename-payment.jsx:88-99 | the stored configuration has exactly the four keys, holding the posted payment method and `new_name` (null when missing) |
| RenamePaymentForm.SubmittedReadsBack | app/routes/app.rename-payment.jsx:88-91 | the action reads back the id and the trimmed name, payment method and new name the form posted |
| RenamePaymentForm.SubmittedFormRenames | extensions/change-name-of-payment-method/src/run.js:19-49 | once a valid form is saved, the rename function renames, in order and by id, exactly the methods named like the trimmed chosen method to the trimmed new name, and keeps every other name |
| ThankYouUpsell.FindUpsellValue | extensions/thank-you-upsell/src/Checkout.jsx:54-66 | the value found is that of the first `settings.upsell` metafield of the owner type, and nothing is found when there is none |
| ThankYouUpsell.ParseMetafieldData | extensions/thank-you-upsell/src/Checkout.jsx:72-75 | a falsy value reads as null, a string is `JSON.parse`d (and throws when that fails), any other value is kept |
| ThankYouUpsell.FilterIds | extensions/thank-you-upsell/src/Checkout.jsx:206-208 | the filter keeps at most as many ids as it is given |
| ThankYouUpsell.FilterIdsThrows | extensions/thank-you-upsell/src/Checkout.jsx:206-208 | the filter throws iff some truthy id is not a string (it has no `trim`) |
| ThankYouUpsell.FilterIdsKeeps | extensions/thank-you-upsell/src/Checkout.jsx:206-208 | every kept id is non-blank |
| ThankYouUpsell.FilterIdsMembers | extensions/thank-you-upsell/src/Checkout.jsx:206-208 | a non-blank string is kept iff it is one of the given ids (both directions) |
| ThankYouUpsell.ValidIds | extensions/thank-you-upsell/src/Checkout.jsx:206-208 | `(ids \|\| []).filter(...)` throws for a truthy non-array and filters an array |
| ThankYouUpsell.Quote | extensions/thank-you-upsell/src/Checkout.jsx:84-88 | every id in the query is a quoted `gid://` id |
| ThankYouUpsell.QuoteAll | extensions/thank-you-upsell/src/Checkout.jsx:81-89 | the query quotes each kept id, in order |
| ThankYouUpsell.FormatProductIds | extensions/thank-you-upsell/src/Checkout.jsx:78-90 | a missing or non-array list gives the empty query |
| ThankYouUpsell.QuoteHasNoComma | extensions/thank-you-upsell/src/Checkout.jsx:84-88 | quoting adds no comma to a comma-free id |
| ThankYouUpsell.JoinEmptyIff | extensions/thank-you-upsell/src/Checkout.jsx:89 | joining quoted ids gives the empty string iff there is no id |
| ThankYouUpsell.KeptHaveNoComma | extensions/thank-you-upsell/src/Checkout.jsx:81-89 | the quoted kept ids of comma-free strings are comma-free |
| ThankYouUpsell.FormattedIdsAreGids | extensions/thank-you-upsell/src/Checkout.jsx:78-90 | the query lists one quoted `gid://` id per non-blank id, in order, and is empty exactly when no non-blank id remains |
| ThankYouUpsell.SomeSelected | extensions/thank-you-upsell/src/Checkout.jsx:162 | `cartProductIds.some(id => selected.includes(id))` holds iff some cart product id is in the list |
| ThankYouUpsell.CartContainsSelectedProducts | extensions/thank-you-upsell/src/Checkout.jsx:153-163 | a missing, non-array or empty list never matches; otherwise the cart matches iff some cart product is in the list |
| ThankYouUpsell.DecideShopUpsell | extensions/thank-you-upsell/src/Checkout.jsx:175-200 | the shop setting shows the upsell iff the cart meets the selected products or the selection type is "all", and then offers `upsellProducts \|\| []` |
| ThankYouUpsell.Fetch | extensions/thank-you-upsell/src/Checkout.jsx:202-212 | once the upsell shows, only non-blank ids are queried, and a throwing filter makes no query |
| ThankYouUpsell.ProcessShopMetafield | extensions/thank-you-upsell/src/Checkout.jsx:166-218 | `processShopMetafield` computes the shop-level outcome: nothing for falsy settings, and otherwise it shows and queries exactly as the decision says |
| ThankYouUpsell.ProductOutcome | extensions/thank-you-upsell/src/Checkout.jsx:221-241 | a product-level setting always shows the upsell |
| ThankYouUpsell.ProductMetafieldTakesPrecedence | extensions/thank-you-upsell/src/Checkout.jsx:254-255 | a truthy product-level setting decides alone: the cart and the shop setting do not matter, and the upsell shows |
| ThankYouUpsell.ShopMetafieldOtherwise | extensions/thank-you-upsell/src/Checkout.jsx:256-258 | without a product-level setting the shop setting decides; with neither nothing shows |
| ThankYouUpsell.AllSelectionAlwaysShows | extensions/thank-you-upsell/src/Checkout.jsx:197-200 | a shop setting with selection type "all" shows the upsell for every cart and queries exactly the non-blank offered ids |
| ThankYouUpsell.SpecificSelectionNeedsMatch | extensions/thank-you-upsell/src/Checkout.jsx:179-194 | otherwise the upsell shows iff the selected list is non-empty and some cart product is in it |
| ThankYouUpsell.Products | extensions/thank-you-upsell/src/Checkout.jsx:212-216 | the block holds only non-null products, and none when no query was made |
| ThankYouUpsell.NonNull | extensions/thank-you-upsell/src/Checkout.jsx:96-97 | the filter keeps only non-null nodes, and keeps none iff every node is null |
| ThankYouUpsell.RenderNeedsQueriedProducts | extensions/thank-you-upsell/src/Checkout.jsx:279-281 | the render guard passes iff the upsell shows, some non-blank id was queried and the answer holds a product |
| ThankYouUpsell.ColumnLayoutAsWritten | extensions/thank-you-upsell/src/Checkout.jsx:356-389 | `ColumnLayout` as written throws iff it is given fewer than three products, and otherwise makes one card per product |
| ThankYouUpsell.ColumnLayoutThrowsBelowThree | extensions/thank-you-upsell/src/Checkout.jsx:279-299 | as written, the block fails exactly when the guard passes, the layout is "column" and the answer holds one or two products; a single queried product is such a case |
| ThankYouUpsell.Render | extensions/thank-you-upsell/src/Checkout.jsx:279-348 | with the unused `productsData` dropped, the block renders cards iff the guard passes, and the cards are the non-null products in order |
| ThankYouUpsell.RenderShowsEveryProduct | extensions/thank-you-upsell/src/Checkout.jsx:279-348 | the corrected render shows cards iff the upsell shows, an id was queried and the answer holds a product; the layout does not change which cards; it agrees with the code as written wherever that does not throw |
| UpsellCreateApi.SelectionType | app/routes/api.upsell.create.jsx:21 | a missing or empty selection type reads as "specific"; any other value is kept |
| UpsellCreateApi.ParseLists | app/routes/api.upsell.create.jsx:16-20 | the three lists parse together or the request fails; each must be valid JSON |
| UpsellCreateApi.MetaData | app/routes/api.upsell.create.jsx:73-80 | the stored settings document is an object carrying the defaulted selection type, the parsed selected products and the upsell slots |
| UpsellCreateApi.ProductWrites | app/routes/api.upsell.create.jsx:108-137 | one metafield write per product id, in order, each owned by that product and carrying the same settings |
| UpsellCreateApi.WriteProductMetafields | app/routes/api.upsell.create.jsx:108-137 | the `for…of` loop issues exactly the writes of `ProductWrites` |
| UpsellCreateApi.Route | app/routes/api.upsell.create.jsx:84-206 | after a successful database write the outcome is never "Invalid action", records that write, and fails on the metafield only when the shop write was rejected |
| UpsellCreateApi.Action | app/routes/api.upsell.create.jsx:6-225 | the handler, step by step, returns exactly the outcome of the whole-action function |
| UpsellCreateApi.OnlyTwoActions | app/routes/api.upsell.create.jsx:14-225 | "Invalid action" is answered exactly for actions other than save and update, and then nothing is written |
| UpsellCreateApi.NameRequiredSavesNothing | app/routes/api.upsell.create.jsx:27-29 | a missing or empty upsell name fails before any database or metafield write |
| UpsellCreateApi.UpdateByIdIff | app/routes/api.upsell.create.jsx:34-70 | the record is updated by id iff an id is sent with the update action; otherwise it is upserted under the sent name |
| UpsellCreateApi.RoutedOutcome | app/routes/api.upsell.create.jsx:84-206 | a request that passes the checks gets the routing of its parsed lists |
| UpsellCreateApi.SelectedProductsOwnTheirMetafields | app/routes/api.upsell.create.jsx:88-141 | with selected products and a type other than "all" the save succeeds with exactly one write per product, owned by that product |
| UpsellCreateApi.AllSelectionWritesShop | app/routes/api.upsell.create.jsx:146-177 | type "all" with no products writes exactly one metafield, owned by the shop |
| UpsellCreateApi.OtherSelectionsWriteNothing | app/routes/api.upsell.create.jsx:195-206 | "all" with products, or no products with a specific type (collections only), succeeds without any metafield write |
| UpsellCreateApi.ShopWriteShowsUpsell | extensions/thank-you-upsell/src/Checkout.jsx:196-200 | the shop document written for "all" makes the thank-you block show the upsell for every cart, offering the saved slots |
| UpsellCreateApi.ProductWriteShowsUpsell | extensions/thank-you-upsell/src/Checkout.jsx:221-224 | every product write carries the settings document, and read back as a product metafield it shows the upsell whatever the shop metafield holds |
| CreateUpsellEditor.SafeJsonParse | app/routes/app.create-upsell.jsx:117-127 | a falsy value gives the default, a non-string is kept, a string is parsed, and unreadable JSON falls back to the default instead of throwing |
| CreateUpsellEditor.SafeParseMatchesCheckoutParse | app/routes/app.create-upsell.jsx:117-127 | the editor's reader agrees with the thank-you block's reader wherever the block's does not throw, and gives the default where it throws |
| CreateUpsellEditor.StringOr | app/routes/app.create-upsell.jsx:131-138 | `v \|\| ""` keeps a non-empty string and otherwise gives the default |
| CreateUpsellEditor.InitialState | app/routes/app.create-upsell.jsx:130-141 | a new upsell without stored details starts with no name, empty lists, no type and three blank slots |
| CreateUpsellEditor.UnreadableStoredListsFallBack | app/routes/app.create-upsell.jsx:130-141 | stored list text that does not parse starts the editor from the empty list and the three blank slots |
| CreateUpsellEditor.NameChange | app/routes/app.create-upsell.jsx:192-197 | the name becomes the typed value and nothing else changes |
| CreateUpsellEditor.ConditionSelect | app/routes/app.create-upsell.jsx:316-333 | the name and the slots are kept; the type becomes "all" for "all" and "specific" for anything else |
| CreateUpsellEditor.ConditionSelectCases | app/routes/app.create-upsell.jsx:316-333 | "all" and "none" clear both lists, any other choice keeps both, and choosing the same option twice changes nothing more |
| CreateUpsellEditor.Ids | app/routes/app.create-upsell.jsx:252 | the picked resources become an array of their ids, in order |
| CreateUpsellEditor.ProductsPicked | app/routes/app.create-upsell.jsx:235-266 | a cancelled picker, or a product list that is not an array, changes nothing; a pick replaces the products, sets "specific" and clears the collections |
| CreateUpsellEditor.CollectionsPicked | app/routes/app.create-upsell.jsx:269-294 | the collection picker, symmetric: a pick replaces the collections, sets "specific" and clears the products |
| CreateUpsellEditor.ControlsKeepExclusive | app/routes/app.create-upsell.jsx:235-333 | no control makes both products and collections chosen, and a successful pick restores exclusivity from any state |
| CreateUpsellEditor.LastPickerWins | app/routes/app.create-upsell.jsx:235-294 | after both pickers, only the list of the one used last survives |
| CreateUpsellEditor.AllAfterPickClears | app/routes/app.create-upsell.jsx:316-333 | choosing "all" after picking products leaves type "all" with both lists empty |
| CreateUpsellEditor.SlotPicked | app/routes/app.create-upsell.jsx:477-503 | a cancelled or empty pick changes nothing; otherwise only slot `index` changes, to the first picked product, and the number of slots is kept |
| CreateUpsellEditor.SlotPicksCommute | app/routes/app.create-upsell.jsx:494-497 | picks into different slots commute and a second pick into the same slot overrides the first |
| BackupUpsellEditor.Selection | app/routes/app.backup.jsx:236-256 | a checkbox toggles the id in the product list for "product" and in the collection list otherwise, and changes nothing else |
| BackupUpsellEditor.SelectionToggles | app/routes/app.backup.jsx:236-256 | afterwards the id is selected iff it was not; every other id and the other list are unchanged |
| BackupUpsellEditor.SelectionTwiceRestores | app/routes/app.backup.jsx:236-256 | ticking and unticking an unselected id restores the state |
| BackupUpsellEditor.ConditionSelect | app/routes/app.backup.jsx:313-324 | the name and the slots are kept |
| BackupUpsellEditor.ConditionSelectKeeps | app/routes/app.backup.jsx:313-324 | products survive only a "product" choice, collections only a "collection" choice, the type is "all" iff "all" was chosen, and at most one list is left non-empty |
| BackupUpsellEditor.ProductSelection | app/routes/app.backup.jsx:451-459 | only slot `index` changes, to the chosen product |
| BackupUpsellEditor.SlotsStayThree | app/routes/app.backup.jsx:155-161 | the three slots of a new upsell stay three, and the chosen slot holds the chosen product |
| BackupUpsellEditor.Action | app/routes/app.backup.jsx:91-148 | a save stores the sent, non-empty name with a non-empty selection type |
| BackupUpsellEditor.ActionDefaults | app/routes/app.backup.jsx:98-109 | a missing name is refused, and a missing selection type is saved as "specific" |
| BackupUpsellEditor.AgreesWithUpsellApi | app/routes/app.backup.jsx:96-130 | on a save it fails exactly when the upsell API fails before writing, and saves under the name the API upserts by |
| ManageUpsellListing.ConditionType | app/routes/app.manage-upsell.jsx:125-137 | "Selected Products" iff the product text is non-empty, "Selected Collections" iff only the collection text is, else "All Products" |
| ManageUpsellListing.RowLabel | app/routes/app.manage-upsell.jsx:149-151 | type "all" always labels "All Products"; any other type falls back to the list check |
| ManageUpsellListing.EmptyListTextCountsAsSelected | app/routes/app.manage-upsell.jsx:125-137 | the stored text "[]" is non-empty, so an upsell with no products is still labelled "Selected Products" |
| ManageUpsellListing.ApiRowsLabel | app/routes/app.manage-upsell.jsx:125-151 | rows saved by the upsell API are labelled "All Products" for "all" and "Selected Products" otherwise, never "Selected Collections" |
| ManageUpsellListing.CreateDisabled | app/routes/app.manage-upsell.jsx:182-189 | without an active payment the Create button is disabled; with one, a missing plan throws |
| ManageUpsellListing.CreateEnabledIff | app/routes/app.manage-upsell.jsx:182-189 | Create is enabled iff there is an active payment and the plan is Developer Preview or Shopify Plus |
| ManageUpsellListing.PlanBannerAsWrittenIsInverted | app/routes/app.manage-upsell.jsx:196-207 | the warning as written appears for a Shopify Plus store and not for a basic one, and only ever for plans that can customize checkout |
| ManageUpsellListing.PlanBannerMatchesCreateButton | app/routes/app.manage-upsell.jsx:196-207 | the corrected warning shows exactly when an active payment still leaves Create disabled, and never where the written one shows |
| BrandingInputs.GroupsIff | app/routes/app.beta.customization.jsx:735 | n groups of three hex digits match exactly the strings of 3n hex digits |
| BrandingInputs.HexPatternIff | app/routes/app.beta.customization.jsx:735 | the colour check accepts exactly the empty string and "#" followed by three or six hex digits of either case |
| BrandingInputs.ErrorOrSwatch | app/routes/app.beta.customization.jsx:850-876 | a value shows "Invalid hex color" iff it is non-empty and refused, colours the swatch iff it is non-empty and accepted, and shows neither when empty |
| BrandingInputs.LowerHexDigit | app/routes/app.beta.customization.jsx:803 | a digit below 16 is written as one lowercase hex digit |
| BrandingInputs.DigitValue | app/routes/app.beta.customization.jsx:802-805 | proof helper for the `toHex` read-back: every hex digit of either case has a value below 16 |
| BrandingInputs.ToBase16 | app/routes/app.beta.customization.jsx:803 | `toString(16)` gives at least one hex digit, and exactly one iff the number is below 16 |
| BrandingInputs.ToBase16ReadsBack | app/routes/app.beta.customization.jsx:803 | the digits `toString(16)` writes read back as the number |
| BrandingInputs.ToHexTwoDigits | app/routes/app.beta.customization.jsx:802-805 | each channel 0..255 becomes two lowercase hex digits that read back as the channel |
| BrandingInputs.PickedColourIsValid | app/routes/app.beta.customization.jsx:802-807 | the colour the picker writes into the field always passes the field's own check |
| BrandingInputs.ViewPageUrl | app/routes/app.beta.customization.jsx:395-401 | no link without a shop; otherwise the checkout editor link |
| BrandingInputs.StripsPrefix | app/routes/app.beta.customization.jsx:398 | replacing the first occurrence of a prefix removes exactly that prefix |
| BrandingInputs.StripsDomain | app/routes/app.beta.customization.jsx:397 | a dotless shop name followed by ".myshopify.com" gives back the name |
| BrandingInputs.ViewPageUrlNamesStoreAndProfile | app/routes/app.beta.customization.jsx:395-401 | for a myshopify domain and a checkout profile gid the link names the store and the bare profile id |
| BrandingInputs.SetField | app/routes/app.beta.customization.jsx:307-320 | the updated record has the field set to the value and every other field unchanged |
| BrandingInputs.SetFieldLaws | app/routes/app.beta.customization.jsx:307-320 | setting a field back to its old value restores the record, and updates of different fields commute |

## Left out

- Admin API and Prisma calls: none are made. The record lookups, a failed database write and a rejected metafield write are boolean inputs. Writes are returned as records. The order the writes happen in, and a failure halfway through, are not modelled.
- `parseFloat`, `Number`, `JSON.parse` and number-to-string are abstract fields of `Js.Primitives`, not reimplemented. `JSON.stringify` is not modelled. The stored list columns the listing page reads are therefore given as text, not derived from the upsell action.
- HidePaymentFlow.GreaterThanMeansAtMost, HidePaymentFlow.CartRowRead, HidePaymentFlow.CartAmountRead, HidePaymentFlow.SubmittedAmountReadsBack, HidePaymentFlow.CartEntrySaved and HidePaymentFlow.CartLabelAgrees require `Js.ReadsBackNumber(js, a)` of the entered amount `a`: it must survive formatting, so that `parseFloat` and `Number` read its text back as `a`. In JavaScript every double does, but the abstract primitives do not promise it, and the model's amounts are reals rather than doubles.
- ManageUpsellListing.PlanBannerAsWritten takes a plan that is present. The banner reads `shopPlan.displayName` whatever `hasActivePayment` is, so a missing plan makes the whole page throw even without an active payment; only the Create button's throw (`ManageUpsellListing.CreateDisabled`) is modelled.
- Money and quantities are unbounded `real` and `int`. Floating-point rounding is left out, and so is how `discount*100` is formatted.
- React state and effect timing, `fetcher.submit` and `window.open` are left out. Resource picker results and the thank-you block's product query are inputs to pure state transitions. The asynchronous effect ordering is not modelled.
- CreateUpsellEditor.SlotPicked: a slot list that is not an array is reported as `Throws`. The model does not say whether React's state updater runs inside or outside the surrounding `try`.
- The HSB→RGB conversion of the colour picker is floating-point arithmetic. `toHex` is modelled from the rounded channel `Math.round(x * 255)` onwards.
- Price formatting with `Intl` in the thank-you block, and rendering in general, are left out. Only which product cards render, and whether the column layout fails, are modelled.
- Strings are sequences of Unicode characters, not JavaScript's UTF-16 code units, so a character outside the Basic Multilingual Plane counts once where JavaScript counts two. Regular expressions in general are not modelled. The one hex regex is spelled out as a predicate.
- UpsellCreateApi.UpdateByIdIff: the id is kept as the submitted string; `parseInt(upsellId)` is not modelled.
- UpsellCreateApi.Action: any exception the Admin API itself would throw is left out; only a metafield write rejected by `userErrors` is modelled.
- The create-upsell page's `saveAllSettings`, and the backup page's, only post the state through `fetcher.submit` and are not modelled.
- The delete action and the loader of the listing page, and the loaders of the other pages, are database reads and are not modelled.
- `app/components/HidePayment/FormBody.jsx` is modelled as its own component. No route in `app/routes` renders it, so it is not linked to the hide-payment API.
- Billing and subscription routes, webhooks, rendering-only extensions and components, and the listing and CRUD glue routes contain no rule logic and are not modelled.

## Findings

| source | as written | input that shows it | evidently intended | confidence | as-written member | corrected member |
|---|---|---|---|---|---|---|
| app/routes/app.manage-upsell.jsx:196-207 | the "Checkout can't be Customized" warning renders when the plan is Shopify Plus (and any name but "Developer Preview"), so it appears for stores that can customize checkout | `Plan("Shopify Plus", true)` shows the warning; `Plan("Basic", false)` does not | show the warning exactly when the plan is neither Developer Preview nor Shopify Plus | not executed | ManageUpsellListing.PlanBannerAsWrittenIsInverted | ManageUpsellListing.PlanBannerMatchesCreateButton |
| extensions/thank-you-upsell/src/Checkout.jsx:364-389 | `ColumnLayout` builds an unused `productsData` from `products[0]`, `products[1]` and `products[2]`, so `.id` of a missing product throws whenever fewer than three products are shown | layout "column" with one non-blank upsell id whose product the query returns: `products[1].id` throws and the block fails to render | render one card per product whatever their number, as `products.map` below already does | not executed | ThankYouUpsell.ColumnLayoutThrowsBelowThree | ThankYouUpsell.RenderShowsEveryProduct |

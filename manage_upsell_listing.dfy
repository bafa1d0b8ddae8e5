/** The upsell listing page: the condition label of each row, the Create
    button's disabled state and the plan warning banner. */
module ManageUpsellListing {
  import opened Js

  /** A row as the loader selects it. The list columns hold the JSON text the
      upsell API stored, or null. */
  datatype StoredUpsell = StoredUpsell(
    upsellName: string,
    selectionType: Option<string>,
    selectedProducts: Option<string>,
    selectedCollections: Option<string>)

  datatype Label = SelectedProducts | SelectedCollections | AllProducts

  /** `v && v.length > 0` on a nullable string column. */
  predicate NonEmptyText(v: Option<string>) {
    v.Some? && |v.value| > 0
  }

  /** `getConditionType(upsell)`: products before collections, else all. */
  function ConditionType(u: StoredUpsell): (l: Label)
    ensures l == SelectedProducts <==> NonEmptyText(u.selectedProducts)
    ensures l == SelectedCollections <==> !NonEmptyText(u.selectedProducts) && NonEmptyText(u.selectedCollections)
    ensures l == AllProducts <==> !NonEmptyText(u.selectedProducts) && !NonEmptyText(u.selectedCollections)
  {
    if NonEmptyText(u.selectedProducts) then SelectedProducts
    else if NonEmptyText(u.selectedCollections) then SelectedCollections
    else AllProducts
  }

  /** The label cell: "all" overrides whatever the lists hold. */
  function RowLabel(u: StoredUpsell): (l: Label)
    ensures u.selectionType == Some("all") ==> l == AllProducts
    ensures u.selectionType != Some("all") ==> l == ConditionType(u)
  {
    if u.selectionType == Some("all") then AllProducts else ConditionType(u)
  }

  /** The lists are compared as text, so a stored empty list "[]" reads as
      selected products. */
  lemma EmptyListTextCountsAsSelected(name: string, selectionType: Option<string>, collections: Option<string>)
    requires selectionType != Some("all")
    ensures RowLabel(StoredUpsell(name, selectionType, Some("[]"), collections)) == SelectedProducts
  {
  }

  /** Every row the upsell API stored has non-empty list text, so its label is
      "All Products" for type "all" and "Selected Products" otherwise, even
      for an upsell triggered by collections only. */
  lemma ApiRowsLabel(u: StoredUpsell)
    requires NonEmptyText(u.selectedProducts)
    ensures RowLabel(u) == if u.selectionType == Some("all") then AllProducts else SelectedProducts
    ensures RowLabel(u) != SelectedCollections
  {
  }

  /** The shop's plan, when the loader got it. */
  datatype Plan = Plan(displayName: string, shopifyPlus: bool)

  predicate CanCustomizeCheckout(p: Plan) {
    p.displayName == "Developer Preview" || p.shopifyPlus
  }

  /** The Create button's `disabled`: true without an active payment, else
      false exactly for a Developer Preview or Shopify Plus plan. The button
      reads a missing plan, and so throws, only when there is an active
      payment; the banner beside it reads the plan in every case. */
  function CreateDisabled(hasActivePayment: bool, shopPlan: Option<Plan>): (r: Result<bool>)
    ensures !hasActivePayment ==> r == Ok(true)
    ensures r.Throws? <==> hasActivePayment && shopPlan.None?
  {
    if !hasActivePayment then Ok(true)
    else if shopPlan.None? then Throws
    else Ok(!CanCustomizeCheckout(shopPlan.value))
  }

  /** Create is enabled iff there is an active payment and the plan is
      Developer Preview or Shopify Plus. */
  lemma CreateEnabledIff(hasActivePayment: bool, shopPlan: Option<Plan>)
    ensures CreateDisabled(hasActivePayment, shopPlan) == Ok(false) <==>
      hasActivePayment && shopPlan.Some? && (shopPlan.value.displayName == "Developer Preview" || shopPlan.value.shopifyPlus)
  {
  }

  /** The "can't customize checkout" banner as written:
      `displayName === "Developer Preview" || (shopifyPlus === true && banner)`
      renders the banner only when the second operand is reached and holds. */
  predicate PlanBannerAsWritten(p: Plan) {
    p.displayName != "Developer Preview" && p.shopifyPlus
  }

  /** The banner as its text describes it: shown when the plan can not
      customize checkout. */
  predicate PlanBanner(p: Plan) {
    !CanCustomizeCheckout(p)
  }

  /** As written, the warning appears for a Shopify Plus store, which can
      customize checkout, and not for a basic store, which can not. */
  lemma PlanBannerAsWrittenIsInverted()
    ensures PlanBannerAsWritten(Plan("Shopify Plus", true)) && CanCustomizeCheckout(Plan("Shopify Plus", true))
    ensures !PlanBannerAsWritten(Plan("Basic", false)) && !CanCustomizeCheckout(Plan("Basic", false))
    ensures forall p: Plan :: PlanBannerAsWritten(p) ==> CanCustomizeCheckout(p)
  {
  }

  /** The corrected banner shows exactly when, with an active payment, the
      Create button is disabled for the plan's sake. */
  lemma PlanBannerMatchesCreateButton(p: Plan)
    ensures PlanBanner(p) <==> CreateDisabled(true, Some(p)) == Ok(true)
    ensures PlanBanner(p) ==> !PlanBannerAsWritten(p)
  {
  }
}

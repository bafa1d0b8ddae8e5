/** The checkout snapshot the platform hands to a function run: the cart, the
    buyer, the delivery groups, the payment methods on offer and the shop's
    configuration metafield. Only the fields the functions read are kept. */
module Checkout {
  import opened Js

  /** One entry of `hasTags(tags: [...])`: a queried tag and whether the owner carries it. */
  datatype TagResponse = TagResponse(tag: string, hasTag: bool)

  datatype Customer = Customer(hasTags: seq<TagResponse>)

  datatype Product = Product(id: string, hasTags: seq<TagResponse>)

  /** `__typename` distinguishes the two kinds of merchandise; a custom product
      has no variant id and no parent product. */
  datatype Merchandise =
    | ProductVariant(id: string, product: Product)
    | CustomProduct

  datatype CartLine = CartLine(quantity: int, merchandise: Merchandise)

  datatype DeliveryOption = DeliveryOption(handle: string, title: string)

  /** `countryCode` is `None` when the group has no delivery address or the
      address has no country. */
  datatype DeliveryGroup = DeliveryGroup(countryCode: Option<string>, deliveryOptions: seq<DeliveryOption>)

  /** `totalAmount` is `cart.cost.totalAmount.amount`, a decimal string, or
      `None` when the cost is absent. */
  datatype Cart = Cart(
    buyer: Option<Customer>,
    deliveryGroups: seq<DeliveryGroup>,
    lines: seq<CartLine>,
    totalAmount: Option<string>
  )

  datatype PaymentMethod = PaymentMethod(id: string, name: string)

  /** `metafield` is `input.shop.metafield?.value`: `None` when the shop has no
      configuration metafield. */
  datatype Input = Input(cart: Cart, paymentMethods: seq<PaymentMethod>, metafield: Option<string>)

  /** `!metafield?.value`. */
  predicate MissingConfig(input: Input) {
    input.metafield.None? || input.metafield.value == ""
  }
}

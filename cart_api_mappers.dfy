/** frontend/src/entities/cart/api/mappers.ts: cart responses turned into
    cart lines, with defaults for the product fields the cart response does
    not carry. */
module CartApiMappers {
  import opened Wrappers
  import opened ProductTypes
  import opened CartStore
  import ProductApiMappers

  /** The product of a cart response item. */
  datatype CartProductResponse = CartProductResponse(id: int, name: string, price: int, originalPrice: int,
                                                     thumbnailImageUrl: Option<string>, status: string)

  datatype ItemResponse = ItemResponse(product: CartProductResponse, quantity: int)

  const DefaultCategory := "ELECTRONICS"

  /** `mapToCartItem(response)`. */
  function MapToCartItem(response: ItemResponse): CartItem
  {
    var p := response.product;
    CartItem(Product(p.id, p.name, p.originalPrice, p.price, "", p.thumbnailImageUrl, DefaultCategory,
                     p.status == "ACTIVE", p.status, None), response.quantity)
  }

  /** `mapToCartItems(responses)`. */
  function MapToCartItems(responses: seq<ItemResponse>): (r: seq<CartItem>)
    ensures |r| == |responses|
    ensures forall i :: 0 <= i < |responses| ==> r[i] == MapToCartItem(responses[i])
  {
    if responses == [] then [] else [MapToCartItem(responses[0])] + MapToCartItems(responses[1..])
  }

  /** The copied fields are the response's; the others take their defaults:
      an empty description, the first category whatever the product really
      is, no stock, and "in stock" meaning the status is ACTIVE. */
  lemma CartItemFields(response: ItemResponse)
    ensures var item := MapToCartItem(response);
      item.quantity == response.quantity
      && item.product.id == response.product.id && item.product.name == response.product.name
      && item.product.price == response.product.price && item.product.originalPrice == response.product.originalPrice
      && item.product.thumbnailImageUrl == response.product.thumbnailImageUrl
      && item.product.status == response.product.status
      && item.product.description == "" && item.product.category == DefaultCategory
      && item.product.stock.None?
      && (item.product.inStock <==> response.product.status == "ACTIVE")
  {
  }

  /** The sum of a mapped cart is the sum over the responses: the mapping
      changes neither a price nor a quantity. */
  lemma {:induction false} MappedSubtotal(responses: seq<ItemResponse>)
    ensures Subtotal(MapToCartItems(responses)) == SubtotalOf(responses)
    ensures TotalItems(MapToCartItems(responses)) == CountOf(responses)
  {
    if responses != [] {
      var init := responses[..|responses| - 1];
      var items := MapToCartItems(responses);
      assert items[..|items| - 1] == MapToCartItems(init);
      MappedSubtotal(init);
    }
  }

  /** `Σ price × quantity` over the responses, in their order. */
  function SubtotalOf(responses: seq<ItemResponse>): int
  {
    if responses == [] then 0
    else
      var last := responses[|responses| - 1];
      SubtotalOf(responses[..|responses| - 1]) + last.product.price * last.quantity
  }

  /** `Σ quantity` over the responses, in their order. */
  function CountOf(responses: seq<ItemResponse>): int
  {
    if responses == [] then 0 else CountOf(responses[..|responses| - 1]) + responses[|responses| - 1].quantity
  }

  /** The cart's "in stock" and the product list's disagree: an ACTIVE
      product with no stock left is in stock in the cart and out of stock in
      the list. */
  lemma InStockDisagrees(p: CartProductResponse, entry: ProductApiMappers.ListResponse)
    requires p.status == "ACTIVE" && entry.stock == 0
    ensures MapToCartItem(ItemResponse(p, 1)).product.inStock
    ensures !ProductApiMappers.MapListEntry(entry).inStock
  {
  }
}

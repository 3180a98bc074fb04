/** frontend/src/entities/order/api/mappers.ts: the order response turned
    into the store's `Order`, with every price flattened to a number. */
module OrderApiMappers {
  import opened Wrappers
  import opened OrderTypes

  /** A price as it arrives: a number, an object (the backend's `Money`)
      whose `amount` property may be missing, or anything else (null,
      undefined, a string). */
  datatype Price = NumberPrice(n: int) | AmountObject(amount: Option<int>) | NoPrice

  /** `typeof p === 'number' ? p : (p && typeof p === 'object' && 'amount' in
      p ? p.amount : 0)`. */
  function Flatten(p: Price): (r: int)
    ensures p.NumberPrice? ==> r == p.n
    ensures p.AmountObject? && p.amount.Some? ==> r == p.amount.value
    ensures p.NoPrice? || p == AmountObject(None) ==> r == 0
  {
    match p
    case NumberPrice(n) => n
    case AmountObject(Some(a)) => a
    case _ => 0
  }

  /** The response's `product` of an item. */
  datatype ProductResponse = ProductResponse(id: int, name: string, originalPrice: Price, price: Price,
                                             thumbnailImageUrl: Option<string>)

  datatype ItemResponse = ItemResponse(product: ProductResponse, quantity: int)

  /** `OrderResponse.Get`: the delivery record has the same shape as the
      store's. */
  datatype OrderResponse = OrderResponse(id: string, orderStatus: string, deliveryInfo: DeliveryInfo,
                                         totalPrice: Price, orderItems: seq<ItemResponse>, createdAt: string)

  /** An item of `orderItems.map(...)`. */
  function MapItem(item: ItemResponse): OrderItem
  {
    var p := item.product;
    OrderItem(OrderProduct(p.id, p.name, Flatten(p.originalPrice), Flatten(p.price), p.thumbnailImageUrl), item.quantity)
  }

  function MapItems(items: seq<ItemResponse>): (r: seq<OrderItem>)
    ensures |r| == |items|
    ensures forall i :: 0 <= i < |items| ==> r[i] == MapItem(items[i])
  {
    if items == [] then [] else [MapItem(items[0])] + MapItems(items[1..])
  }

  /** `mapToOrder(response)`. */
  function MapToOrder(response: OrderResponse): Order
  {
    Order(response.id, response.orderStatus,
          DeliveryInfo(response.deliveryInfo.name, response.deliveryInfo.phone, response.deliveryInfo.deliveryRequest,
                       Address(response.deliveryInfo.address.address, response.deliveryInfo.address.detailAddress,
                               response.deliveryInfo.address.postCode)),
          Flatten(response.totalPrice), MapItems(response.orderItems), response.createdAt)
  }

  /** `mapToOrders(responses)`. */
  function MapToOrders(responses: seq<OrderResponse>): (r: seq<Order>)
    ensures |r| == |responses|
    ensures forall i :: 0 <= i < |responses| ==> r[i] == MapToOrder(responses[i])
  {
    if responses == [] then [] else [MapToOrder(responses[0])] + MapToOrders(responses[1..])
  }

  /** The response of an order whose prices are sent as plain numbers. */
  function AsResponse(order: Order): OrderResponse
  {
    OrderResponse(order.id, order.orderStatus, order.deliveryInfo, NumberPrice(order.totalPrice),
                  seq(|order.orderItems|, i requires 0 <= i < |order.orderItems| =>
                    var item := order.orderItems[i];
                    ItemResponse(ProductResponse(item.product.id, item.product.name,
                                                 NumberPrice(item.product.originalPrice), NumberPrice(item.product.price),
                                                 item.product.thumbnailImageUrl), item.quantity)),
                  order.createdAt)
  }

  /** The mapping loses nothing: an order sent with numeric prices maps back
      to itself, and so does one sent with `Money` objects in their place. */
  lemma MapToOrderRoundTrip(order: Order)
    ensures MapToOrder(AsResponse(order)) == order
    ensures MapToOrder(AsResponse(order).(totalPrice := AmountObject(Some(order.totalPrice)))) == order
  {
    var r := AsResponse(order);
    assert MapItems(r.orderItems) == order.orderItems;
  }

  /** Every price is flattened the same way, so only the form of the prices
      matters, not which of them is an object. */
  lemma PricesFlattened(response: OrderResponse, i: nat)
    requires i < |response.orderItems|
    ensures MapToOrder(response).totalPrice == Flatten(response.totalPrice)
    ensures MapToOrder(response).orderItems[i].product.price == Flatten(response.orderItems[i].product.price)
    ensures MapToOrder(response).orderItems[i].product.originalPrice == Flatten(response.orderItems[i].product.originalPrice)
    ensures MapToOrder(response).orderItems[i].quantity == response.orderItems[i].quantity
    ensures |MapToOrder(response).orderItems| == |response.orderItems|
  {
  }

  /** The status is cast without a check: a status the backend's order
      machine uses but the frontend enum lacks passes through and is shown
      as its own code with the gray class. */
  lemma StatusUnchecked(response: OrderResponse)
    requires response.orderStatus == "PENDING_STOCK_REDUCTION"
    ensures MapToOrder(response).orderStatus !in StatusCodes
    ensures Description(MapToOrder(response).orderStatus) == "PENDING_STOCK_REDUCTION"
    ensures StatusClass(MapToOrder(response).orderStatus) == DefaultStatusClass
  {
    Fallbacks(response.orderStatus);
  }
}

/** `OrderServiceMapper` (service/order/dto): builds an `Order` from the
    user's cart and the request, and flattens an order into its response.
    The user and cart repositories are maps from user id. */
module OrderServiceMapping {
  import opened Wrappers
  import opened Money
  import opened Addresses
  import opened Users
  import opened Orders
  import opened Carts

  const UserMissingMessage := "사용자 정보가 없습니다. 잘못된 접근입니다."
  const EmptyCartMessage := "장바구니에 상품이 없습니다."

  /** The address part of a create request. */
  datatype AddressRequest = AddressRequest(address: Option<string>, detailAddress: Option<string>,
                                           postCode: Option<string>)

  /** The delivery part of a create request. */
  datatype DeliveryRequest = DeliveryRequest(name: Option<string>, phone: Option<string>,
                                             address: Option<AddressRequest>, deliveryRequest: Option<string>)

  /** `OrderServiceRequest.Create`. */
  datatype CreateRequest = CreateRequest(totalPrice: Option<Money>, deliveryInfo: Option<DeliveryRequest>)

  /** Each cart line becomes an order line for the same product (snapshot)
      and quantity; a cart line always has a product and a non-negative
      quantity, so none is refused. */
  function ToOrderItems(items: seq<CartItem>): (r: seq<OrderItem>)
    reads ProductSet(items)
    ensures |r| == |items|
    ensures forall i :: 0 <= i < |items| ==> Ok(r[i]) == NewOrderItem(items[i].product, Some(items[i].quantity))
    ensures forall i :: 0 <= i < |items| ==> (r[i].quantity == items[i].quantity
      && r[i].product.id == items[i].product.id && r[i].product.price == items[i].product.price)
  {
    if items == [] then []
    else
      assert ProductSet(items[1..]) <= ProductSet(items) by {
        forall x | x in ProductSet(items[1..]) ensures x in ProductSet(items) {
          var i :| 0 <= i < |items[1..]| && items[1..][i].product == x;
          assert items[i + 1].product == x;
        }
      }
      assert items[0].product in ProductSet(items);
      var rest := ToOrderItems(items[1..]);
      var r := [NewOrderItem(items[0].product, Some(items[0].quantity)).value] + rest;
      assert forall i :: 1 <= i < |items| ==> r[i] == rest[i - 1] && items[i] == items[1..][i - 1];
      r
  }

  /** The request's address, then its delivery details: a missing part
      throws a null pointer error, the value objects check the rest. */
  function DeliveryOf(request: CreateRequest): (r: Result<DeliveryInfo>)
    ensures request.deliveryInfo.None? ==> r == Fail(NullPointer)
    ensures request.deliveryInfo.Some? && request.deliveryInfo.value.address.None? ==> r == Fail(NullPointer)
    ensures request.deliveryInfo.Some? && request.deliveryInfo.value.address.Some?
      ==> (var d := request.deliveryInfo.value;
           var a := d.address.value;
           var address := NewAddress(a.address, a.detailAddress, a.postCode);
           (address.Fail? ==> r == Fail(address.error))
           && (address.Ok? ==> r == NewDeliveryInfo(d.name, d.phone, Some(address.value), d.deliveryRequest)))
  {
    if request.deliveryInfo.None? then Fail(NullPointer)
    else
      var d := request.deliveryInfo.value;
      if d.address.None? then Fail(NullPointer)
      else
        var a := d.address.value;
        match NewAddress(a.address, a.detailAddress, a.postCode)
        case Fail(e) => Fail(e)
        case Ok(address) => NewDeliveryInfo(d.name, d.phone, Some(address), d.deliveryRequest)
  }

  /** `createOrder`: the user must exist and the cart must hold items; the
      total is taken from the request, so `Order` refuses one that does not
      match the cart.  The new order's identifier and time are parameters. */
  method CreateOrder(userId: int, request: CreateRequest, users: map<int, User>, carts: map<int, ProductCart>,
                     orderId: string, now: int) returns (r: Result<Order>)
    ensures userId !in users ==> r == Fail(Domain(UserMissingMessage))
    ensures userId in users && (userId !in carts || carts[userId].items == [])
      ==> r == Fail(UnprocessableEntity(EmptyCartMessage))
    ensures userId in users && userId in carts && carts[userId].items != [] && DeliveryOf(request).Fail?
      ==> r == Fail(DeliveryOf(request).error)
    ensures userId in users && userId in carts && carts[userId].items != [] && DeliveryOf(request).Ok?
      ==> (var v := OrderValidation(true, request.totalPrice, Some(old(ToOrderItems(carts[userId].items))),
                                    Some(DeliveryOf(request).value));
           (r.Ok? <==> v == Pass) && (v.Raise? ==> r == Fail(v.error)))
    ensures r.Ok? ==> (fresh(r.value) && r.value.user == users[userId]
      && r.value.orderItems == old(ToOrderItems(carts[userId].items))
      && r.value.totalPrice == request.totalPrice.value && r.value.deliveryInfo == DeliveryOf(request).value
      && r.value.orderStatus == PENDING_STOCK_REDUCTION)
  {
    if userId !in users {
      return Fail(Domain(UserMissingMessage));
    }
    var user := users[userId];
    if userId !in carts || carts[userId].GetItems() == [] {
      return Fail(UnprocessableEntity(EmptyCartMessage));
    }
    var orderItems := ToOrderItems(carts[userId].items);
    var deliveryInfo := DeliveryOf(request);
    if deliveryInfo.Fail? {
      return Fail(deliveryInfo.error);
    }
    r := Order.Create(orderId, user, request.totalPrice, Some(orderItems), Some(deliveryInfo.value), now);
  }

  /** `OrderServiceResponse.OrderItem`. */
  datatype OrderItemResponse = OrderItemResponse(product: OrderProduct, quantity: nat)

  /** `OrderServiceResponse.DeliveryInfo`. */
  datatype DeliveryResponse = DeliveryResponse(name: string, phone: string, deliveryRequest: Option<string>,
                                               address: Address)

  /** `OrderServiceResponse.Get`. */
  datatype OrderResponse = OrderResponse(id: string, orderStatus: OrderStatus, deliveryInfo: DeliveryResponse,
                                         totalPrice: Money, orderItems: seq<OrderItemResponse>, createdAt: int)

  /** `toOrderItems`: one response line per order line, in order. */
  function ToOrderItemResponses(items: seq<OrderItem>): (r: seq<OrderItemResponse>)
    ensures |r| == |items|
    ensures forall i :: 0 <= i < |items| ==> r[i].product == items[i].product && r[i].quantity == items[i].quantity
  {
    seq(|items|, i requires 0 <= i < |items| => OrderItemResponse(items[i].product, items[i].quantity))
  }

  /** `toDeliveryInfo`. */
  function ToDeliveryResponse(d: DeliveryInfo): (r: DeliveryResponse)
    ensures r.name == d.name && r.phone == d.phone && r.deliveryRequest == d.deliveryRequest
      && r.address == d.address
  {
    DeliveryResponse(d.name, d.phone, d.deliveryRequest, d.address)
  }

  /** `toGet`: identifier, status, delivery, total, lines and time copied. */
  function ToGet(order: Order): (r: OrderResponse)
    reads order
    ensures r.id == order.id && r.orderStatus == order.orderStatus && r.totalPrice == order.totalPrice
      && r.createdAt == order.createdAt && r.deliveryInfo.address == order.deliveryInfo.address
    ensures |r.orderItems| == |order.orderItems|
    ensures forall i :: 0 <= i < |r.orderItems| ==> (r.orderItems[i].product == order.orderItems[i].product
      && r.orderItems[i].quantity == order.orderItems[i].quantity)
  {
    OrderResponse(order.id, order.orderStatus, ToDeliveryResponse(order.deliveryInfo), order.totalPrice,
                  ToOrderItemResponses(order.GetOrderItems()), order.createdAt)
  }

  /** The order lines a response's lines describe. */
  function LinesOf(lines: seq<OrderItemResponse>): (r: seq<OrderItem>)
    ensures |r| == |lines|
    ensures forall i :: 0 <= i < |lines| ==> r[i] == OrderItem(lines[i].product, lines[i].quantity)
  {
    seq(|lines|, i requires 0 <= i < |lines| => OrderItem(lines[i].product, lines[i].quantity))
  }

  /** The response lines lose nothing: they describe the order lines exactly. */
  lemma ResponseLinesRoundTrip(items: seq<OrderItem>)
    ensures LinesOf(ToOrderItemResponses(items)) == items
  {
    var back := LinesOf(ToOrderItemResponses(items));
    assert forall i :: 0 <= i < |items| ==> back[i] == items[i];
  }

  /** The response of an order that passed validation states a total with two
      decimals that is exactly the item total of the lines it lists. */
  lemma ResponseTotalMatchesLines(order: Order)
    requires OrderValidation(true, Some(order.totalPrice), Some(order.orderItems), Some(order.deliveryInfo)) == Pass
    ensures var r := ToGet(order);
      r.totalPrice.scale == 2 && ItemsTotal(LinesOf(r.orderItems)) == Ok(r.totalPrice)
  {
    ResponseLinesRoundTrip(order.orderItems);
    AcceptedTotal(true, order.totalPrice, order.orderItems, order.deliveryInfo);
  }
}

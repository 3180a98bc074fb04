/** The order aggregate (domain/order): the snapshot of a product taken when
    it is ordered, order lines, delivery details, and `Order` with its total
    check and its status machine. */
module Orders {
  import opened Wrappers
  import opened Text
  import opened Money
  import opened Addresses
  import opened Products
  import opened Users

  const ProductBlankMessage := "상품은 비어있을 수 없습니다."
  const QuantityNegativeMessage := "수량은 음수일 수 없습니다."
  const OrdererNameBlankMessage := "주문자 이름은 비어있을 수 없습니다."
  const OrdererPhoneBlankMessage := "주문자 연락처는 비어있을 수 없습니다."
  const AddressMissingMessage := "배송 주소는 비어있을 수 없습니다."
  const OrdererMissingMessage := "주문자는 비어있을 수 없습니다."
  const TotalPriceMissingMessage := "주문 금액은 비어있을 수 없습니다."
  const ItemsMissingMessage := "주문 상품은 비어있을 수 없습니다."
  const DeliveryInfoMissingMessage := "주문 정보는 비어있을 수 없습니다."
  const TotalMismatchMessage := "주문 금액이 일치하지 않습니다."
  const StatusInvalidMessage := "주문 상태가 올바르지 않습니다."

  datatype OrderStatus = PENDING_STOCK_REDUCTION | PENDING_PAYMENT | ORDERED | FAILED | CANCELLED

  /** What an order keeps of a product: the values at the time of ordering. */
  datatype OrderProduct = OrderProduct(id: int, name: Option<string>, originalPrice: Option<Money>,
                                       price: Option<Money>, thumbnailImageUrl: Option<string>)

  /** `new OrderProduct(product)`: copies the product's identity, name,
      prices and thumbnail, so later edits of the product do not reach it. */
  function Snapshot(product: Product?): (r: Result<OrderProduct>)
    reads product
    ensures r.Fail? <==> product == null
    ensures r.Fail? ==> r.error == Domain(ProductBlankMessage)
    ensures r.Ok? ==> (r.value.id == product.id && r.value.price == product.price
      && r.value.originalPrice == product.originalPrice && r.value.name == product.name
      && r.value.thumbnailImageUrl == product.thumbnailImageUrl)
  {
    if product == null then Fail(Domain(ProductBlankMessage))
    else Ok(OrderProduct(product.id, product.name, product.originalPrice, product.price,
                         product.thumbnailImageUrl))
  }

  /** An order line; the constructor never lets a negative quantity in. */
  datatype OrderItem = OrderItem(product: OrderProduct, quantity: nat)

  /** `new OrderItem(product, quantity)`: product first, then quantity. */
  function NewOrderItem(product: Product?, quantity: Option<int>): (r: Result<OrderItem>)
    reads product
    ensures r.Ok? <==> product != null && quantity.Some? && quantity.value >= 0
    ensures product == null ==> r == Fail(Domain(ProductBlankMessage))
    ensures product != null && !(quantity.Some? && quantity.value >= 0) ==> r == Fail(Domain(QuantityNegativeMessage))
    ensures r.Ok? ==> (r.value.quantity == quantity.value && r.value.product.id == product.id
      && r.value.product.price == product.price)
    ensures r.Ok? ==> r.value.product == Snapshot(product).value
  {
    if product == null then Fail(Domain(ProductBlankMessage))
    else if quantity.None? || quantity.value < 0 then Fail(Domain(QuantityNegativeMessage))
    else Ok(OrderItem(Snapshot(product).value, quantity.value))
  }

  /** `getTotalPrice`: the snapshot price times the quantity (scale 2,
      half-up); a snapshot without a price throws a null pointer error. */
  function TotalPrice(item: OrderItem): (r: Result<Money>)
    ensures r.Fail? <==> item.product.price.None?
    ensures r.Fail? ==> r.error == NullPointer
    ensures r.Ok? ==> r.value.scale == 2
  {
    if item.product.price.None? then Fail(NullPointer)
    else MultiplyInt(item.product.price.value, item.quantity)
  }

  /** With a price of at most two decimals the line total is exact. */
  lemma TotalPriceExact(item: OrderItem)
    requires item.product.price.Some? && item.product.price.value.scale <= 2
    ensures Aligned(TotalPrice(item).value, 2) == Aligned(item.product.price.value, 2) * item.quantity
  {
    MultiplyIntExact(item.product.price.value, item.quantity);
  }

  /** Every line's snapshot carries a price. */
  predicate AllPriced(items: seq<OrderItem>)
  {
    forall i :: 0 <= i < |items| ==> items[i].product.price.Some?
  }

  /** Every line's price has at most two decimals. */
  predicate CentPrices(items: seq<OrderItem>)
    requires AllPriced(items)
  {
    forall i :: 0 <= i < |items| ==> items[i].product.price.value.scale <= 2
  }

  /** The reference total in hundredths: the sum of price x quantity. */
  ghost function Cents(items: seq<OrderItem>): int
    requires AllPriced(items) && CentPrices(items)
  {
    if items == [] then 0
    else Aligned(items[0].product.price.value, 2) * items[0].quantity + Cents(items[1..])
  }

  /** The stream `map(getTotalPrice).reduce(acc, add)`: a left fold that
      stops at the first line without a price. */
  function FoldTotals(acc: Money, items: seq<OrderItem>): (r: Result<Money>)
    ensures r.Ok? <==> AllPriced(items)
    ensures r.Fail? ==> r.error == NullPointer
    ensures r.Ok? && items != [] ==> r.value.scale == Max(acc.scale, 2)
    ensures r.Ok? && items == [] ==> r.value == acc
    decreases |items|
  {
    if items == [] then Ok(acc)
    else match TotalPrice(items[0])
      case Fail(e) => Fail(e)
      case Ok(t) =>
        var rest := FoldTotals(Add(acc, t), items[1..]);
        assert AllPriced(items) <==> items[0].product.price.Some? && AllPriced(items[1..]) by {
          assert forall i :: 1 <= i < |items| ==> items[i] == items[1..][i - 1];
        }
        rest
  }

  /** The order's item total: the fold started from `Money.zero()`. */
  function ItemsTotal(items: seq<OrderItem>): Result<Money>
  {
    FoldTotals(Zero(), items)
  }

  /** Folding from an accumulator with at most two decimals adds exactly the
      reference total. */
  lemma {:induction false} FoldTotalsExact(acc: Money, items: seq<OrderItem>)
    requires acc.scale <= 2 && AllPriced(items) && CentPrices(items)
    ensures Aligned(FoldTotals(acc, items).value, 2) == Aligned(acc, 2) + Cents(items)
    decreases |items|
  {
    if items != [] {
      var t := TotalPrice(items[0]).value;
      TotalPriceExact(items[0]);
      AddExact(acc, t, 2);
      assert AllPriced(items[1..]) && CentPrices(items[1..]) by {
        assert forall i :: 0 <= i < |items[1..]| ==> items[1..][i] == items[i + 1];
      }
      FoldTotalsExact(Add(acc, t), items[1..]);
    }
  }

  /** The order's item total, in hundredths, is the reference total. */
  lemma ItemsTotalExact(items: seq<OrderItem>)
    requires AllPriced(items) && CentPrices(items)
    ensures ItemsTotal(items).Ok?
    ensures Aligned(ItemsTotal(items).value, 2) == Cents(items)
  {
    FoldTotalsExact(Zero(), items);
  }

  datatype DeliveryInfo = DeliveryInfo(name: string, phone: string, address: Address,
                                       deliveryRequest: Option<string>)

  /** `new DeliveryInfo(...)`: name, then phone (present and not blank), then
      address (present); the delivery request is free. */
  function NewDeliveryInfo(name: Option<string>, phone: Option<string>, address: Option<Address>,
                           deliveryRequest: Option<string>): (r: Result<DeliveryInfo>)
    ensures r.Ok? <==> !NullOrBlank(name) && !NullOrBlank(phone) && address.Some?
    ensures NullOrBlank(name) ==> r == Fail(Domain(OrdererNameBlankMessage))
    ensures !NullOrBlank(name) && NullOrBlank(phone) ==> r == Fail(Domain(OrdererPhoneBlankMessage))
    ensures !NullOrBlank(name) && !NullOrBlank(phone) && address.None? ==> r == Fail(Domain(AddressMissingMessage))
    ensures r.Ok? ==> r.value == DeliveryInfo(name.value, phone.value, address.value, deliveryRequest)
  {
    if NullOrBlank(name) then Fail(Domain(OrdererNameBlankMessage))
    else if NullOrBlank(phone) then Fail(Domain(OrdererPhoneBlankMessage))
    else if address.None? then Fail(Domain(AddressMissingMessage))
    else Ok(DeliveryInfo(name.value, phone.value, address.value, deliveryRequest))
  }

  /** `Order.validation()`: the presence checks in order, then the stated
      total must `equals` the item total, which compares scales too. */
  function OrderValidation(userGiven: bool, totalPrice: Option<Money>, items: Option<seq<OrderItem>>,
                           deliveryInfo: Option<DeliveryInfo>): (r: Outcome)
    ensures r == Pass <==> (userGiven && totalPrice.Some? && items.Some? && items.value != []
      && deliveryInfo.Some? && ItemsTotal(items.value) == Ok(totalPrice.value))
    ensures !userGiven ==> r == Raise(Domain(OrdererMissingMessage))
    ensures userGiven && totalPrice.None? ==> r == Raise(Domain(TotalPriceMissingMessage))
    ensures userGiven && totalPrice.Some? && (items.None? || items.value == [])
      ==> r == Raise(Domain(ItemsMissingMessage))
    ensures userGiven && totalPrice.Some? && items.Some? && items.value != [] && deliveryInfo.None?
      ==> r == Raise(Domain(DeliveryInfoMissingMessage))
    ensures userGiven && totalPrice.Some? && items.Some? && items.value != [] && deliveryInfo.Some?
      ==> (r == Pass || r == Raise(NullPointer) || r == Raise(UnprocessableEntity(TotalMismatchMessage)))
  {
    if !userGiven then Raise(Domain(OrdererMissingMessage))
    else if totalPrice.None? then Raise(Domain(TotalPriceMissingMessage))
    else if items.None? || items.value == [] then Raise(Domain(ItemsMissingMessage))
    else if deliveryInfo.None? then Raise(Domain(DeliveryInfoMissingMessage))
    else match ItemsTotal(items.value)
      case Fail(e) => Raise(e)
      case Ok(sum) => if totalPrice.value != sum then Raise(UnprocessableEntity(TotalMismatchMessage)) else Pass
  }

  /** An accepted order states its total with exactly two decimals, and with
      cent prices the total is the reference total. */
  lemma AcceptedTotal(userGiven: bool, totalPrice: Money, items: seq<OrderItem>, deliveryInfo: DeliveryInfo)
    requires OrderValidation(userGiven, Some(totalPrice), Some(items), Some(deliveryInfo)) == Pass
    ensures totalPrice.scale == 2
    ensures AllPriced(items) && CentPrices(items) ==> Aligned(totalPrice, 2) == Cents(items)
  {
    if AllPriced(items) && CentPrices(items) {
      ItemsTotalExact(items);
    }
  }

  /** A numerically equal total written with another number of decimals (for
      example 1000 for 1000.00) is refused as a mismatch. */
  lemma OtherScaleRefused(totalPrice: Money, other: Money, items: seq<OrderItem>, deliveryInfo: DeliveryInfo)
    requires OrderValidation(true, Some(totalPrice), Some(items), Some(deliveryInfo)) == Pass
    requires other.scale != 2
    ensures OrderValidation(true, Some(other), Some(items), Some(deliveryInfo))
      == Raise(UnprocessableEntity(TotalMismatchMessage))
  {
    AcceptedTotal(true, totalPrice, items, deliveryInfo);
  }

  /** The state-changing commands of `Order`. */
  datatype OrderCommand = CompletedStockReduction | PaymentCompleted | Failed | Cancel

  /** The status an order moves to, or the error it throws. */
  function Transition(s: OrderStatus, c: OrderCommand): (r: Result<OrderStatus>)
    ensures r.Fail? ==> r.error == Domain(StatusInvalidMessage)
  {
    match c
    case CompletedStockReduction =>
      if s != PENDING_STOCK_REDUCTION then Fail(Domain(StatusInvalidMessage)) else Ok(PENDING_PAYMENT)
    case PaymentCompleted =>
      if s != PENDING_PAYMENT then Fail(Domain(StatusInvalidMessage)) else Ok(ORDERED)
    case Failed =>
      if s == ORDERED then Fail(Domain(StatusInvalidMessage)) else Ok(FAILED)
    case Cancel =>
      if s != ORDERED then Fail(Domain(StatusInvalidMessage)) else Ok(CANCELLED)
  }

  /** The statuses from which a given status is entered (a status moving to
      itself is not counted). */
  function EnteredFrom(t: OrderStatus): set<OrderStatus>
  {
    match t
    case PENDING_STOCK_REDUCTION => {}
    case PENDING_PAYMENT => {PENDING_STOCK_REDUCTION}
    case ORDERED => {PENDING_PAYMENT}
    case FAILED => {PENDING_STOCK_REDUCTION, PENDING_PAYMENT, CANCELLED}
    case CANCELLED => {ORDERED}
  }

  /** Every change of status goes along `EnteredFrom`, and `ORDERED` is left
      only by cancelling. */
  lemma TransitionEdges(s: OrderStatus, c: OrderCommand)
    ensures Transition(s, c).Ok? && Transition(s, c).value != s ==> s in EnteredFrom(Transition(s, c).value)
    ensures s == ORDERED && Transition(s, c).Ok? ==> c == Cancel
  {
  }

  /** A cancelled order still accepts `failed()`. */
  lemma CancelledCanFail()
    ensures Transition(CANCELLED, Failed) == Ok(FAILED)
  {
  }

  /** The statuses an order passes through when the commands are applied in
      turn; a refused command leaves the status as it was. */
  function Trace(s: OrderStatus, commands: seq<OrderCommand>): (r: seq<OrderStatus>)
    ensures |r| == |commands| + 1 && r[0] == s
    decreases |commands|
  {
    if commands == [] then [s]
    else
      var next := match Transition(s, commands[0]) case Ok(t) => t case Fail(_) => s;
      [s] + Trace(next, commands[1..])
  }

  /** A status reached by a run, other than the start, is first entered
      right after one of the statuses it can be entered from. */
  lemma {:induction false} EnteredAlongEdges(s: OrderStatus, commands: seq<OrderCommand>, t: OrderStatus)
    requires t in Trace(s, commands) && t != s
    ensures exists i :: 0 <= i < |commands| && Trace(s, commands)[i] in EnteredFrom(t) && Trace(s, commands)[i + 1] == t
    decreases |commands|
  {
    var tr := Trace(s, commands);
    var next := match Transition(s, commands[0]) case Ok(u) => u case Fail(_) => s;
    var rest := Trace(next, commands[1..]);
    assert tr == [s] + rest;
    if next == t {
      TransitionEdges(s, commands[0]);
      assert tr[0] in EnteredFrom(t) && tr[1] == t;
    } else {
      EnteredAlongEdges(next, commands[1..], t);
      var i :| 0 <= i < |commands[1..]| && rest[i] in EnteredFrom(t) && rest[i + 1] == t;
      assert tr[i + 1] in EnteredFrom(t) && tr[i + 2] == t;
    }
  }

  /** From a new order, a cancellation needs a completed order, which needs a
      completed payment; and once a new order has moved on it never waits
      for its stock reduction again. */
  lemma CancelledOnlyAfterOrdered(commands: seq<OrderCommand>)
    ensures var tr := Trace(PENDING_STOCK_REDUCTION, commands);
      (CANCELLED in tr ==> ORDERED in tr) && (ORDERED in tr ==> PENDING_PAYMENT in tr)
      && (forall i, j :: 0 <= j <= i < |tr| && tr[i] == PENDING_STOCK_REDUCTION ==> tr[j] == PENDING_STOCK_REDUCTION)
  {
    var tr := Trace(PENDING_STOCK_REDUCTION, commands);
    if CANCELLED in tr {
      EnteredAlongEdges(PENDING_STOCK_REDUCTION, commands, CANCELLED);
    }
    if ORDERED in tr {
      EnteredAlongEdges(PENDING_STOCK_REDUCTION, commands, ORDERED);
    }
    forall i | 0 < i < |tr|
      ensures tr[i] == PENDING_STOCK_REDUCTION ==> forall j :: 0 <= j <= i ==> tr[j] == PENDING_STOCK_REDUCTION
    {
      NeverReentered(PENDING_STOCK_REDUCTION, commands, i);
    }
  }

  /** A run that shows `PENDING_STOCK_REDUCTION` at some step started there
      and has stayed there until that step. */
  lemma {:induction false} NeverReentered(s: OrderStatus, commands: seq<OrderCommand>, i: nat)
    requires 0 < i < |commands| + 1
    ensures Trace(s, commands)[i] == PENDING_STOCK_REDUCTION
      ==> (forall j :: 0 <= j <= i ==> Trace(s, commands)[j] == PENDING_STOCK_REDUCTION)
    decreases |commands|
  {
    var tr := Trace(s, commands);
    var next := match Transition(s, commands[0]) case Ok(u) => u case Fail(_) => s;
    var rest := Trace(next, commands[1..]);
    assert tr == [s] + rest;
    if i > 1 {
      NeverReentered(next, commands[1..], i - 1);
    }
  }

  /** `Order`: an aggregate whose status moves by the commands above. */
  class Order {
    const id: string
    var orderStatus: OrderStatus
    const deliveryInfo: DeliveryInfo
    const totalPrice: Money
    const orderItems: seq<OrderItem>
    const createdAt: int
    const user: User

    constructor Init(id: string, user: User, totalPrice: Money, orderItems: seq<OrderItem>,
                     deliveryInfo: DeliveryInfo, createdAt: int)
      ensures this.id == id && this.user == user && this.totalPrice == totalPrice
      ensures this.orderItems == orderItems && this.deliveryInfo == deliveryInfo
      ensures this.createdAt == createdAt && orderStatus == PENDING_STOCK_REDUCTION
    {
      this.id := id;
      this.user := user;
      this.totalPrice := totalPrice;
      this.orderItems := orderItems;
      this.deliveryInfo := deliveryInfo;
      this.orderStatus := PENDING_STOCK_REDUCTION;
      this.createdAt := createdAt;
    }

    /** The builder constructor: a new order waits for its stock reduction;
        the identifier (the text of the time-ordered UUID) and the creation
        time come from the caller. */
    static method Create(id: string, user: User?, totalPrice: Option<Money>, orderItems: Option<seq<OrderItem>>,
                         deliveryInfo: Option<DeliveryInfo>, createdAt: int) returns (r: Result<Order>)
      ensures var v := OrderValidation(user != null, totalPrice, orderItems, deliveryInfo);
        (r.Ok? <==> v == Pass) && (v.Raise? ==> r == Fail(v.error))
      ensures r.Ok? ==> (fresh(r.value) && r.value.orderStatus == PENDING_STOCK_REDUCTION
        && r.value.user == user && r.value.totalPrice == totalPrice.value
        && r.value.orderItems == orderItems.value && r.value.deliveryInfo == deliveryInfo.value
        && r.value.id == id && r.value.createdAt == createdAt)
    {
      var v := OrderValidation(user != null, totalPrice, orderItems, deliveryInfo);
      if v.Raise? {
        return Fail(v.error);
      }
      var o := new Order.Init(id, user, totalPrice.value, orderItems.value, deliveryInfo.value, createdAt);
      return Ok(o);
    }

    /** Applies one command: the new status on success, unchanged on error. */
    method Apply(c: OrderCommand) returns (r: Outcome)
      modifies this
      ensures match Transition(old(orderStatus), c)
        case Ok(s) => r == Pass && orderStatus == s
        case Fail(e) => r == Raise(e) && orderStatus == old(orderStatus)
    {
      match Transition(orderStatus, c)
      case Ok(s) =>
        orderStatus := s;
        r := Pass;
      case Fail(e) =>
        r := Raise(e);
    }

    /** `completedStockReduction`. */
    method CompleteStockReduction() returns (r: Outcome)
      modifies this
      ensures old(orderStatus) == PENDING_STOCK_REDUCTION ==> r == Pass && orderStatus == PENDING_PAYMENT
      ensures old(orderStatus) != PENDING_STOCK_REDUCTION
        ==> r == Raise(Domain(StatusInvalidMessage)) && orderStatus == old(orderStatus)
    {
      r := Apply(CompletedStockReduction);
    }

    /** `paymentCompleted`. */
    method CompletePayment() returns (r: Outcome)
      modifies this
      ensures old(orderStatus) == PENDING_PAYMENT ==> r == Pass && orderStatus == ORDERED
      ensures old(orderStatus) != PENDING_PAYMENT
        ==> r == Raise(Domain(StatusInvalidMessage)) && orderStatus == old(orderStatus)
    {
      r := Apply(PaymentCompleted);
    }

    /** `failed`: any order not yet completed may fail. */
    method MarkFailed() returns (r: Outcome)
      modifies this
      ensures old(orderStatus) != ORDERED ==> r == Pass && orderStatus == FAILED
      ensures old(orderStatus) == ORDERED
        ==> r == Raise(Domain(StatusInvalidMessage)) && orderStatus == ORDERED
    {
      r := Apply(Failed);
    }

    /** `cancel`: only a completed order may be cancelled. */
    method CancelOrder() returns (r: Outcome)
      modifies this
      ensures old(orderStatus) == ORDERED ==> r == Pass && orderStatus == CANCELLED
      ensures old(orderStatus) != ORDERED
        ==> r == Raise(Domain(StatusInvalidMessage)) && orderStatus == old(orderStatus)
    {
      r := Apply(Cancel);
    }

    /** `getOrderItems`: a read-only view of the lines. */
    function GetOrderItems(): (r: seq<OrderItem>)
      ensures r == orderItems
    {
      orderItems
    }
  }
}

/** `ProductStockManager` (domain/product/service/ProductStockManager.java):
    every stock change goes through here, keeps the product's status in line
    with its stock and publishes the stock's events.

    The repository is a map from product id to the stock row; the locked
    lookup is a map lookup. What each operation does to one product's
    (quantity, status) pair is given by a pure function below, and the
    methods are proved against those functions. */
module StockManagement {
  import opened Wrappers
  import opened Text
  import opened DomainEvents
  import opened Products

  const StockMissingMessage := "재고가 존재하지 않습니다."
  const DeletedStockChangeMessage := "삭제된 상품은 재고를 변경할 수 없습니다."
  const NotDeletedMessage := "삭제된 상품이 아닙니다."
  const DiscontinuedMemo := "판매 중지"

  /** What the manager reads and writes of one product: its stock quantity
      and its status. */
  datatype StockView = StockView(quantity: int, status: ProductStatus)

  /** A product's status agrees with its stock: a deleted product may hold
      anything, otherwise it is on sale exactly when it has stock. */
  predicate Consistent(v: StockView)
  {
    v.quantity >= 0 && (v.status == DELETED || (v.status == ACTIVE <==> v.quantity > 0))
  }

  /** `refund(productId, quantity)` on one product. */
  function RefundSpec(v: StockView, quantity: int): (r: Result<StockView>)
    ensures r.Ok? <==> quantity >= 0
    ensures r.Fail? ==> r.error == UnprocessableEntity(IncreaseNegativeMessage + IntToString(quantity))
    ensures r.Ok? ==> (r.value.quantity == v.quantity + quantity
      && (r.value.status == ACTIVE <==> v.status == ACTIVE || (v.status == SOLD_OUT && r.value.quantity > 0))
      && (r.value.status == DELETED <==> v.status == DELETED))
  {
    if quantity < 0 then Fail(UnprocessableEntity(IncreaseNegativeMessage + IntToString(quantity)))
    else
      var q := v.quantity + quantity;
      Ok(StockView(q, if v.status == SOLD_OUT && q > 0 then ACTIVE else v.status))
  }

  /** `sale(productId, quantity)` on one product. */
  function SaleSpec(v: StockView, quantity: int): (r: Result<StockView>)
    ensures r.Ok? <==> v.status != DELETED && quantity <= v.quantity
    ensures v.status == DELETED ==> r == Fail(Domain(DeletedStockChangeMessage))
    ensures v.status != DELETED && quantity > v.quantity ==> r == Fail(UnprocessableEntity(InsufficientStockMessage))
    ensures r.Ok? ==> (r.value.quantity == v.quantity - quantity
      && (r.value.status == SOLD_OUT <==> v.status == SOLD_OUT || r.value.quantity <= 0)
      && r.value.status != DELETED)
  {
    if v.status == DELETED then Fail(Domain(DeletedStockChangeMessage))
    else if v.quantity < quantity then Fail(UnprocessableEntity(InsufficientStockMessage))
    else
      var q := v.quantity - quantity;
      Ok(StockView(q, if v.status == ACTIVE && q <= 0 then SOLD_OUT else v.status))
  }

  /** `adjust(productId, quantity, memo)` on one product. */
  function AdjustSpec(v: StockView, quantity: int): (r: Result<StockView>)
    ensures r.Ok? <==> v.status != DELETED && quantity >= 0
    ensures v.status == DELETED ==> r == Fail(Domain(DeletedStockChangeMessage))
    ensures v.status != DELETED && quantity < 0 ==> r == Fail(UnprocessableEntity(AdjustNegativeMessage))
    ensures r.Ok? ==> r.value.quantity == quantity && Consistent(r.value)
    ensures r.Ok? ==> r.value.status == (if quantity > 0 then ACTIVE else SOLD_OUT)
  {
    if v.status == DELETED then Fail(Domain(DeletedStockChangeMessage))
    else if quantity < 0 then Fail(UnprocessableEntity(AdjustNegativeMessage))
    else Ok(StockView(quantity, if quantity > 0 then ACTIVE else SOLD_OUT))
  }

  /** `deleted(productId)` on one product: only a deleted product, whose
      stock is then zeroed. */
  function DeletedSpec(v: StockView): (r: Result<StockView>)
    ensures r.Ok? <==> v.status == DELETED
    ensures r.Fail? ==> r.error == Domain(NotDeletedMessage)
    ensures r.Ok? ==> r.value == StockView(0, DELETED)
  {
    if v.status != DELETED then Fail(Domain(NotDeletedMessage)) else Ok(StockView(0, DELETED))
  }

  /** Applies one product's step to the whole repository; a missing stock is
      refused. */
  function Apply(views: map<int, StockView>, productId: int, step: Result<StockView>): (r: Result<map<int, StockView>>)
    ensures productId !in views ==> r == Fail(Domain(StockMissingMessage))
    ensures productId in views ==> (r.Ok? <==> step.Ok?)
    ensures r.Ok? ==> r.value == views[productId := step.value]
    ensures productId in views && r.Fail? ==> r.error == step.error
  {
    if productId !in views then Fail(Domain(StockMissingMessage))
    else match step
      case Ok(v) => Ok(views[productId := v])
      case Fail(e) => Fail(e)
  }

  function SaleStep(views: map<int, StockView>, productId: int, quantity: int): Result<map<int, StockView>>
  {
    Apply(views, productId, if productId in views then SaleSpec(views[productId], quantity) else Fail(Other("")))
  }

  /** What `sale(items)` leaves: the outcome, and the repository after the
      sales that ran (a failing sale stops the loop; the ones before it have
      happened). */
  datatype Run = Run(outcome: Outcome, views: map<int, StockView>)

  /** `sale(List<ProductStockItemDto>)`: the single sales in list order. */
  function SaleAllSpec(views: map<int, StockView>, items: seq<(int, int)>): (r: Run)
    ensures r.views.Keys == views.Keys
    decreases |items|
  {
    if items == [] then Run(Pass, views)
    else match SaleStep(views, items[0].0, items[0].1)
      case Fail(e) => Run(Raise(e), views)
      case Ok(next) => SaleAllSpec(next, items[1..])
  }

  lemma {:induction false} SaleAllSpecSnoc(views: map<int, StockView>, items: seq<(int, int)>, item: (int, int))
    requires SaleAllSpec(views, items).outcome == Pass
    ensures SaleAllSpec(views, items + [item]) ==
      match SaleStep(SaleAllSpec(views, items).views, item.0, item.1)
      case Fail(e) => Run(Raise(e), SaleAllSpec(views, items).views)
      case Ok(next) => Run(Pass, next)
    decreases |items|
  {
    if items != [] {
      assert (items + [item])[1..] == items[1..] + [item];
      var s := SaleStep(views, items[0].0, items[0].1);
      SaleAllSpecSnoc(s.value, items[1..], item);
    }
  }

  // ---- properties of the specification ----

  /** A refund keeps a consistent product consistent. */
  lemma RefundKeepsConsistent(v: StockView, quantity: int)
    requires Consistent(v) && RefundSpec(v, quantity).Ok?
    ensures Consistent(RefundSpec(v, quantity).value)
  {
  }

  /** A sale of a non-negative quantity keeps a consistent product
      consistent; the last unit sold marks it SOLD_OUT. */
  lemma SaleKeepsConsistent(v: StockView, quantity: int)
    requires Consistent(v) && quantity >= 0 && SaleSpec(v, quantity).Ok?
    ensures Consistent(SaleSpec(v, quantity).value)
    ensures v.status == ACTIVE && quantity == v.quantity ==> SaleSpec(v, quantity).value.status == SOLD_OUT
  {
  }

  /** `decrease` accepts a negative amount, so a "sale" of -1 on a sold-out
      product with no stock gives it one unit while it stays SOLD_OUT. */
  lemma NegativeSaleBreaksConsistency()
    ensures Consistent(StockView(0, SOLD_OUT))
    ensures SaleSpec(StockView(0, SOLD_OUT), -1) == Ok(StockView(1, SOLD_OUT))
    ensures !Consistent(StockView(1, SOLD_OUT))
  {
  }

  /** Deleting zeroes the stock and keeps the product consistent. */
  lemma DeletedKeepsConsistent(v: StockView)
    requires DeletedSpec(v).Ok?
    ensures Consistent(DeletedSpec(v).value)
  {
  }

  /** A refund of what was just sold restores the product exactly. */
  lemma RefundUndoesSale(v: StockView, quantity: int)
    requires Consistent(v) && quantity >= 0 && SaleSpec(v, quantity).Ok?
    ensures RefundSpec(SaleSpec(v, quantity).value, quantity) == Ok(v)
  {
  }

  predicate AllConsistent(views: map<int, StockView>)
  {
    forall id :: id in views ==> Consistent(views[id])
  }

  predicate NonNegativeQuantities(items: seq<(int, int)>)
  {
    forall i :: 0 <= i < |items| ==> items[i].1 >= 0
  }

  /** A batch sale of non-negative quantities keeps every product
      consistent, whether it completes or stops at a failing item. */
  lemma {:induction false} SaleAllKeepsConsistent(views: map<int, StockView>, items: seq<(int, int)>)
    requires AllConsistent(views) && NonNegativeQuantities(items)
    ensures AllConsistent(SaleAllSpec(views, items).views)
    decreases |items|
  {
    if items != [] {
      var s := SaleStep(views, items[0].0, items[0].1);
      if s.Ok? {
        SaleKeepsConsistent(views[items[0].0], items[0].1);
        assert AllConsistent(s.value);
        assert NonNegativeQuantities(items[1..]) by {
          forall i | 0 <= i < |items[1..]| ensures items[1..][i].1 >= 0 {
            assert items[1..][i] == items[i + 1];
          }
        }
        SaleAllKeepsConsistent(s.value, items[1..]);
      }
    }
  }

  /** The part of `refund` that works on the locked stock row: increase,
      then a sold-out product with stock again goes back on sale. */
  method RefundRow(stock: ProductStock, quantity: int, now: int) returns (r: Outcome)
    modifies stock, stock.product, stock.events
    ensures var s := RefundSpec(StockView(old(stock.quantity), old(stock.product.status)), quantity);
      (s.Ok? ==>
         r == Pass && StockView(stock.quantity, stock.product.status) == s.value
         && stock.events.domainEvents == old(stock.events.domainEvents)
             + [ProductStockChanged(stock.product.id, old(stock.quantity), quantity, RETURN, None, now)])
      && (s.Fail? ==>
            r == Raise(s.error) && stock.quantity == old(stock.quantity)
            && stock.product.status == old(stock.product.status)
            && stock.events.domainEvents == old(stock.events.domainEvents))
  {
    var product := stock.product;
    r := stock.Increase(quantity, RETURN, now);
    if r.Raise? {
      return;
    }
    if product.status == SOLD_OUT && stock.IsAvailable() {
      var activated := product.Active();
    }
  }

  /** The part of `sale` that works on the locked stock row: a deleted
      product is refused, then decrease, then an on-sale product left
      without stock is marked sold out. */
  method SellRow(stock: ProductStock, quantity: int, now: int) returns (r: Outcome)
    modifies stock, stock.product, stock.events
    ensures var s := SaleSpec(StockView(old(stock.quantity), old(stock.product.status)), quantity);
      (s.Ok? ==>
         r == Pass && StockView(stock.quantity, stock.product.status) == s.value
         && stock.events.domainEvents == old(stock.events.domainEvents)
             + [ProductStockChanged(stock.product.id, old(stock.quantity), -quantity, SALE, None, now)])
      && (s.Fail? ==>
            r == Raise(s.error) && stock.quantity == old(stock.quantity)
            && stock.product.status == old(stock.product.status)
            && stock.events.domainEvents == old(stock.events.domainEvents))
  {
    var product := stock.product;
    if product.status == DELETED {
      return Raise(Domain(DeletedStockChangeMessage));
    }
    r := stock.Decrease(quantity, SALE, now);
    if r.Raise? {
      return;
    }
    if product.status == ACTIVE && !stock.IsAvailable() {
      var soldOut := product.SoldOut();
    }
  }

  /** The part of `adjust` that works on the locked stock row: a deleted
      product is refused, then the quantity is set and the status follows
      it. */
  method AdjustRow(stock: ProductStock, quantity: int, memo: Option<string>, now: int) returns (r: Outcome)
    modifies stock, stock.product, stock.events
    ensures var s := AdjustSpec(StockView(old(stock.quantity), old(stock.product.status)), quantity);
      (s.Ok? ==>
         r == Pass && StockView(stock.quantity, stock.product.status) == s.value
         && stock.events.domainEvents == old(stock.events.domainEvents)
             + [ProductStockChanged(stock.product.id, old(stock.quantity), quantity - old(stock.quantity),
                                    ADJUSTMENT, memo, now)])
      && (s.Fail? ==>
            r == Raise(s.error) && stock.quantity == old(stock.quantity)
            && stock.product.status == old(stock.product.status)
            && stock.events.domainEvents == old(stock.events.domainEvents))
  {
    var product := stock.product;
    if product.status == DELETED {
      return Raise(Domain(DeletedStockChangeMessage));
    }
    r := stock.Adjust(quantity, memo, now);
    if r.Raise? {
      return;
    }
    if product.status != DELETED {
      var changed;
      if stock.IsAvailable() {
        changed := product.Active();
      } else {
        changed := product.SoldOut();
      }
    }
  }

  /** The manager over its repository of locked stock rows. */
  class ProductStockManager {
    const stocks: map<int, ProductStock>
    const publisher: EventPublisher

    /** The repository is keyed by product id, and no two stock rows share
        an event list. */
    ghost predicate Valid()
    {
      (forall id :: id in stocks ==> stocks[id].product.id == id)
      && (forall id, id' :: id in stocks && id' in stocks && id != id' ==> stocks[id].events != stocks[id'].events)
    }

    constructor (stocks: map<int, ProductStock>, publisher: EventPublisher)
      ensures this.stocks == stocks && this.publisher == publisher
    {
      this.stocks := stocks;
      this.publisher := publisher;
    }

    ghost function Stocks(): set<object>
    {
      set id | id in stocks :: stocks[id]
    }

    ghost function ProductsOf(): set<object>
    {
      set id | id in stocks :: stocks[id].product
    }

    ghost function EventLists(): set<object>
    {
      set id | id in stocks :: stocks[id].events
    }

    /** The (quantity, status) of every product in the repository. */
    ghost function View(): map<int, StockView>
      reads Stocks(), ProductsOf()
    {
      map id | id in stocks :: StockView(stocks[id].quantity, stocks[id].product.status)
    }

    /** The objects one operation on `productId` may change. */
    ghost function Footprint(productId: int): set<object>
    {
      if productId in stocks then {stocks[productId], stocks[productId].product, stocks[productId].events}
      else {}
    }

    /** `getLockedByProductId`. */
    method GetLockedByProductId(productId: int) returns (r: Result<ProductStock>)
      ensures productId in stocks <==> r.Ok?
      ensures r.Ok? ==> r.value == stocks[productId]
      ensures r.Fail? ==> r.error == Domain(StockMissingMessage)
    {
      if productId !in stocks {
        return Fail(Domain(StockMissingMessage));
      }
      return Ok(stocks[productId]);
    }

    /** Only `productId`'s entry of the view can change. */
    lemma OthersUnchanged(productId: int)
      requires Valid() && productId in stocks
      ensures forall id :: id in stocks && id != productId ==>
        stocks[id] != stocks[productId] && stocks[id].product != stocks[productId].product
    {
    }

    /** After an operation on `productId` only its entry of the view has
        changed. */
    twostate lemma ViewAfterStep(productId: int)
      requires Valid() && productId in stocks
      requires forall id :: id in stocks && id != productId ==>
        unchanged(stocks[id]) && unchanged(stocks[id].product)
      ensures View() == old(View())[productId := StockView(stocks[productId].quantity, stocks[productId].product.status)]
    {
      var after := View();
      var expected := old(View())[productId := StockView(stocks[productId].quantity, stocks[productId].product.status)];
      forall id | id in stocks ensures after[id] == expected[id] {
        if id != productId {
          assert old(stocks[id].quantity) == stocks[id].quantity;
          assert old(stocks[id].product.status) == stocks[id].product.status;
        }
      }
      assert after.Keys == expected.Keys;
    }

    /** Publishes the stock's events and drains them. */
    method Publish(stock: ProductStock)
      modifies publisher, stock.events
      ensures publisher.published == old(publisher.published) + old(stock.events.domainEvents)
      ensures stock.events.domainEvents == []
    {
      publisher.PublishDomainEventsFrom(stock.events);
    }

    /** `refund(productId, quantity)`. */
    method Refund(productId: int, quantity: int, now: int) returns (r: Outcome)
      requires Valid()
      modifies Footprint(productId), publisher
      ensures var s := Apply(old(View()), productId,
                             if productId in stocks then RefundSpec(old(View())[productId], quantity) else Fail(Other("")));
        (s.Ok? ==> r == Pass && View() == s.value) && (s.Fail? ==> r == Raise(s.error) && View() == old(View()))
      ensures productId in stocks && r.Pass? ==>
        publisher.published == old(publisher.published) + old(stocks[productId].events.domainEvents)
          + [ProductStockChanged(productId, old(stocks[productId].quantity), quantity, RETURN, None, now)]
        && stocks[productId].events.domainEvents == []
      ensures r.Raise? ==> publisher.published == old(publisher.published)
    {
      var found := GetLockedByProductId(productId);
      if found.Fail? {
        return Raise(found.error);
      }
      var stock := found.value;
      OthersUnchanged(productId);
      r := RefundRow(stock, quantity, now);
      if r.Pass? {
        Publish(stock);
      }
      ViewAfterStep(productId);
    }

    /** `sale(productId, quantity)`. */
    method Sale(productId: int, quantity: int, now: int) returns (r: Outcome)
      requires Valid()
      modifies Footprint(productId), publisher
      ensures var s := SaleStep(old(View()), productId, quantity);
        (s.Ok? ==> r == Pass && View() == s.value) && (s.Fail? ==> r == Raise(s.error) && View() == old(View()))
      ensures productId in stocks && r.Pass? ==>
        publisher.published == old(publisher.published) + old(stocks[productId].events.domainEvents)
          + [ProductStockChanged(productId, old(stocks[productId].quantity), -quantity, SALE, None, now)]
        && stocks[productId].events.domainEvents == []
      ensures r.Raise? ==> publisher.published == old(publisher.published)
    {
      var found := GetLockedByProductId(productId);
      if found.Fail? {
        return Raise(found.error);
      }
      var stock := found.value;
      OthersUnchanged(productId);
      r := SellRow(stock, quantity, now);
      if r.Pass? {
        Publish(stock);
      }
      ViewAfterStep(productId);
    }

    /** `sale(List<ProductStockItemDto>)`: sells each item in turn and stops
        at the first failure. */
    method SaleAll(items: seq<(int, int)>, now: int) returns (r: Outcome)
      requires Valid()
      modifies Stocks(), ProductsOf(), EventLists(), publisher
      ensures r == SaleAllSpec(old(View()), items).outcome
      ensures View() == SaleAllSpec(old(View()), items).views
    {
      ghost var start := old(View());
      r := Pass;
      var i := 0;
      while i < |items|
        invariant 0 <= i <= |items|
        invariant r == Pass && SaleAllSpec(start, items[..i]) == Run(Pass, View())
      {
        var item := items[i];
        assert items[..i + 1] == items[..i] + [item];
        SaleAllSpecSnoc(start, items[..i], item);
        r := Sale(item.0, item.1, now);
        if r.Raise? {
          assert items[..i + 1] + items[i + 1..] == items;
          SaleAllSpecStops(start, items[..i + 1], items[i + 1..]);
          return;
        }
        i := i + 1;
      }
      assert items[..i] == items;
    }

    /** `adjust(productId, quantity, memo)`. */
    method Adjust(productId: int, quantity: int, memo: Option<string>, now: int) returns (r: Outcome)
      requires Valid()
      modifies Footprint(productId), publisher
      ensures var s := Apply(old(View()), productId,
                             if productId in stocks then AdjustSpec(old(View())[productId], quantity) else Fail(Other("")));
        (s.Ok? ==> r == Pass && View() == s.value) && (s.Fail? ==> r == Raise(s.error) && View() == old(View()))
      ensures productId in stocks && r.Pass? ==>
        publisher.published == old(publisher.published) + old(stocks[productId].events.domainEvents)
          + [ProductStockChanged(productId, old(stocks[productId].quantity), quantity - old(stocks[productId].quantity),
                                 ADJUSTMENT, memo, now)]
        && stocks[productId].events.domainEvents == []
      ensures r.Raise? ==> publisher.published == old(publisher.published)
    {
      var found := GetLockedByProductId(productId);
      if found.Fail? {
        return Raise(found.error);
      }
      var stock := found.value;
      OthersUnchanged(productId);
      r := AdjustRow(stock, quantity, memo, now);
      if r.Pass? {
        Publish(stock);
      }
      ViewAfterStep(productId);
    }

    /** `deleted(productId)`: zeroes the stock of a deleted product. */
    method Deleted(productId: int, now: int) returns (r: Outcome)
      requires Valid()
      modifies Footprint(productId), publisher
      ensures var s := Apply(old(View()), productId,
                             if productId in stocks then DeletedSpec(old(View())[productId]) else Fail(Other("")));
        (s.Ok? ==> r == Pass && View() == s.value) && (s.Fail? ==> r == Raise(s.error) && View() == old(View()))
      ensures productId in stocks && r.Pass? ==>
        publisher.published == old(publisher.published) + old(stocks[productId].events.domainEvents)
          + [ProductStockChanged(productId, old(stocks[productId].quantity), -old(stocks[productId].quantity),
                                 ADJUSTMENT, Some(DiscontinuedMemo), now)]
        && stocks[productId].events.domainEvents == []
      ensures r.Raise? ==> publisher.published == old(publisher.published)
    {
      var found := GetLockedByProductId(productId);
      if found.Fail? {
        return Raise(found.error);
      }
      var stock := found.value;
      var product := stock.product;
      OthersUnchanged(productId);
      if product.status != DELETED {
        return Raise(Domain(NotDeletedMessage));
      }
      r := stock.Adjust(0, Some(DiscontinuedMemo), now);
      Publish(stock);
      ViewAfterStep(productId);
    }
  }

  lemma {:induction false} SaleAllSpecStops(views: map<int, StockView>, done: seq<(int, int)>, rest: seq<(int, int)>)
    requires SaleAllSpec(views, done).outcome.Raise?
    ensures SaleAllSpec(views, done + rest) == SaleAllSpec(views, done)
    decreases |done|
  {
    if done != [] {
      assert (done + rest)[1..] == done[1..] + rest;
      var s := SaleStep(views, done[0].0, done[0].1);
      if s.Ok? {
        SaleAllSpecStops(s.value, done[1..], rest);
      }
    }
  }
}

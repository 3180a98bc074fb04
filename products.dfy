/** `Product` (domain/product/entity/Product.java), its `ProductStock`
    (ProductStock.java) and the stock history row (ProductStockHistory.java). */
module Products {
  import opened Wrappers
  import opened Money
  import opened Text
  import opened DomainEvents

  datatype ProductStatus = ACTIVE | SOLD_OUT | DELETED

  /** A `ProductCategory` constant, by name. */
  type Category = string

  const ProductNullMessage := "상품은 null일 수 없습니다."
  const QuantityNegativeMessage := "quantity는 0보다 작을 수 없습니다."
  const IncreaseNegativeMessage := "증가시킬 수량은 음수일 수 없습니다: "
  const InsufficientStockMessage := "재고가 부족합니다."
  const AdjustNegativeMessage := "재고는 0보다 작을 수 없습니다."
  const NameBlankMessage := "상품명은 비어있을 수 없습니다."
  const OriginalPriceNullMessage := "원가는 null일 수 없습니다."
  const PriceNullMessage := "판매가는 null일 수 없습니다."
  const PriceAboveOriginalMessage := "원가는 판매가 보다 작을 수 없습니다."
  const CategoryNullMessage := "카테고리는 null일 수 없습니다."
  const DeletedStatusChangeMessage := "삭제된 상품의 상태를 변경할 수 없습니다."
  const RegistrationMemo := "상품 등록"

  /** The quantity a stock-changed event leaves behind. */
  function QuantityAfter(e: DomainEvent): int
    requires e.ProductStockChanged?
  {
    e.previousQuantity + e.changedQuantity
  }

  /** The checks of `new ProductStock(product, quantity)`, in order. */
  function StockArgumentsCheck(productGiven: bool, quantity: Option<int>): (r: Outcome)
    ensures r == Pass <==> productGiven && quantity.Some? && quantity.value >= 0
    ensures !productGiven ==> r == Raise(Domain(ProductNullMessage))
    ensures productGiven && r.Raise? ==> r == Raise(Domain(QuantityNegativeMessage))
  {
    if !productGiven then Raise(Domain(ProductNullMessage))
    else if quantity.None? || quantity.value < 0 then Raise(Domain(QuantityNegativeMessage))
    else Pass
  }

  predicate NameGiven(name: Option<string>)
  {
    name.Some? && !IsBlank(name.value)
  }

  /** `Product.validation()`: the first check that fails, in source order. */
  function Validation(name: Option<string>, originalPrice: Option<Money>, price: Option<Money>,
                      category: Option<Category>): (r: Outcome)
    ensures r == Pass <==>
      NameGiven(name) && originalPrice.Some? && price.Some?
      && !IsLessThan(originalPrice.value, price.value) && category.Some?
    ensures !NameGiven(name) ==> r == Raise(Domain(NameBlankMessage))
    ensures r == Raise(Domain(OriginalPriceNullMessage)) <==> NameGiven(name) && originalPrice.None?
    ensures r == Raise(Domain(PriceNullMessage)) <==> NameGiven(name) && originalPrice.Some? && price.None?
    ensures r == Raise(Domain(PriceAboveOriginalMessage)) <==>
      NameGiven(name) && originalPrice.Some? && price.Some? && IsLessThan(originalPrice.value, price.value)
    ensures r == Raise(Domain(CategoryNullMessage)) <==>
      NameGiven(name) && originalPrice.Some? && price.Some?
      && !IsLessThan(originalPrice.value, price.value) && category.None?
  {
    if !NameGiven(name) then Raise(Domain(NameBlankMessage))
    else if originalPrice.None? then Raise(Domain(OriginalPriceNullMessage))
    else if price.None? then Raise(Domain(PriceNullMessage))
    else if IsLessThan(originalPrice.value, price.value) then Raise(Domain(PriceAboveOriginalMessage))
    else if category.None? then Raise(Domain(CategoryNullMessage))
    else Pass
  }

  /** `getDiscountRate()` on the two prices: 0 for a free original price,
      otherwise `((original - price) * 100, rounded half-up to two decimals)
      / original`, rounded down. A missing price is a `NullPointerException`,
      a price above the original fails in `subtract`. */
  function DiscountRate(originalPrice: Option<Money>, price: Option<Money>): (r: Result<int>)
    ensures originalPrice.None? ==> r == Fail(NullPointer)
    ensures originalPrice.Some? && IsZero(originalPrice.value) ==> r == Ok(0)
    ensures originalPrice.Some? && !IsZero(originalPrice.value) && price.None? ==> r == Fail(NullPointer)
    ensures originalPrice.Some? && price.Some? && !IsZero(originalPrice.value) ==>
      (r.Ok? <==> !IsLessThan(originalPrice.value, price.value))
  {
    match originalPrice
    case None => Fail(NullPointer)
    case Some(o) =>
      if IsZero(o) then Ok(0)
      else match price
        case None => Fail(NullPointer)
        case Some(p) =>
          match Subtract(o, p)
          case Fail(e) => Fail(e)
          case Ok(d) =>
            var hundredfold := MultiplyInt(d, 100);
            assert hundredfold.Ok?;
            Ok(IntValue(DivideFloor(hundredfold.value, o)))
  }

  /** For prices with at most two decimals the rate is the exact percentage
      `100 * (original - price) / original`, rounded down, and lies in 0..100. */
  lemma DiscountRateExact(o: Money, p: Money)
    requires o.scale <= 2 && p.scale <= 2 && !IsZero(o) && !IsLessThan(o, p)
    ensures DiscountRate(Some(o), Some(p)).Ok?
    ensures var r := DiscountRate(Some(o), Some(p)).value;
      0 <= r <= 100
      && r * Aligned(o, 2) <= 100 * (Aligned(o, 2) - Aligned(p, 2)) < (r + 1) * Aligned(o, 2)
  {
    var h := HundredfoldDifference(o, p);
    var big, small := Aligned(o, 2), Aligned(p, 2);
    var q := DivideFloor(h, o);
    assert Max(h.scale, o.scale) == 2;
    QuotientIsPercent(100 * (big - small), big, q);
  }

  /** The intermediate `(original - price) * 100` is exact at scale 2. */
  lemma HundredfoldDifference(o: Money, p: Money) returns (h: Money)
    requires o.scale <= 2 && p.scale <= 2 && !IsZero(o) && !IsLessThan(o, p)
    ensures h.scale == 2 && Aligned(h, 2) == 100 * (Aligned(o, 2) - Aligned(p, 2))
    ensures 0 <= Aligned(p, 2) <= Aligned(o, 2) && Aligned(o, 2) > 0
    ensures DiscountRate(Some(o), Some(p)) == Ok(IntValue(DivideFloor(h, o)))
  {
    var d := Subtract(o, p).value;
    h := MultiplyInt(d, 100).value;
    assert DiscountRate(Some(o), Some(p)) == Ok(IntValue(DivideFloor(h, o)));
    DifferenceAtScale2(o, p, d);
    MultiplyIntExact(d, 100);
    CompareAtScale(o, p, 2);
    Positive(o.unscaled, Pow10(2 - o.scale));
    Positive(p.unscaled, Pow10(2 - p.scale));
  }

  lemma Positive(x: int, k: int)
    requires x >= 0 && k >= 1
    ensures x * k >= x
  {
  }

  lemma DifferenceAtScale2(o: Money, p: Money, d: Money)
    requires o.scale <= 2 && p.scale <= 2 && d.scale == Max(o.scale, p.scale)
    requires Aligned(d, d.scale) == Aligned(o, d.scale) - Aligned(p, d.scale)
    ensures Aligned(d, 2) == Aligned(o, 2) - Aligned(p, 2)
  {
    var m := d.scale;
    AlignedUp(d, m, 2);
    AlignedUp(o, m, 2);
    AlignedUp(p, m, 2);
    Distribute(Aligned(o, m), Aligned(p, m), Pow10(2 - m));
  }

  lemma Distribute(x: int, y: int, k: int)
    ensures (x - y) * k == x * k - y * k
  {
  }

  /** The floor quotient of a part of `100 * whole` by the whole is a
      percentage. */
  lemma QuotientIsPercent(n: int, whole: int, q: int)
    requires whole > 0 && 0 <= n <= 100 * whole
    requires q * whole <= n < (q + 1) * whole
    ensures 0 <= q <= 100
  {
    SignOfFactor(q + 1, whole);
    assert (q - 100) * whole == q * whole - 100 * whole;
    SignOfFactor(q - 100, whole);
  }

  lemma SignOfFactor(a: int, w: int)
    requires w > 0
    ensures a * w > 0 ==> a > 0
    ensures a * w <= 0 ==> a <= 0
  {
  }

  /** With more than two decimals the intermediate rounding can push the rate
      past 100: an original price of 0.00009 sold for 0 gives 111. */
  lemma DiscountRateAboveHundred()
    ensures DiscountRate(Some(Decimal(9, 5)), Some(Decimal(0, 0))) == Ok(111)
  {
    assert Pow10(3) == 1000 && Pow10(5) == 100000 && Pow10(0) == 1;
    assert MultiplyInt(Decimal(9, 5), 100) == Ok(Decimal(1, 2));
  }

  /** One `stock_histories` row (ProductStockHistory.java). */
  datatype StockHistory = StockHistory(product: int, previousQuantity: int, changedQuantity: int,
                                       currentQuantity: int, reason: StockChangeReason,
                                       memo: Option<string>)

  /** `new ProductStockHistory(product, previous, changed, reason, memo)`. */
  function NewStockHistory(product: int, previous: int, changed: int, reason: StockChangeReason,
                           memo: Option<string>): StockHistory
  {
    StockHistory(product, previous, changed, previous + changed, reason, memo)
  }

  /** The history row written for a stock-changed event. */
  function HistoryOf(e: DomainEvent): StockHistory
    requires e.ProductStockChanged?
  {
    NewStockHistory(e.product, e.previousQuantity, e.changedQuantity, e.reason, e.memo)
  }

  class ProductStock {
    const product: Product
    var quantity: int
    const events: AggregateRoot

    /** The successful path of `new ProductStock(product, quantity)`. */
    constructor Init(product: Product, quantity: int)
      requires quantity >= 0
      ensures this.product == product && this.quantity == quantity
      ensures fresh(events) && events.domainEvents == []
    {
      this.product := product;
      this.quantity := quantity;
      events := new AggregateRoot();
    }

    /** `new ProductStock(product, quantity)`: a missing product or a missing
        or negative quantity is refused. */
    static method Create(product: Product?, quantity: Option<int>) returns (r: Result<ProductStock>)
      ensures r.Ok? <==> StockArgumentsCheck(product != null, quantity) == Pass
      ensures r.Fail? ==> Raise(r.error) == StockArgumentsCheck(product != null, quantity)
      ensures r.Ok? ==> (fresh(r.value) && fresh(r.value.events) && r.value.product == product
        && r.value.quantity == quantity.value && r.value.events.domainEvents == [])
    {
      var check := StockArgumentsCheck(product != null, quantity);
      if check.Raise? {
        return Fail(check.error);
      }
      var s := new ProductStock.Init(product, quantity.value);
      return Ok(s);
    }

    /** `isAvailable()`. */
    function IsAvailable(): bool
      reads this
    {
      quantity > 0
    }

    /** `increase(amount, reason)`: a negative amount is refused; otherwise
        the quantity grows by `amount` and one event records the change. */
    method Increase(amount: int, reason: StockChangeReason, now: int) returns (r: Outcome)
      modifies this, events
      ensures r.Pass? <==> amount >= 0
      ensures r.Raise? ==> (r.error == UnprocessableEntity(IncreaseNegativeMessage + IntToString(amount))
        && quantity == old(quantity) && events.domainEvents == old(events.domainEvents))
      ensures r.Pass? ==> (quantity == old(quantity) + amount
        && events.domainEvents == old(events.domainEvents)
             + [ProductStockChanged(product.id, old(quantity), amount, reason, None, now)])
    {
      if amount < 0 {
        return Raise(UnprocessableEntity(IncreaseNegativeMessage + IntToString(amount)));
      }
      var previous := quantity;
      quantity := quantity + amount;
      events.RegisterEvent(ProductStockChanged(product.id, previous, amount, reason, None, now));
      return Pass;
    }

    /** `decrease(amount, reason)`: refused when the stock is smaller than
        `amount`; otherwise the quantity shrinks by `amount` (a negative amount
        is accepted and raises it). */
    method Decrease(amount: int, reason: StockChangeReason, now: int) returns (r: Outcome)
      modifies this, events
      ensures r.Pass? <==> amount <= old(quantity)
      ensures r.Raise? ==> (r.error == UnprocessableEntity(InsufficientStockMessage)
        && quantity == old(quantity) && events.domainEvents == old(events.domainEvents))
      ensures r.Pass? ==> (quantity == old(quantity) - amount && quantity >= 0
        && events.domainEvents == old(events.domainEvents)
             + [ProductStockChanged(product.id, old(quantity), -amount, reason, None, now)])
    {
      if quantity < amount {
        return Raise(UnprocessableEntity(InsufficientStockMessage));
      }
      var previous := quantity;
      quantity := quantity - amount;
      events.RegisterEvent(ProductStockChanged(product.id, previous, -amount, reason, None, now));
      return Pass;
    }

    /** `adjust(amount, memo)`: sets the quantity outright; the event records
        the difference as an ADJUSTMENT. */
    method Adjust(amount: int, memo: Option<string>, now: int) returns (r: Outcome)
      modifies this, events
      ensures r.Pass? <==> amount >= 0
      ensures r.Raise? ==> (r.error == UnprocessableEntity(AdjustNegativeMessage)
        && quantity == old(quantity) && events.domainEvents == old(events.domainEvents))
      ensures r.Pass? ==> (quantity == amount
        && events.domainEvents == old(events.domainEvents)
             + [ProductStockChanged(product.id, old(quantity), amount - old(quantity), ADJUSTMENT, memo, now)])
    {
      if amount < 0 {
        return Raise(UnprocessableEntity(AdjustNegativeMessage));
      }
      var previous := quantity;
      quantity := amount;
      events.RegisterEvent(ProductStockChanged(product.id, previous, amount - previous, ADJUSTMENT, memo, now));
      return Pass;
    }
  }

  /** Every event a stock operation registers records the quantity it left:
      the history row written for it holds the new quantity. */
  lemma {:induction false} EventRecordsNewQuantity(previous: int, amount: int, reason: StockChangeReason,
                                                   memo: Option<string>, product: int, now: int)
    ensures HistoryOf(ProductStockChanged(product, previous, amount, reason, memo, now)).currentQuantity
              == previous + amount
    ensures HistoryOf(ProductStockChanged(product, previous, -amount, reason, memo, now)).currentQuantity
              == previous - amount
    ensures HistoryOf(ProductStockChanged(product, previous, amount - previous, ADJUSTMENT, memo, now)).currentQuantity
              == amount
  {
  }

  class Product {
    const id: int
    var name: Option<string>
    var originalPrice: Option<Money>
    var price: Option<Money>
    var description: Option<string>
    var thumbnailImageUrl: Option<string>
    var category: Option<Category>
    var status: ProductStatus
    var stock: ProductStock?
    const events: AggregateRoot

    /** The stock belongs to this product. The field checks of `Validation`
        are no invariant of the entity: `update` assigns before it validates,
        so a refused update leaves the refused values in place. */
    ghost predicate StockAttached()
      reads this
    {
      stock != null && stock.product == this
    }

    /** Field assignment of the constructor, before the stock is attached. */
    constructor Init(id: int, name: Option<string>, originalPrice: Option<Money>, price: Option<Money>,
                     description: Option<string>, thumbnailImageUrl: Option<string>,
                     category: Option<Category>, status: ProductStatus)
      ensures this.id == id && this.name == name && this.originalPrice == originalPrice
      ensures this.price == price && this.description == description
      ensures this.thumbnailImageUrl == thumbnailImageUrl && this.category == category
      ensures this.status == status && stock == null
      ensures fresh(events) && events.domainEvents == []
    {
      this.id := id;
      this.name := name;
      this.originalPrice := originalPrice;
      this.price := price;
      this.description := description;
      this.thumbnailImageUrl := thumbnailImageUrl;
      this.category := category;
      this.status := status;
      stock := null;
      events := new AggregateRoot();
    }

    /** `new Product(...)`: the stock is checked first, then `validation()`;
        a new product is ACTIVE when it has stock and SOLD_OUT otherwise, and
        registers one ADJUSTMENT event from 0 to the initial stock. */
    static method Create(id: int, name: Option<string>, originalPrice: Option<Money>, price: Option<Money>,
                         description: Option<string>, thumbnailImageUrl: Option<string>,
                         category: Option<Category>, stock: Option<int>, now: int)
      returns (r: Result<Product>)
      ensures r.Ok? <==> StockArgumentsCheck(true, stock) == Pass
                         && Validation(name, originalPrice, price, category) == Pass
      ensures r.Fail? && StockArgumentsCheck(true, stock).Raise? ==> r.error == Domain(QuantityNegativeMessage)
      ensures r.Fail? && StockArgumentsCheck(true, stock) == Pass ==>
        Raise(r.error) == Validation(name, originalPrice, price, category)
      ensures r.Ok? ==> var p := r.value;
        fresh(p) && fresh(p.stock) && fresh(p.events) && fresh(p.stock.events) && p.StockAttached()
        && p.id == id && p.name == name && p.originalPrice == originalPrice && p.price == price
        && p.description == description && p.thumbnailImageUrl == thumbnailImageUrl
        && p.category == category && p.stock.quantity == stock.value
        && p.status == (if stock.value > 0 then ACTIVE else SOLD_OUT)
        && p.events.domainEvents == [ProductStockChanged(id, 0, stock.value, ADJUSTMENT, Some(RegistrationMemo), now)]
        && p.stock.events.domainEvents == []
    {
      var stockCheck := StockArgumentsCheck(true, stock);
      if stockCheck.Raise? {
        return Fail(stockCheck.error);
      }
      var valid := Validation(name, originalPrice, price, category);
      if valid.Raise? {
        return Fail(valid.error);
      }
      var status := if stock.value > 0 then ACTIVE else SOLD_OUT;
      var p := new Product.Init(id, name, originalPrice, price, description, thumbnailImageUrl, category, status);
      var s := new ProductStock.Init(p, stock.value);
      p.stock := s;
      p.events.RegisterEvent(ProductStockChanged(id, 0, s.quantity, ADJUSTMENT, Some(RegistrationMemo), now));
      return Ok(p);
    }

    /** `update(...)`: every field is assigned before `validation()` runs, so
        a refused update still leaves the new values in place. */
    method Update(name: Option<string>, originalPrice: Option<Money>, price: Option<Money>,
                  description: Option<string>, thumbnailImageUrl: Option<string>, category: Option<Category>)
      returns (r: Outcome)
      modifies this
      ensures r == Validation(name, originalPrice, price, category)
      ensures this.name == name && this.originalPrice == originalPrice && this.price == price
      ensures this.description == description && this.thumbnailImageUrl == thumbnailImageUrl
      ensures this.category == category
      ensures status == old(status) && stock == old(stock)
    {
      this.name := name;
      this.originalPrice := originalPrice;
      this.price := price;
      this.description := description;
      this.thumbnailImageUrl := thumbnailImageUrl;
      this.category := category;
      r := Validation(name, originalPrice, price, category);
    }

    /** `getStockQuantity()`. */
    function GetStockQuantity(): int
      reads this, stock
      requires stock != null
    {
      stock.quantity
    }

    /** `isAvailable()`: on sale and in stock. */
    function IsAvailable(): (r: bool)
      reads this, stock
      requires stock != null
      ensures r <==> status == ACTIVE && GetStockQuantity() > 0
    {
      status == ACTIVE && stock.IsAvailable()
    }

    /** `active()`: refused for a deleted product. */
    method Active() returns (r: Outcome)
      modifies this`status
      ensures r.Pass? <==> old(status) != DELETED
      ensures r.Raise? ==> r.error == Domain(DeletedStatusChangeMessage) && status == DELETED
      ensures r.Pass? ==> status == ACTIVE
    {
      if status == DELETED {
        return Raise(Domain(DeletedStatusChangeMessage));
      }
      status := ACTIVE;
      return Pass;
    }

    /** `soldOut()`: refused for a deleted product. */
    method SoldOut() returns (r: Outcome)
      modifies this`status
      ensures r.Pass? <==> old(status) != DELETED
      ensures r.Raise? ==> r.error == Domain(DeletedStatusChangeMessage) && status == DELETED
      ensures r.Pass? ==> status == SOLD_OUT
    {
      if status == DELETED {
        return Raise(Domain(DeletedStatusChangeMessage));
      }
      status := SOLD_OUT;
      return Pass;
    }

    /** `delete()`: always allowed. */
    method Delete()
      modifies this`status
      ensures status == DELETED
    {
      status := DELETED;
    }

    /** `getDiscountRate()`. */
    function GetDiscountRate(): Result<int>
      reads this
    {
      DiscountRate(originalPrice, price)
    }
  }
}

/** frontend/src/entities/cart/model/cartStore.ts: the cart's items, the
    totals its getters compute, and the actions that edit the item list in
    place.  Prices and quantities are integers; the shipping threshold and
    cost come from a constants file that is not part of this model, so they
    are parameters. */
module CartStore {
  import opened Wrappers
  import opened Sequences
  import opened ProductTypes

  /** A cart line. */
  datatype CartItem = CartItem(product: Product, quantity: int)

  /** `items.reduce((total, item) => total + f(item), 0)`: a left fold. */
  function Sum(items: seq<CartItem>, f: CartItem -> int): int
  {
    if items == [] then 0 else Sum(items[..|items| - 1], f) + f(items[|items| - 1])
  }

  function Quantity(item: CartItem): int { item.quantity }
  function OriginalCost(item: CartItem): int { item.product.originalPrice * item.quantity }
  function Cost(item: CartItem): int { item.product.price * item.quantity }
  function Saving(item: CartItem): int { (item.product.originalPrice - item.product.price) * item.quantity }

  /** The getters `totalItems`, `originalSubtotal`, `subtotal` and
      `totalDiscount`. */
  function TotalItems(items: seq<CartItem>): int { Sum(items, Quantity) }
  function OriginalSubtotal(items: seq<CartItem>): int { Sum(items, OriginalCost) }
  function Subtotal(items: seq<CartItem>): int { Sum(items, Cost) }
  function TotalDiscount(items: seq<CartItem>): int { Sum(items, Saving) }

  lemma {:induction false} SumAppend(items: seq<CartItem>, x: CartItem, f: CartItem -> int)
    ensures Sum(items + [x], f) == Sum(items, f) + f(x)
  {
    assert (items + [x])[..|items|] == items;
  }

  lemma {:induction false} SumConcat(a: seq<CartItem>, b: seq<CartItem>, f: CartItem -> int)
    ensures Sum(a + b, f) == Sum(a, f) + Sum(b, f)
    decreases |b|
  {
    if b == [] {
      assert a + b == a;
    } else {
      var init := b[..|b| - 1];
      var last := b[|b| - 1];
      assert b == init + [last];
      assert a + b == (a + init) + [last];
      SumAppend(a + init, last, f);
      SumAppend(init, last, f);
      SumConcat(a, init, f);
    }
  }

  /** A total is the total before a line, plus that line, plus the total
      after it. */
  lemma SumAround(items: seq<CartItem>, i: nat, f: CartItem -> int)
    requires i < |items|
    ensures Sum(items, f) == Sum(items[..i], f) + f(items[i]) + Sum(items[i + 1..], f)
  {
    SumSplit(items, i + 1, f);
    SumPrefixNext(items, i, f);
  }

  lemma SumSplit(items: seq<CartItem>, j: nat, f: CartItem -> int)
    requires j <= |items|
    ensures Sum(items, f) == Sum(items[..j], f) + Sum(items[j..], f)
  {
    assert items == items[..j] + items[j..];
    SumConcat(items[..j], items[j..], f);
  }

  lemma SumPrefixNext(items: seq<CartItem>, i: nat, f: CartItem -> int)
    requires i < |items|
    ensures Sum(items[..i + 1], f) == Sum(items[..i], f) + f(items[i])
  {
    assert items[..i + 1] == items[..i] + [items[i]];
    SumAppend(items[..i], items[i], f);
  }

  /** Replacing one line changes a total by the difference of that line. */
  lemma SumUpdate(items: seq<CartItem>, i: nat, x: CartItem, f: CartItem -> int)
    requires i < |items|
    ensures Sum(items[i := x], f) == Sum(items, f) - f(items[i]) + f(x)
  {
    var updated := items[i := x];
    SumAround(items, i, f);
    SumAround(updated, i, f);
    assert updated[..i] == items[..i];
    assert updated[i + 1..] == items[i + 1..];
  }

  /** Removing one line takes that line out of a total. */
  lemma SumRemove(items: seq<CartItem>, i: nat, f: CartItem -> int)
    requires i < |items|
    ensures Sum(items[..i] + items[i + 1..], f) == Sum(items, f) - f(items[i])
  {
    SumAround(items, i, f);
    SumConcat(items[..i], items[i + 1..], f);
  }

  /** `totalDiscount` is `originalSubtotal - subtotal`. */
  lemma {:induction false} DiscountIsDifference(items: seq<CartItem>)
    ensures TotalDiscount(items) == OriginalSubtotal(items) - Subtotal(items)
  {
    if items != [] {
      var init := items[..|items| - 1];
      var last := items[|items| - 1];
      DiscountIsDifference(init);
      assert Saving(last) == OriginalCost(last) - Cost(last) by {
        var p, q := last.product, last.quantity;
        assert (p.originalPrice - p.price) * q == p.originalPrice * q - p.price * q;
      }
    }
  }

  /** Lines no cheaper than their sale price and bought in non-negative
      quantities. */
  predicate Sensible(items: seq<CartItem>)
  {
    forall i :: 0 <= i < |items| ==>
      0 <= items[i].quantity && 0 <= items[i].product.price <= items[i].product.originalPrice
  }

  /** For sensible lines the discount lies between 0 and the original total. */
  lemma {:induction false} DiscountWithinOriginal(items: seq<CartItem>)
    requires Sensible(items)
    ensures 0 <= TotalDiscount(items) <= OriginalSubtotal(items)
    ensures 0 <= Subtotal(items)
  {
    if items != [] {
      var init := items[..|items| - 1];
      var last := items[|items| - 1];
      assert Sensible(init) by {
        forall i | 0 <= i < |init| ensures items[i] == init[i] { }
      }
      DiscountWithinOriginal(init);
      var p, q := last.product, last.quantity;
      assert 0 <= (p.originalPrice - p.price) * q <= p.originalPrice * q;
      assert 0 <= p.price * q;
    }
  }

  /** `Math.round(x)`: the nearest integer, halves rounded up. */
  function Round(x: real): (r: int)
    ensures r as real - 0.5 <= x < r as real + 0.5
  {
    (x + 0.5).Floor
  }

  /** The getter `discountRate`: 0 for a zero original total, otherwise the
      discount as a rounded percentage of the original total. */
  function DiscountRate(items: seq<CartItem>): (r: int)
  {
    var original := OriginalSubtotal(items);
    if original == 0 then 0 else Round(TotalDiscount(items) as real / original as real * 100.0)
  }

  /** For sensible lines the rate is a percentage, and it is the nearest
      integer to the exact one. */
  lemma DiscountRateBounds(items: seq<CartItem>)
    requires Sensible(items)
    ensures 0 <= DiscountRate(items) <= 100
    ensures OriginalSubtotal(items) != 0 ==>
      var exact := (OriginalSubtotal(items) - Subtotal(items)) as real * 100.0 / OriginalSubtotal(items) as real;
      DiscountRate(items) as real - 0.5 <= exact < DiscountRate(items) as real + 0.5
  {
    DiscountWithinOriginal(items);
    DiscountIsDifference(items);
    var o := OriginalSubtotal(items);
    if o != 0 {
      RatioPercent(TotalDiscount(items), o);
    }
  }

  /** A part of a positive whole, as a percentage of it. */
  lemma RatioPercent(d: int, o: int)
    requires 0 <= d <= o && o != 0
    ensures 0.0 <= d as real / o as real * 100.0 <= 100.0
    ensures d as real / o as real * 100.0 == d as real * 100.0 / o as real
  {
    var ratio := d as real / o as real;
    assert ratio * o as real == d as real;
  }

  /** The getter `shippingInfo`. */
  datatype ShippingInfo = ShippingInfo(required: bool, cost: int)

  function Shipping(items: seq<CartItem>, freeThreshold: int, shippingCost: int): (r: ShippingInfo)
    ensures r.required <==> 0 < Subtotal(items) < freeThreshold
    ensures r.cost == if r.required then shippingCost else 0
  {
    var subtotal := Subtotal(items);
    ShippingInfo(subtotal < freeThreshold && subtotal > 0, if subtotal < freeThreshold && subtotal > 0 then shippingCost else 0)
  }

  /** The getter `total`: the subtotal plus the shipping cost. */
  function Total(items: seq<CartItem>, freeThreshold: int, shippingCost: int): (r: int)
  {
    var subtotal := Subtotal(items);
    subtotal + (if subtotal < freeThreshold && subtotal > 0 then shippingCost else 0)
  }

  /** `total` agrees with `subtotal` and `shippingInfo`: an empty cart costs
      nothing, and a cart at or above the threshold ships free. */
  lemma TotalAddsShipping(items: seq<CartItem>, freeThreshold: int, shippingCost: int)
    ensures Total(items, freeThreshold, shippingCost) == Subtotal(items) + Shipping(items, freeThreshold, shippingCost).cost
    ensures items == [] ==> Total(items, freeThreshold, shippingCost) == 0
    ensures Subtotal(items) >= freeThreshold ==> Total(items, freeThreshold, shippingCost) == Subtotal(items)
  {
  }

  /** The getter `isEmpty`. */
  predicate IsEmpty(items: seq<CartItem>)
  {
    |items| == 0
  }

  /** An empty cart has no items, costs nothing, ships free and has no
      discount. */
  lemma EmptyCart(items: seq<CartItem>, freeThreshold: int, shippingCost: int)
    ensures IsEmpty(items) ==>
      TotalItems(items) == 0 && Total(items, freeThreshold, shippingCost) == 0 && DiscountRate(items) == 0
      && !Shipping(items, freeThreshold, shippingCost).required
  {
  }

  function LineProductId(item: CartItem): int
  {
    item.product.id
  }

  /** `findIndex(item => item.product.id === id)`. */
  function IndexOfId(items: seq<CartItem>, id: int): int
  {
    FindIndex(items, LineProductId, id)
  }

  /** The getter `getItemById(id)`. */
  function ItemById(items: seq<CartItem>, id: int): (r: Option<CartItem>)
    ensures r.Some? <==> exists j :: 0 <= j < |items| && items[j].product.id == id
    ensures r.Some? ==> r.value in items && r.value.product.id == id
  {
    var i := IndexOfId(items, id);
    if i >= 0 then Some(items[i]) else None
  }

  /** At most one line per product. */
  predicate UniqueIds(items: seq<CartItem>)
  {
    forall i, j :: 0 <= i < j < |items| ==> items[i].product.id != items[j].product.id
  }

  /** The lines after `addToCart(product, quantity)`: an existing line of the
      product grows by `quantity` and keeps the product object it was added
      with; otherwise a new line goes at the end. */
  function Added(items: seq<CartItem>, product: Product, quantity: int): seq<CartItem>
  {
    var i := IndexOfId(items, product.id);
    if i >= 0 then items[i := items[i].(quantity := items[i].quantity + quantity)]
    else items + [CartItem(product, quantity)]
  }

  /** The lines after `removeFromCart(id)`: the first line of the product is
      spliced out. */
  function Removed(items: seq<CartItem>, id: int): seq<CartItem>
  {
    var i := IndexOfId(items, id);
    if i >= 0 then items[..i] + items[i + 1..] else items
  }

  /** The lines after `updateQuantity(id, quantity)`. */
  function Updated(items: seq<CartItem>, id: int, quantity: int): seq<CartItem>
  {
    var i := IndexOfId(items, id);
    if i < 0 then items
    else if quantity > 0 then items[i := items[i].(quantity := quantity)]
    else Removed(items, id)
  }

  /** Adding grows the item count by `quantity` and the subtotal by the
      price of the product already in the cart, or of the new one; the
      number of lines grows only for a new product, which ends up last. */
  lemma AddedEffect(items: seq<CartItem>, product: Product, quantity: int)
    ensures var i := IndexOfId(items, product.id);
      var after := Added(items, product, quantity);
      var price := if i >= 0 then items[i].product.price else product.price;
      TotalItems(after) == TotalItems(items) + quantity
      && Subtotal(after) == Subtotal(items) + price * quantity
      && |after| == |items| + (if i >= 0 then 0 else 1)
      && (i < 0 ==> after[|items|] == CartItem(product, quantity))
  {
    var i := IndexOfId(items, product.id);
    if i >= 0 {
      AddedToLine(items, i, quantity);
    } else {
      SumAppend(items, CartItem(product, quantity), Quantity);
      SumAppend(items, CartItem(product, quantity), Cost);
    }
  }

  /** Growing line `i` by `quantity` grows the totals by that much of its
      product. */
  lemma AddedToLine(items: seq<CartItem>, i: nat, quantity: int)
    requires i < |items|
    ensures var after := items[i := items[i].(quantity := items[i].quantity + quantity)];
      TotalItems(after) == TotalItems(items) + quantity
      && Subtotal(after) == Subtotal(items) + items[i].product.price * quantity
  {
    var x := items[i].(quantity := items[i].quantity + quantity);
    SumUpdate(items, i, x, Quantity);
    SumUpdate(items, i, x, Cost);
    CostGrows(items[i], quantity);
  }

  lemma CostGrows(item: CartItem, quantity: int)
    ensures Cost(item.(quantity := item.quantity + quantity)) == Cost(item) + item.product.price * quantity
  {
    var p, q := item.product.price, item.quantity;
    assert p * (q + quantity) == p * q + p * quantity;
  }

  /** A line already in the cart keeps the product it was first added with:
      adding a changed copy of the product changes only the quantity. */
  lemma AddedKeepsFirstProduct(items: seq<CartItem>, product: Product, quantity: int)
    requires IndexOfId(items, product.id) >= 0
    ensures var i := IndexOfId(items, product.id);
      Added(items, product, quantity)[i].product == items[i].product
  {
  }

  /** Removing takes the first line of the product out, and nothing else; it
      changes nothing for a product not in the cart. */
  lemma RemovedEffect(items: seq<CartItem>, id: int)
    ensures var i := IndexOfId(items, id);
      var after := Removed(items, id);
      (i < 0 ==> after == items)
      && (i >= 0 ==>
            |after| == |items| - 1 && TotalItems(after) == TotalItems(items) - items[i].quantity
            && Subtotal(after) == Subtotal(items) - Cost(items[i]))
  {
    var i := IndexOfId(items, id);
    if i >= 0 {
      SumRemove(items, i, Quantity);
      SumRemove(items, i, Cost);
    }
  }

  /** With one line per product, removal leaves none of that product. */
  lemma RemovedIsGone(items: seq<CartItem>, id: int)
    requires UniqueIds(items)
    ensures ItemById(Removed(items, id), id) == None
    ensures UniqueIds(Removed(items, id))
  {
    var i := IndexOfId(items, id);
    var after := Removed(items, id);
    if i >= 0 {
      forall j | 0 <= j < |after| ensures after[j].product.id != id {
        if j < i {
          assert after[j] == items[j];
        } else {
          assert after[j] == items[j + 1];
        }
      }
      forall j, k | 0 <= j < k < |after| ensures after[j].product.id != after[k].product.id {
        var j', k' := if j < i then j else j + 1, if k < i then k else k + 1;
        assert after[j] == items[j'] && after[k] == items[k'];
      }
    }
  }

  lemma AddedKeepsUniqueIds(items: seq<CartItem>, product: Product, quantity: int)
    requires UniqueIds(items)
    ensures UniqueIds(Added(items, product, quantity))
  {
    var i := IndexOfId(items, product.id);
    var added := Added(items, product, quantity);
    if i >= 0 {
      assert added == items[i := items[i].(quantity := items[i].quantity + quantity)];
      assert forall j :: 0 <= j < |added| ==> added[j].product.id == items[j].product.id;
    } else {
      assert added == items + [CartItem(product, quantity)];
      assert forall j :: 0 <= j < |items| ==> added[j] == items[j];
    }
  }

  lemma UpdatedKeepsUniqueIds(items: seq<CartItem>, id: int, quantity: int)
    requires UniqueIds(items)
    ensures UniqueIds(Updated(items, id, quantity))
  {
    var k := IndexOfId(items, id);
    var updated := Updated(items, id, quantity);
    if k >= 0 && quantity > 0 {
      assert updated == items[k := items[k].(quantity := quantity)];
      assert forall j :: 0 <= j < |updated| ==> updated[j].product.id == items[j].product.id;
    } else if k >= 0 {
      RemovedIsGone(items, id);
    }
  }

  /** The actions keep one line per product. */
  lemma ActionsKeepUniqueIds(items: seq<CartItem>, product: Product, id: int, quantity: int)
    requires UniqueIds(items)
    ensures UniqueIds(Added(items, product, quantity))
    ensures UniqueIds(Updated(items, id, quantity))
  {
    AddedKeepsUniqueIds(items, product, quantity);
    UpdatedKeepsUniqueIds(items, id, quantity);
  }

  /** Updating to a positive quantity sets it; updating to zero or less
      removes the line; an absent product is left alone. */
  lemma UpdatedEffect(items: seq<CartItem>, id: int, quantity: int)
    requires UniqueIds(items)
    ensures ItemById(items, id).None? ==> Updated(items, id, quantity) == items
    ensures ItemById(items, id).Some? && quantity > 0 ==>
      ItemById(Updated(items, id, quantity), id) == Some(ItemById(items, id).value.(quantity := quantity))
    ensures ItemById(items, id).Some? && quantity <= 0 ==>
      ItemById(Updated(items, id, quantity), id) == None && |Updated(items, id, quantity)| == |items| - 1
  {
    RemovedIsGone(items, id);
    var i := IndexOfId(items, id);
    if i >= 0 && quantity > 0 {
      var after := Updated(items, id, quantity);
      assert forall j :: 0 <= j < i ==> after[j] == items[j];
      assert after[i].product.id == id;
    }
  }

  /** The cart store: its one piece of state is the list of lines. */
  class Cart {
    var items: seq<CartItem>

    /** `state: () => ({ items: [] })`. */
    constructor()
      ensures items == []
    {
      items := [];
    }

    /** `addToCart(product, quantity)`. */
    method AddToCart(product: Product, quantity: int)
      modifies this
      ensures items == Added(old(items), product, quantity)
    {
      var i := IndexOfId(items, product.id);
      if i >= 0 {
        items := items[i := items[i].(quantity := items[i].quantity + quantity)];
      } else {
        items := items + [CartItem(product, quantity)];
      }
    }

    /** `removeFromCart(id)`. */
    method RemoveFromCart(id: int)
      modifies this
      ensures items == Removed(old(items), id)
    {
      var i := IndexOfId(items, id);
      if i != -1 {
        items := items[..i] + items[i + 1..];
      }
    }

    /** `updateQuantity(id, quantity)`. */
    method UpdateQuantity(id: int, quantity: int)
      modifies this
      ensures items == Updated(old(items), id, quantity)
    {
      var i := IndexOfId(items, id);
      if i >= 0 {
        if quantity > 0 {
          items := items[i := items[i].(quantity := quantity)];
        } else {
          RemoveFromCart(id);
        }
      }
    }

    /** `clearCart()`. */
    method ClearCart()
      modifies this
      ensures items == [] && TotalItems(items) == 0 && Subtotal(items) == 0
    {
      items := [];
    }
  }
}

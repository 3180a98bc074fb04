/** The shopping cart (domain/cart): `ProductCartItem` in its validating
    (entity) and its unvalidated (domain) form, and `ProductCart`, a list
    edited in place that holds at most one item per product.  Products are
    compared by reference, as `Product` keeps `Object.equals`. */
module Carts {
  import opened Wrappers
  import opened Products
  import opened Users

  const ProductBlankMessage := "상품은 비어있을 수 없습니다."
  const QuantityNegativeMessage := "수량은 음수일 수 없습니다."

  /** A validated cart line (cart/entity/ProductCartItem.java). */
  datatype CartItem = CartItem(product: Product, quantity: nat)

  /** `new ProductCartItem(product, quantity)`: product first, then a
      non-negative quantity. */
  function NewCartItem(product: Product?, quantity: int): (r: Result<CartItem>)
    ensures r.Ok? <==> product != null && quantity >= 0
    ensures product == null ==> r == Fail(Domain(ProductBlankMessage))
    ensures product != null && quantity < 0 ==> r == Fail(Domain(QuantityNegativeMessage))
    ensures r.Ok? ==> r.value.product == product && r.value.quantity == quantity
  {
    if product == null then Fail(Domain(ProductBlankMessage))
    else if quantity < 0 then Fail(Domain(QuantityNegativeMessage))
    else Ok(CartItem(product, quantity))
  }

  /** `new ProductCartItem(product)`: the key used for removal, quantity 0. */
  function NewCartItemFor(product: Product?): (r: Result<CartItem>)
    ensures r.Ok? <==> product != null
    ensures r.Ok? ==> r.value == CartItem(product, 0)
    ensures r.Fail? ==> r.error == Domain(ProductBlankMessage)
  {
    NewCartItem(product, 0)
  }

  /** `equals`: two lines are equal when they hold the same product,
      whatever their quantities; no line equals null. */
  predicate ItemEquals(a: CartItem, other: Option<CartItem>)
  {
    other.Some? && a.product == other.value.product
  }

  /** `equals` is an equivalence on lines and ignores quantities. */
  lemma ItemEqualsIgnoresQuantity(a: CartItem, b: CartItem, c: CartItem)
    ensures ItemEquals(a, Some(a)) && !ItemEquals(a, None)
    ensures ItemEquals(a, Some(b)) <==> ItemEquals(b, Some(a))
    ensures ItemEquals(a, Some(b)) && ItemEquals(b, Some(c)) ==> ItemEquals(a, Some(c))
    ensures ItemEquals(a, Some(a.(quantity := b.quantity)))
  {
  }

  /** The unvalidated line of cart/domain/ProductCartItem.java: stores the
      product and the quantity as given. */
  datatype UncheckedCartItem = UncheckedCartItem(product: Product?, quantity: Option<int>)

  /** Its `equals`, again by product only. */
  predicate UncheckedEquals(a: UncheckedCartItem, other: Option<UncheckedCartItem>)
  {
    other.Some? && a.product == other.value.product
  }

  /** Its `hashCode` is the product's identity hash; here, the product
      reference itself stands for it. */
  function UncheckedHash(a: UncheckedCartItem): Product?
  {
    a.product
  }

  /** The unvalidated form accepts what the validating one refuses, and its
      `equals` and `hashCode` agree. */
  lemma UncheckedAcceptsAll(p: Product?, q: int, a: UncheckedCartItem, b: UncheckedCartItem)
    ensures UncheckedCartItem(p, Some(q)).quantity == Some(q)
    ensures NewCartItem(p, q).Fail? <==> p == null || q < 0
    ensures UncheckedEquals(a, Some(b)) <==> UncheckedHash(a) == UncheckedHash(b)
    ensures !UncheckedEquals(a, None)
  {
  }

  /** The products held by a list of lines. */
  function ProductSet(items: seq<CartItem>): set<Product>
  {
    set i | 0 <= i < |items| :: items[i].product
  }

  /** At most one line per product. */
  predicate Distinct(items: seq<CartItem>)
  {
    forall i, j :: 0 <= i < j < |items| ==> items[i].product != items[j].product
  }

  /** The index of the first line for the product, or the length when
      there is none (`List.indexOf`). */
  function FirstIndex(items: seq<CartItem>, p: Product): (i: nat)
    ensures i <= |items|
    ensures forall k :: 0 <= k < i ==> items[k].product != p
    ensures i < |items| ==> items[i].product == p
    ensures i == |items| <==> p !in ProductSet(items)
  {
    if items == [] then 0
    else if items[0].product == p then 0
    else
      var i := 1 + FirstIndex(items[1..], p);
      assert forall k :: 1 <= k < |items| ==> items[k] == items[1..][k - 1];
      i
  }

  /** `List.remove(key)`: drops the first line equal to the key, if any. */
  function RemoveFirst(items: seq<CartItem>, p: Product): (r: seq<CartItem>)
    ensures p !in ProductSet(items) ==> r == items
    ensures p in ProductSet(items) ==> |r| == |items| - 1
  {
    var i := FirstIndex(items, p);
    if i == |items| then items else items[..i] + items[i + 1..]
  }

  /** Removing an element from a list without repeated products. */
  lemma {:induction false} RemoveAtDistinct(items: seq<CartItem>, i: nat)
    requires Distinct(items) && i < |items|
    ensures Distinct(items[..i] + items[i + 1..])
    ensures ProductSet(items[..i] + items[i + 1..]) == ProductSet(items) - {items[i].product}
  {
    var r := items[..i] + items[i + 1..];
    assert forall k :: 0 <= k < |r| ==> r[k] == items[if k < i then k else k + 1];
    forall x | x in ProductSet(items) - {items[i].product} ensures x in ProductSet(r) {
      var k :| 0 <= k < |items| && items[k].product == x;
      assert r[if k < i then k else k - 1].product == x;
    }
  }

  /** `addItem` on the list: the old line for the product goes, the new one
      comes last. */
  function Added(items: seq<CartItem>, item: CartItem): seq<CartItem>
  {
    RemoveFirst(items, item.product) + [item]
  }

  /** `addItem` keeps one line per product, puts the product's line last with
      the new quantity, and grows the list only for a new product. */
  lemma AddedKeepsDistinct(items: seq<CartItem>, item: CartItem)
    requires Distinct(items)
    ensures var r := Added(items, item);
      Distinct(r) && r[|r| - 1] == item
      && ProductSet(r) == ProductSet(items) + {item.product}
      && |r| == |items| + (if item.product in ProductSet(items) then 0 else 1)
  {
    var rest := RemoveFirst(items, item.product);
    RemovedKeepsDistinct(items, item.product);
    var r := rest + [item];
    assert forall k :: 0 <= k < |rest| ==> r[k] == rest[k];
    assert ProductSet(r) == ProductSet(rest) + {item.product} by {
      forall x | x in ProductSet(r) ensures x in ProductSet(rest) + {item.product} {
        var k :| 0 <= k < |r| && r[k].product == x;
      }
      assert r[|rest|] == item;
    }
  }

  /** `removeItem` on a list with one line per product: the product is gone,
      everything else stays. */
  lemma RemovedKeepsDistinct(items: seq<CartItem>, p: Product)
    requires Distinct(items)
    ensures Distinct(RemoveFirst(items, p))
    ensures ProductSet(RemoveFirst(items, p)) == ProductSet(items) - {p}
    ensures |RemoveFirst(items, p)| == |items| - (if p in ProductSet(items) then 1 else 0)
  {
    var i := FirstIndex(items, p);
    if i < |items| {
      RemoveAtDistinct(items, i);
    }
  }

  /** `ProductCart`: the user's cart. */
  class ProductCart {
    var items: seq<CartItem>
    const user: User?

    /** A new cart is empty. */
    constructor(user: User?)
      ensures items == [] && this.user == user
    {
      items := [];
      this.user := user;
    }

    /** `getItems`: a read-only view. */
    function GetItems(): seq<CartItem>
      reads this
    {
      items
    }

    /** `addItem`: the line is built first, so a refused line leaves the cart
        as it was; otherwise the product's line is replaced and moved last. */
    method AddItem(product: Product?, quantity: int) returns (r: Outcome)
      modifies this
      ensures var item := NewCartItem(product, quantity);
        (item.Fail? ==> r == Raise(item.error) && items == old(items))
        && (item.Ok? ==> r == Pass && items == Added(old(items), item.value))
      ensures Distinct(old(items)) ==> Distinct(items)
    {
      var item := NewCartItem(product, quantity);
      if item.Fail? {
        return Raise(item.error);
      }
      if Distinct(items) {
        AddedKeepsDistinct(items, item.value);
      }
      items := Added(items, item.value);
      r := Pass;
    }

    /** `removeItem`: drops the product's line; nothing happens when it is
        absent. */
    method RemoveItem(product: Product?) returns (r: Outcome)
      modifies this
      ensures product == null ==> r == Raise(Domain(ProductBlankMessage)) && items == old(items)
      ensures product != null ==> r == Pass && items == RemoveFirst(old(items), product)
      ensures Distinct(old(items)) ==> Distinct(items)
    {
      var key := NewCartItemFor(product);
      if key.Fail? {
        return Raise(key.error);
      }
      if Distinct(items) {
        RemovedKeepsDistinct(items, key.value.product);
      }
      items := RemoveFirst(items, key.value.product);
      r := Pass;
    }

    /** `removeAllItem`: empties the cart. */
    method RemoveAllItem()
      modifies this
      ensures items == []
    {
      items := [];
    }
  }
}

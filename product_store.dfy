/** frontend/src/entities/product/model/productStore.ts: the product list,
    its lookups, and the actions that load, cache and delete products.  The
    API calls are parameters giving their awaited outcome. */
module ProductStore {
  import opened Wrappers
  import opened Sequences
  import opened ProductTypes

  const ListFailed := "상품을 불러오는 중 오류가 발생했습니다."
  const DetailsFailed := "상품 정보를 불러오는 중 오류가 발생했습니다."
  const CreateFailed := "상품 등록 중 오류가 발생했습니다."
  const UpdateFailed := "상품 수정 중 오류가 발생했습니다."
  const DeleteFailed := "상품 삭제 중 오류가 발생했습니다."
  const AdjustFailed := "재고 조정 중 오류가 발생했습니다."

  /** What an awaited API call gives: a value, or an error with its
      `message` ('' when it has none). */
  datatype Reply<T> = Reply(value: T) | Thrown(message: string)

  /** The store's state. */
  datatype ProductState = ProductState(products: seq<Product>, isLoading: bool, error: Option<string>)

  /** `err.message || fallback`. */
  function MessageOr(message: string, fallback: string): string
  {
    if message != "" then message else fallback
  }

  function ProductId(p: Product): int
  {
    p.id
  }

  /** `findIndex(p => p.id === id)`. */
  function IndexOfProduct(products: seq<Product>, id: int): int
  {
    FindIndex(products, ProductId, id)
  }

  /** The getter `getProductById(id)`: the first product with that id. */
  function ProductById(products: seq<Product>, id: int): (r: Option<Product>)
    ensures r.Some? <==> exists j :: 0 <= j < |products| && products[j].id == id
    ensures r.Some? ==> r.value in products && r.value.id == id
  {
    var i := IndexOfProduct(products, id);
    if i >= 0 then Some(products[i]) else None
  }

  /** `products.filter(keep)`. */
  function Filter(products: seq<Product>, keep: Product -> bool): seq<Product>
  {
    if products == [] then []
    else (if keep(products[0]) then [products[0]] else []) + Filter(products[1..], keep)
  }

  /** A filter keeps exactly the products that pass, in their order: it
      distributes over concatenation, so the kept products are a
      subsequence. */
  lemma {:induction false} FilterKeeps(products: seq<Product>, keep: Product -> bool)
    ensures forall p :: p in Filter(products, keep) <==> p in products && keep(p)
    ensures |Filter(products, keep)| <= |products|
  {
    if products != [] {
      FilterKeeps(products[1..], keep);
      assert forall p :: p in products <==> p == products[0] || p in products[1..];
    }
  }

  lemma {:induction false} FilterConcat(a: seq<Product>, b: seq<Product>, keep: Product -> bool)
    ensures Filter(a + b, keep) == Filter(a, keep) + Filter(b, keep)
  {
    if a == [] {
      assert a + b == b;
    } else {
      assert (a + b)[1..] == a[1..] + b;
      FilterConcat(a[1..], b, keep);
    }
  }

  predicate InCategory(category: string, p: Product) { p.category == category }
  predicate InStock(p: Product) { p.inStock }
  predicate NotId(id: int, p: Product) { p.id != id }

  /** The getters `getProductsByCategory(category)` and `getInStockProducts`. */
  function ByCategory(products: seq<Product>, category: string): seq<Product>
  {
    Filter(products, p => InCategory(category, p))
  }

  function InStockProducts(products: seq<Product>): seq<Product>
  {
    Filter(products, InStock)
  }

  /** The category and stock lookups keep exactly the matching products in
      list order: they split over a concatenation of lists. */
  lemma LookupsFilter(products: seq<Product>, more: seq<Product>, category: string)
    ensures forall p :: p in ByCategory(products, category) <==> p in products && p.category == category
    ensures forall p :: p in InStockProducts(products) <==> p in products && p.inStock
    ensures ByCategory(products + more, category) == ByCategory(products, category) + ByCategory(more, category)
    ensures InStockProducts(products + more) == InStockProducts(products) + InStockProducts(more)
  {
    FilterKeeps(products, p => InCategory(category, p));
    FilterKeeps(products, InStock);
    FilterConcat(products, more, p => InCategory(category, p));
    FilterConcat(products, more, InStock);
  }

  /** `fetchProducts()`: the list is replaced, or the error recorded with the
      list stays. */
  function FetchProductsStep(st: ProductState, reply: Reply<seq<Product>>): (r: ProductState)
    ensures !r.isLoading
    ensures reply.Reply? ==> r.products == reply.value && r.error.None?
    ensures reply.Thrown? ==> r.products == st.products && r.error == Some(MessageOr(reply.message, ListFailed))
  {
    match reply
    case Reply(products) => ProductState(products, false, None)
    case Thrown(m) => ProductState(st.products, false, Some(MessageOr(m, ListFailed)))
  }

  /** The products after storing the product fetched for `id`: it replaces
      the first product with that id, or is appended. */
  function Upserted(products: seq<Product>, id: int, product: Product): seq<Product>
  {
    var i := IndexOfProduct(products, id);
    if i != -1 then products[i := product] else products + [product]
  }

  /** Whether `fetchProductById(id)` answers from the list: a product with
      that id whose description is not empty. */
  predicate Cached(products: seq<Product>, id: int)
  {
    var existing := ProductById(products, id);
    existing.Some? && existing.value.description != ""
  }

  /** `fetchProductById(id)`: the product it returns (or the error it
      rethrows) and the state after. */
  function FetchByIdStep(st: ProductState, id: int, reply: Reply<Product>): (Result<Product>, ProductState)
  {
    if Cached(st.products, id) then (Ok(ProductById(st.products, id).value), st)
    else match reply
      case Reply(product) => (Ok(product), ProductState(Upserted(st.products, id, product), false, None))
      case Thrown(m) => (Fail(JsError(m)), ProductState(st.products, false, Some(MessageOr(m, DetailsFailed))))
  }

  /** A cached product is answered without a request and without any state
      change; otherwise a fetched product is stored under the requested id
      and found there afterwards, unless it carries another id. */
  lemma FetchByIdEffect(st: ProductState, id: int, reply: Reply<Product>)
    ensures Cached(st.products, id) ==> FetchByIdStep(st, id, reply) == (Ok(ProductById(st.products, id).value), st)
    ensures !Cached(st.products, id) && reply.Reply? ==>
      var after := FetchByIdStep(st, id, reply).1;
      |after.products| == |st.products| + (if ProductById(st.products, id).None? then 1 else 0)
      && reply.value in after.products
      && (reply.value.id == id ==> ProductById(after.products, id) == Some(reply.value))
    ensures !Cached(st.products, id) && reply.Thrown? ==>
      FetchByIdStep(st, id, reply) == (Fail(JsError(reply.message)),
                                       ProductState(st.products, false, Some(MessageOr(reply.message, DetailsFailed))))
  {
    if !Cached(st.products, id) && reply.Reply? {
      var i := IndexOfProduct(st.products, id);
      var after := Upserted(st.products, id, reply.value);
      if i == -1 {
        assert after[|st.products|] == reply.value;
        if reply.value.id == id {
          assert forall j :: 0 <= j < |st.products| ==> after[j] == st.products[j];
          FindIndexAt(after, ProductId, id, |st.products|);
        }
      } else {
        assert after[i] == reply.value;
        if reply.value.id == id {
          assert forall j :: 0 <= j < i ==> after[j] == st.products[j];
          FindIndexAt(after, ProductId, id, i);
        }
      }
    }
  }

  /** A detail whose id differs from the requested one overwrites the
      requested product's place: the list then no longer has the requested
      id there. */
  lemma MismatchedIdReplaces(p: Product, q: Product)
    requires p.id != q.id && p.description == ""
    ensures FetchByIdStep(ProductState([p], false, None), p.id, Reply(q)).1.products == [q]
    ensures ProductById(FetchByIdStep(ProductState([p], false, None), p.id, Reply(q)).1.products, p.id) == None
  {
    FindIndexAt([p], ProductId, p.id, 0);
    FindIndexNone([q], ProductId, p.id);
  }

  /** `deleteProduct(id)`: every product with the id goes, and only after the
      API call succeeds. */
  function DeleteStep(st: ProductState, id: int, reply: Reply<()>): (Result<bool>, ProductState)
  {
    match reply
    case Reply(_) => (Ok(true), ProductState(Filter(st.products, p => NotId(id, p)), false, None))
    case Thrown(m) => (Fail(JsError(m)), ProductState(st.products, false, Some(MessageOr(m, DeleteFailed))))
  }

  /** After a delete no product has the id and all others remain; a failed
      call removes nothing. */
  lemma DeleteEffect(st: ProductState, id: int, reply: Reply<()>)
    ensures reply.Reply? ==>
      var after := DeleteStep(st, id, reply).1.products;
      ProductById(after, id) == None && (forall p :: p in after <==> p in st.products && p.id != id)
    ensures reply.Thrown? ==> DeleteStep(st, id, reply).1.products == st.products
  {
    FilterKeeps(st.products, p => NotId(id, p));
  }

  /** `createProduct`, `updateProduct` and `adjustStock`: the API call, then
      `fetchProducts()`; a failing call records its message or the action's
      fallback and rethrows.  `fetchProducts` catches its own errors, so a
      failing reload still counts as success here. */
  function ThenReloadStep(st: ProductState, call: Reply<()>, reload: Reply<seq<Product>>, fallback: string): (Option<string>, ProductState)
  {
    match call
    case Reply(_) => (None, FetchProductsStep(st.(isLoading := true, error := None), reload).(isLoading := false))
    case Thrown(m) => (Some(m), ProductState(st.products, false, Some(MessageOr(m, fallback))))
  }

  /** A reload that fails after a successful call leaves the list as it was,
      with the list error recorded, and the action succeeds. */
  lemma ReloadFailureSwallowed(st: ProductState, m: string, fallback: string)
    ensures ThenReloadStep(st, Reply(()), Thrown(m), fallback) == (None, ProductState(st.products, false, Some(MessageOr(m, ListFailed))))
  {
  }

  class Store {
    var products: seq<Product>
    var isLoading: bool
    var error: Option<string>

    function State(): ProductState
      reads this
    {
      ProductState(products, isLoading, error)
    }

    constructor()
      ensures State() == ProductState([], false, None)
    {
      products, isLoading, error := [], false, None;
    }

    method FetchProducts(reply: Reply<seq<Product>>)
      modifies this
      ensures State() == FetchProductsStep(old(State()), reply)
    {
      isLoading := true;
      error := None;
      match reply {
        case Reply(p) => products := p;
        case Thrown(m) => error := Some(MessageOr(m, ListFailed));
      }
      isLoading := false;
    }

    method FetchProductById(id: int, reply: Reply<Product>) returns (r: Result<Product>)
      modifies this
      ensures (r, State()) == FetchByIdStep(old(State()), id, reply)
    {
      var existing := ProductById(products, id);
      if existing.Some? && existing.value.description != "" {
        return Ok(existing.value);
      }
      isLoading := true;
      error := None;
      match reply {
        case Reply(product) =>
          var index := IndexOfProduct(products, id);
          if index != -1 {
            products := products[index := product];
          } else {
            products := products + [product];
          }
          r := Ok(product);
        case Thrown(m) =>
          error := Some(MessageOr(m, DetailsFailed));
          r := Fail(JsError(m));
      }
      isLoading := false;
    }

    method DeleteProduct(id: int, reply: Reply<()>) returns (r: Result<bool>)
      modifies this
      ensures (r, State()) == DeleteStep(old(State()), id, reply)
    {
      isLoading := true;
      error := None;
      match reply {
        case Reply(_) =>
          products := Filter(products, p => NotId(id, p));
          r := Ok(true);
        case Thrown(m) =>
          error := Some(MessageOr(m, DeleteFailed));
          r := Fail(JsError(m));
      }
      isLoading := false;
    }

    /** `createProduct`, `updateProduct` or `adjustStock`, with `fallback`
        the action's own message. */
    method ThenReload(call: Reply<()>, reload: Reply<seq<Product>>, fallback: string) returns (thrown: Option<string>)
      modifies this
      ensures (thrown, State()) == ThenReloadStep(old(State()), call, reload, fallback)
    {
      isLoading := true;
      error := None;
      match call {
        case Reply(_) =>
          FetchProducts(reload);
          thrown := None;
        case Thrown(m) =>
          error := Some(MessageOr(m, fallback));
          thrown := Some(m);
      }
      isLoading := false;
    }
  }
}

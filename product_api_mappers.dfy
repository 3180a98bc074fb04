/** frontend/src/entities/product/api/mappers.ts: product responses turned
    into `Product` records, and products into display props. */
module ProductApiMappers {
  import opened Wrappers
  import opened ProductTypes
  import ProductStore

  /** `ProductResponse.Detail`. */
  datatype DetailResponse = DetailResponse(id: int, name: string, originalPrice: int, price: int, description: string,
                                           thumbnailImageUrl: string, category: string, status: string, stock: int,
                                           discountRate: int, createdAt: string, updatedAt: string)

  /** `ProductResponse.List`. */
  datatype ListResponse = ListResponse(id: int, name: string, price: int, originalPrice: int, thumbnailImageUrl: string,
                                       category: string, status: string, stock: int, discountRate: int)

  /** `mapToProduct(response)`. */
  function MapToProduct(response: DetailResponse): Product
  {
    Product(response.id, response.name, response.originalPrice, response.price, response.description,
            Some(response.thumbnailImageUrl), response.category, response.stock > 0, response.status, Some(response.stock))
  }

  /** One entry of `mapToProducts(responses)`. */
  function MapListEntry(response: ListResponse): Product
  {
    Product(response.id, response.name, response.originalPrice, response.price, "",
            Some(response.thumbnailImageUrl), response.category, response.stock > 0, response.status, Some(response.stock))
  }

  /** `mapToProducts(responses)`. */
  function MapToProducts(responses: seq<ListResponse>): (r: seq<Product>)
    ensures |r| == |responses|
    ensures forall i :: 0 <= i < |responses| ==> r[i] == MapListEntry(responses[i])
  {
    if responses == [] then [] else [MapListEntry(responses[0])] + MapToProducts(responses[1..])
  }

  /** A mapped product is in stock exactly when the response's stock is
      positive, and carries that stock as its quantity; the discount rate and
      the timestamps are dropped. */
  lemma StockMapped(detail: DetailResponse, entry: ListResponse)
    ensures MapToProduct(detail).inStock <==> detail.stock > 0
    ensures MapToProduct(detail).stock == Some(detail.stock)
    ensures MapListEntry(entry).inStock <==> entry.stock > 0
    ensures MapListEntry(entry).stock == Some(entry.stock)
    ensures MapToProduct(detail).description == detail.description && MapListEntry(entry).description == ""
  {
  }

  /** The list response of the product a detail response describes. */
  function ListOf(detail: DetailResponse): ListResponse
  {
    ListResponse(detail.id, detail.name, detail.price, detail.originalPrice, detail.thumbnailImageUrl,
                 detail.category, detail.status, detail.stock, detail.discountRate)
  }

  /** The two mappings agree on everything except the description, which
      the list leaves empty. */
  lemma ListEntryIsDetailWithoutDescription(detail: DetailResponse)
    ensures MapListEntry(ListOf(detail)) == MapToProduct(detail).(description := "")
  {
  }

  /** A listed product is never answered from the store's cache: its empty
      description makes `fetchProductById` request the detail. */
  lemma ListedProductsNotCached(responses: seq<ListResponse>, id: int)
    ensures !ProductStore.Cached(MapToProducts(responses), id)
  {
    var products := MapToProducts(responses);
    var found := ProductStore.ProductById(products, id);
    if found.Some? {
      var j :| 0 <= j < |products| && products[j] == found.value;
    }
  }

  /** `ProductDisplayProps`. */
  datatype DisplayProps = DisplayProps(id: int, name: string, price: int, originalPrice: int,
                                       thumbnailImageUrl: Option<string>, category: string, inStock: bool)

  /** `mapToProductDisplayProps(product)`. */
  function MapToDisplayProps(product: Product): DisplayProps
  {
    DisplayProps(product.id, product.name, product.price, product.originalPrice, product.thumbnailImageUrl,
                 product.category, product.inStock)
  }

  /** The display props see only fields that the list and the detail mapping
      fill alike, so a product shows the same whichever response it came
      from, and the description, status and stock never reach them. */
  lemma DisplayIgnoresSource(detail: DetailResponse, p: Product, description: string, status: string, stock: Option<int>)
    ensures MapToDisplayProps(MapListEntry(ListOf(detail))) == MapToDisplayProps(MapToProduct(detail))
    ensures MapToDisplayProps(p.(description := description, status := status, stock := stock)) == MapToDisplayProps(p)
  {
  }
}

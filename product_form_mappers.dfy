/** frontend/src/features/productManagement/model/mappers.ts: the product
    form's data, built from a product, and the create, update and
    stock-adjustment requests built from the form.  The form types are
    declared in a file that is not part of this model; their fields are the
    ones the mappers read. */
module ProductFormMappers {
  import opened Wrappers
  import opened ProductTypes

  /** `ProductFormData`: `stock` is optional and only the create request
      reads it. */
  datatype FormData = FormData(name: string, originalPrice: int, price: int, description: string,
                               thumbnailImageUrl: string, category: string, stock: Option<int>)

  /** `ProductRequest.Create` and `ProductRequest.Update`. */
  datatype CreateRequest = CreateRequest(name: string, originalPrice: int, price: int, description: string,
                                         thumbnailImageUrl: string, category: string, stock: int)
  datatype UpdateRequest = UpdateRequest(name: string, originalPrice: int, price: int, description: string,
                                         thumbnailImageUrl: string, category: string)

  /** `StockAdjustmentData` and `ProductRequest.StockAdjustment`. */
  datatype StockAdjustmentData = StockAdjustmentData(quantity: int, reason: string, memo: Option<string>)
  datatype StockAdjustmentRequest = StockAdjustmentRequest(quantity: int, reason: string, memo: Option<string>)

  /** `mapToProductFormData(product)`: a missing or empty thumbnail becomes
      ''; the form gets no stock. */
  function MapToFormData(product: Product): (r: FormData)
  {
    FormData(product.name, product.originalPrice, product.price, product.description,
             if product.thumbnailImageUrl.Some? then product.thumbnailImageUrl.value else "",
             product.category, None)
  }

  /** `mapToCreateRequest(formData)`: `stock || 0`. */
  function MapToCreateRequest(form: FormData): (r: CreateRequest)
  {
    CreateRequest(form.name, form.originalPrice, form.price, form.description, form.thumbnailImageUrl, form.category,
                  if form.stock.Some? && form.stock.value != 0 then form.stock.value else 0)
  }

  /** `mapToUpdateRequest(formData)`. */
  function MapToUpdateRequest(form: FormData): (r: UpdateRequest)
  {
    UpdateRequest(form.name, form.originalPrice, form.price, form.description, form.thumbnailImageUrl, form.category)
  }

  /** `mapToStockAdjustmentRequest(data)`. */
  function MapToStockAdjustmentRequest(data: StockAdjustmentData): (r: StockAdjustmentRequest)
  {
    StockAdjustmentRequest(data.quantity, data.reason, data.memo)
  }

  /** The create request carries the form's stock, or 0 when there is none;
      the update request is the create request without its stock. */
  lemma RequestsAgree(form: FormData)
    ensures MapToCreateRequest(form).stock == if form.stock.Some? then form.stock.value else 0
    ensures var c := MapToCreateRequest(form);
      MapToUpdateRequest(form) == UpdateRequest(c.name, c.originalPrice, c.price, c.description, c.thumbnailImageUrl, c.category)
    ensures MapToCreateRequest(form.(stock := None)) == MapToCreateRequest(form.(stock := Some(0)))
  {
  }

  /** Editing a product and saving the form unchanged sends back the
      product's own fields, a missing thumbnail as '', and a create request
      built from such a form asks for no stock. */
  lemma EditRoundTrip(product: Product)
    ensures var u := MapToUpdateRequest(MapToFormData(product));
      u.name == product.name && u.originalPrice == product.originalPrice && u.price == product.price
      && u.description == product.description && u.category == product.category
      && u.thumbnailImageUrl == (if product.thumbnailImageUrl.Some? then product.thumbnailImageUrl.value else "")
    ensures MapToCreateRequest(MapToFormData(product)).stock == 0
  {
  }

  /** The adjustment request is the data, memo included when it is absent. */
  lemma AdjustmentCopied(data: StockAdjustmentData)
    ensures var r := MapToStockAdjustmentRequest(data);
      r.quantity == data.quantity && r.reason == data.reason && r.memo == data.memo
  {
  }
}

/** frontend/src/entities/product/model/types.ts: the product record the
    stores and mappers pass around, and a second copy of the category table
    whose lookups have no fallback. */
module ProductTypes {
  import opened Wrappers
  import opened EnumTables
  import ProductConstants

  /** A product as the mappers build it.  The interface at types.ts:1-10
      names `imageUrl` and lacks `thumbnailImageUrl`, `status` and `stock`;
      the objects the mappers build and the stores hold carry the fields
      below.  `stock` is `stock.quantity`, absent on the products of the
      cart mapper; prices are integers. */
  datatype Product = Product(
    id: int,
    name: string,
    originalPrice: int,
    price: int,
    description: string,
    thumbnailImageUrl: Option<string>,
    category: string,
    inStock: bool,
    status: string,
    stock: Option<int>)

  /** The table at types.ts:42-67 holds the same 24 pairs as the one in
      constants.ts. */
  const Descriptions: map<string, string> := ProductConstants.CategoryDescriptions

  /** The namespace adds `descriptions`, `getDescription`, `entries` and
      `values` to the enum object. */
  const NamespaceMembers := 4

  /** `ProductCategory.getDescription(category)`: `descriptions[category]`,
      `undefined` for a string that is not a category. */
  function Description(category: string): (r: Option<string>)
  {
    DescriptionOf(Descriptions, category)
  }

  /** Every category is described; any other string gets `undefined`, where
      the copy in constants.ts answers with the string itself. */
  lemma DescriptionNoFallback(category: string)
    ensures category in ProductConstants.CategoryCodes ==>
      Description(category) == Some(ProductConstants.CategoryDescription(category))
    ensures category !in ProductConstants.CategoryCodes ==>
      Description(category) == None && ProductConstants.CategoryDescription(category) == category
  {
    ProductConstants.CategoriesDescribed();
    ProductConstants.CategoryDescriptionFallback(category);
    if category in ProductConstants.CategoryCodes {
      var i :| 0 <= i < |ProductConstants.CategoryCodes| && ProductConstants.CategoryCodes[i] == category;
    }
  }

  /** `ProductCategory.values()`. */
  function Values(): seq<string>
  {
    StringValues(EnumObject(ProductConstants.CategoryCodes, NamespaceMembers))
  }

  /** `ProductCategory.entries()`: `descriptions[code]` with no fallback. */
  function Entries(): seq<Entry>
  {
    EntriesOf(Values(), Descriptions)
  }

  /** `values()` lists the 24 codes in declaration order, as the copy in
      constants.ts does. */
  lemma ValuesAgree()
    ensures Values() == ProductConstants.CategoryCodes
    ensures Values() == ProductConstants.CategoryValues()
  {
    StringValuesOfEnum(ProductConstants.CategoryCodes, NamespaceMembers);
    ProductConstants.CategoryValuesAreCodes();
  }

  /** `entries()` pairs each code with its description; as every code is
      described, the lack of a fallback never shows and the entries are the
      ones constants.ts lists. */
  lemma EntriesAgreeWithConstants()
    ensures Entries() == EntriesOf(ProductConstants.CategoryCodes, ProductConstants.CategoryDescriptions)
    ensures Entries() == ProductConstants.CategoryEntries()
  {
    ValuesAgree();
    ProductConstants.CategoryEntriesListed();
  }
}

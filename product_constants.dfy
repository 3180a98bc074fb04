/** frontend/src/entities/product/model/constants.ts: the product category,
    stock-change reason and product status enums with their Korean
    descriptions. */
module ProductConstants {
  import opened Wrappers
  import opened EnumTables

  /** The 24 `ProductCategory` codes, in declaration order. */
  const CategoryCodes: seq<string> := [
    "ELECTRONICS", "FURNITURE", "HOME_APPLIANCE", "CLOTHING", "SHOES", "ACCESSORIES",
    "BEAUTY", "HEALTH", "SPORTS", "BABY", "FOOD", "BEVERAGE",
    "BOOKS", "STATIONERY", "KITCHEN", "BATHROOM", "BEDDING", "PETS",
    "PLANTS", "DIGITAL_CONTENT", "TOYS", "AUTOMOTIVE", "OUTDOOR", "TRAVEL"]

  /** `ProductCategory.descriptions`. */
  const CategoryDescriptions: map<string, string> := map[
    "ELECTRONICS" := "전자제품", "FURNITURE" := "가구", "HOME_APPLIANCE" := "가전제품",
    "CLOTHING" := "의류", "SHOES" := "신발", "ACCESSORIES" := "액세서리",
    "BEAUTY" := "뷰티/화장품", "HEALTH" := "건강/의료용품", "SPORTS" := "스포츠/레저",
    "BABY" := "유아용품", "FOOD" := "식품", "BEVERAGE" := "음료",
    "BOOKS" := "도서", "STATIONERY" := "문구/사무용품", "KITCHEN" := "주방용품",
    "BATHROOM" := "욕실용품", "BEDDING" := "침구류", "PETS" := "반려동물용품",
    "PLANTS" := "식물/원예용품", "DIGITAL_CONTENT" := "디지털 콘텐츠", "TOYS" := "장난감/취미용품",
    "AUTOMOTIVE" := "자동차용품", "OUTDOOR" := "아웃도어/캠핑", "TRAVEL" := "여행용품"]

  /** The namespace adds `descriptions`, `getDescription`, `entries` and
      `values` to the enum object. */
  const CategoryNamespaceMembers := 4

  /** The 24 codes are distinct. */
  lemma CategoriesDistinct()
    ensures |CategoryCodes| == 24 && Distinct(CategoryCodes)
  {
  }

  /** Every category is described, by a non-empty text, and nothing else is. */
  lemma CategoriesDescribed()
    ensures forall i :: 0 <= i < |CategoryCodes| ==>
      CategoryCodes[i] in CategoryDescriptions && CategoryDescriptions[CategoryCodes[i]] != ""
    ensures forall c :: c in CategoryDescriptions ==> c in CategoryCodes
  {
    DescribedBelow(0, 8);
    DescribedBelow(8, 16);
    DescribedBelow(16, 24);
    OnlyCategoriesDescribed();
  }

  /** The categories from `lo` up to `hi` are described by non-empty texts,
      checked a third of the table at a time. */
  lemma DescribedBelow(lo: nat, hi: nat)
    requires (lo, hi) == (0, 8) || (lo, hi) == (8, 16) || (lo, hi) == (16, 24)
    ensures forall i :: lo <= i < hi ==>
      CategoryCodes[i] in CategoryDescriptions && CategoryDescriptions[CategoryCodes[i]] != ""
  {
  }

  lemma OnlyCategoriesDescribed()
    ensures forall c :: c in CategoryDescriptions ==> c in CategoryCodes
  {
  }

  /** `ProductCategory.getDescription(category)`. */
  function CategoryDescription(category: string): (r: string)
  {
    DescriptionOr(CategoryDescriptions, category)
  }

  /** A known category gets its description, anything else its own code. */
  lemma CategoryDescriptionFallback(category: string)
    ensures category in CategoryCodes ==> CategoryDescription(category) == CategoryDescriptions[category]
    ensures category !in CategoryCodes ==> CategoryDescription(category) == category
  {
    CategoriesDescribed();
    if category in CategoryCodes {
      var i :| 0 <= i < |CategoryCodes| && CategoryCodes[i] == category;
    }
  }

  /** `ProductCategory.values()`. */
  function CategoryValues(): seq<string>
  {
    StringValues(EnumObject(CategoryCodes, CategoryNamespaceMembers))
  }

  /** `values()` lists the 24 codes in order, and none of the namespace's
      functions or its record. */
  lemma CategoryValuesAreCodes()
    ensures CategoryValues() == CategoryCodes
  {
    StringValuesOfEnum(CategoryCodes, CategoryNamespaceMembers);
  }

  /** `ProductCategory.entries()`. */
  function CategoryEntries(): seq<Entry>
  {
    EntriesOr(CategoryValues(), CategoryDescriptions)
  }

  /** Each code once, in order, with its description: as every category is
      described by a non-empty text, the fallback to the code never fires
      and the entries are those without one. */
  lemma CategoryEntriesListed()
    ensures CategoryEntries() == EntriesOf(CategoryCodes, CategoryDescriptions)
  {
    CategoriesDescribed();
    EnumEntries(CategoryCodes, CategoryNamespaceMembers, CategoryDescriptions);
  }

  /** The `StockChangeReason` codes. */
  const ReasonCodes: seq<string> := ["ADJUSTMENT", "LOSS"]
  const ReasonDescriptions: map<string, string> := map["ADJUSTMENT" := "재고조정", "LOSS" := "손실"]
  const ReasonNamespaceMembers := 4

  /** `StockChangeReason.getDescription(reason)`: no fallback. */
  function ReasonDescription(reason: string): (r: Option<string>)
  {
    DescriptionOf(ReasonDescriptions, reason)
  }

  /** A known reason is described; any other string gets `undefined`. */
  lemma ReasonDescriptionNoFallback(reason: string)
    ensures reason in ReasonCodes ==> ReasonDescription(reason) == Some(ReasonDescriptions[reason])
    ensures reason !in ReasonCodes ==> ReasonDescription(reason) == None
  {
    assert ReasonDescriptions.Keys == {"ADJUSTMENT", "LOSS"};
  }

  /** `StockChangeReason.values()` and `entries()`. */
  function ReasonValues(): seq<string>
  {
    StringValues(EnumObject(ReasonCodes, ReasonNamespaceMembers))
  }

  function ReasonEntries(): seq<Entry>
  {
    EntriesOr(ReasonValues(), ReasonDescriptions)
  }

  lemma ReasonTables()
    ensures ReasonValues() == ReasonCodes
    ensures ReasonEntries() == [Entry("ADJUSTMENT", Some("재고조정")), Entry("LOSS", Some("손실"))]
  {
    StringValuesOfEnum(ReasonCodes, ReasonNamespaceMembers);
  }

  /** The `ProductStatus` codes. */
  const StatusCodes: seq<string> := ["ACTIVE", "SOLD_OUT", "DELETED"]
  const StatusDescriptions: map<string, string> := map["ACTIVE" := "판매중", "SOLD_OUT" := "품절", "DELETED" := "삭제됨"]

  /** `ProductStatus.getDescription(status)`: falls back to the code. */
  function StatusDescription(status: string): (r: string)
  {
    DescriptionOr(StatusDescriptions, status)
  }

  lemma StatusDescriptionFallback(status: string)
    ensures status in StatusCodes ==> StatusDescription(status) == StatusDescriptions[status]
    ensures status !in StatusCodes ==> StatusDescription(status) == status
  {
    assert StatusDescriptions.Keys == {"ACTIVE", "SOLD_OUT", "DELETED"};
  }
}

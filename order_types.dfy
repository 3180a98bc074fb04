/** frontend/src/entities/order/model/types.ts: the order status enum with
    its description and style-class tables, and the order records the store
    holds. */
module OrderTypes {
  import opened Wrappers
  import opened EnumTables

  /** The six `OrderStatus` codes, in declaration order. */
  const StatusCodes: seq<string> := ["PENDING", "PAID", "FAILED", "CANCELLED", "CANCELING", "ORDERED"]

  /** `OrderStatus.descriptions`. */
  const Descriptions: map<string, string> := map[
    "PENDING" := "대기", "PAID" := "결제완료", "FAILED" := "주문 실패",
    "CANCELLED" := "주문 취소", "CANCELING" := "주문 취소 요청", "ORDERED" := "주문 완료"]

  /** `OrderStatus.statusClasses`. */
  const StatusClasses: map<string, string> := map[
    "PENDING" := "bg-blue-100 text-blue-800", "PAID" := "bg-green-100 text-green-800",
    "FAILED" := "bg-red-100 text-red-800", "CANCELLED" := "bg-red-100 text-red-800",
    "CANCELING" := "bg-orange-100 text-orange-800", "ORDERED" := "bg-purple-100 text-purple-800"]

  const DefaultStatusClass := "bg-gray-100 text-gray-800"

  /** The namespace adds `descriptions`, `statusClasses`, `getDescription`,
      `getStatusClass`, `entries` and `values` to the enum object. */
  const NamespaceMembers := 6

  /** Six distinct statuses, each with a non-empty description and class, and
      the tables hold nothing else. */
  lemma StatusTables()
    ensures |StatusCodes| == 6 && Distinct(StatusCodes)
    ensures Descriptions.Keys == StatusClasses.Keys == set c | c in StatusCodes
    ensures forall c :: c in Descriptions ==> Descriptions[c] != "" && StatusClasses[c] != ""
  {
    StatusesDistinct();
    TablesCoverStatuses();
    StatusesDescribed();
  }

  lemma StatusesDistinct()
    ensures |StatusCodes| == 6 && Distinct(StatusCodes)
  {
  }

  lemma TablesCoverStatuses()
    ensures Descriptions.Keys == StatusClasses.Keys == set c | c in StatusCodes
  {
  }

  lemma StatusesDescribed()
    ensures forall c :: c in Descriptions ==> Descriptions[c] != "" && StatusClasses[c] != ""
    ensures forall i :: 0 <= i < |StatusCodes| ==> StatusCodes[i] in Descriptions && Descriptions[StatusCodes[i]] != ""
  {
  }

  /** `OrderStatus.getDescription(status)`: `descriptions[status] || status`. */
  function Description(status: string): (r: string)
  {
    DescriptionOr(Descriptions, status)
  }

  /** `OrderStatus.getStatusClass(status)`: the gray class for anything that
      is not a status. */
  function StatusClass(status: string): (r: string)
  {
    if status in StatusClasses && StatusClasses[status] != "" then StatusClasses[status] else DefaultStatusClass
  }

  /** A status gets its own description and class; any other string is its
      own description and gets the gray class. */
  lemma Fallbacks(status: string)
    ensures status in StatusCodes ==>
      Description(status) == Descriptions[status] && StatusClass(status) == StatusClasses[status]
    ensures status !in StatusCodes ==>
      Description(status) == status && StatusClass(status) == DefaultStatusClass
  {
    StatusTables();
  }

  /** Two statuses share a class: a failed order looks like a cancelled one. */
  lemma FailedLooksCancelled()
    ensures StatusClass("FAILED") == StatusClass("CANCELLED")
    ensures Description("FAILED") != Description("CANCELLED")
  {
  }

  /** `OrderStatus.values()`. */
  function Values(): seq<string>
  {
    StringValues(EnumObject(StatusCodes, NamespaceMembers))
  }

  /** `OrderStatus.entries()`. */
  function Entries(): seq<Entry>
  {
    EntriesOr(Values(), Descriptions)
  }

  /** `values()` lists the six statuses in declaration order, none of the
      namespace's six members, and `entries()` pairs each with its
      description: the fallback to the code never fires. */
  lemma ValuesAndEntries()
    ensures Values() == StatusCodes
    ensures Entries() == EntriesOf(StatusCodes, Descriptions)
  {
    StringValuesOfEnum(StatusCodes, NamespaceMembers);
    StatusesDescribed();
    EnumEntries(StatusCodes, NamespaceMembers, Descriptions);
  }

  /** `OrderProduct`: prices are integers. */
  datatype OrderProduct = OrderProduct(id: int, name: string, originalPrice: int, price: int,
                                       thumbnailImageUrl: Option<string>)

  /** `OrderItem`. */
  datatype OrderItem = OrderItem(product: OrderProduct, quantity: int)

  /** The `address` record of `DeliveryInfo`. */
  datatype Address = Address(address: string, detailAddress: Option<string>, postCode: string)

  /** `DeliveryInfo`. */
  datatype DeliveryInfo = DeliveryInfo(name: string, phone: string, deliveryRequest: Option<string>,
                                       address: Address)

  /** `Order`: `orderStatus` is whatever string the server sent. */
  datatype Order = Order(id: string, orderStatus: string, deliveryInfo: DeliveryInfo, totalPrice: int,
                         orderItems: seq<OrderItem>, createdAt: string)
}

/** frontend/src/entities/order/model/orderStore.ts: the order list the
    store keeps, mirrored in `localStorage` under 'order-store-orders', its
    getters, and the actions that fetch and reset it.  The API calls, the
    auth store's answer, `JSON.stringify`/`JSON.parse` and `new
    Date(createdAt).getTime()` are parameters. */
module OrderStore {
  import opened Wrappers
  import opened Sequences
  import opened OrderTypes

  const LoginRequired := "로그인이 필요합니다."
  const CreateFailed := "주문 생성 중 오류가 발생했습니다."
  const ListFailed := "주문 목록 조회 중 오류가 발생했습니다."
  const DetailsFailed := "주문 상세 조회 중 오류가 발생했습니다."

  /** What an awaited API call gives: a value, or an error with its
      `message` ('' when it has none). */
  datatype Reply<T> = Reply(value: T) | Thrown(message: string)

  /** The store's state and the text stored under 'order-store-orders'. */
  datatype OrderState = OrderState(
    orders: seq<Order>,
    currentOrder: Option<Order>,
    loading: bool,
    error: Option<string>,
    stored: Option<string>)

  /** `error.message || fallback`. */
  function MessageOr(message: string, fallback: string): (r: string)
    ensures r != ""  <== fallback != ""
  {
    if message != "" then message else fallback
  }

  /** `getOrdersFromStorage()`: [] without a window, for a missing or empty
      text, and for a text that does not parse. */
  function OrdersFromStorage(hasWindow: bool, stored: Option<string>, parse: string -> Option<seq<Order>>): (r: seq<Order>)
    ensures !hasWindow || stored.None? || stored == Some("") ==> r == []
  {
    if !hasWindow || stored.None? || stored.value == "" then []
    else if parse(stored.value).Some? then parse(stored.value).value
    else []
  }

  /** A store opened on a page that saved its orders starts with them, as
      long as the JSON text is not empty and parses back. */
  lemma SavedOrdersRestored(orders: seq<Order>, stringify: seq<Order> -> string, parse: string -> Option<seq<Order>>)
    requires stringify(orders) != "" && parse(stringify(orders)) == Some(orders)
    ensures OrdersFromStorage(true, Some(stringify(orders)), parse) == orders
  {
  }

  /** `saveOrdersToStorage(orders)`: nothing without a window. */
  function Saved(stored: Option<string>, hasWindow: bool, orders: seq<Order>, stringify: seq<Order> -> string): Option<string>
  {
    if hasWindow then Some(stringify(orders)) else stored
  }

  /** The getter `hasOrders`. */
  predicate HasOrders(orders: seq<Order>)
  {
    |orders| > 0
  }

  function OrderId(o: Order): string
  {
    o.id
  }

  /** `findIndex(o => o.id === id)`. */
  function IndexOfOrder(orders: seq<Order>, id: string): int
  {
    FindIndex(orders, OrderId, id)
  }

  /** The getter `orderDetails(id)`: the first order with that id. */
  function OrderDetails(orders: seq<Order>, id: string): (r: Option<Order>)
    ensures r.Some? <==> exists j :: 0 <= j < |orders| && orders[j].id == id
    ensures r.Some? ==> r.value in orders && r.value.id == id
  {
    var i := IndexOfOrder(orders, id);
    if i >= 0 then Some(orders[i]) else None
  }

  /** Newest first by the time `time` gives `createdAt`. */
  predicate NewestFirst(orders: seq<Order>, time: string -> int)
  {
    forall i, j :: 0 <= i < j < |orders| ==> time(orders[i].createdAt) >= time(orders[j].createdAt)
  }

  /** Puts `order` in front of the first order that is not newer. */
  function Insert(order: Order, sorted: seq<Order>, time: string -> int): seq<Order>
  {
    if sorted == [] || time(order.createdAt) >= time(sorted[0].createdAt) then [order] + sorted
    else [sorted[0]] + Insert(order, sorted[1..], time)
  }

  /** The getter `sortedOrders`: a copy sorted newest first, orders of the
      same time kept in their list order as `Array.prototype.sort` does. */
  function SortedOrders(orders: seq<Order>, time: string -> int): seq<Order>
  {
    if orders == [] then [] else Insert(orders[0], SortedOrders(orders[1..], time), time)
  }

  lemma {:induction false} InsertSorted(order: Order, sorted: seq<Order>, time: string -> int)
    requires NewestFirst(sorted, time)
    ensures NewestFirst(Insert(order, sorted, time), time)
    ensures |Insert(order, sorted, time)| == |sorted| + 1
    ensures Insert(order, sorted, time)[0] == order || (sorted != [] && Insert(order, sorted, time)[0] == sorted[0])
  {
    if sorted != [] && time(order.createdAt) < time(sorted[0].createdAt) {
      var rest := sorted[1..];
      assert NewestFirst(rest, time) by {
        forall i, j | 0 <= i < j < |rest| ensures time(rest[i].createdAt) >= time(rest[j].createdAt) {
          assert rest[i] == sorted[i + 1] && rest[j] == sorted[j + 1];
        }
      }
      InsertSorted(order, rest, time);
      var tail := Insert(order, rest, time);
      var r := [sorted[0]] + tail;
      assert time(sorted[0].createdAt) >= time(tail[0].createdAt) by {
        if tail[0] != order {
          assert tail[0] == sorted[1];
        }
      }
      forall i, j | 0 <= i < j < |r| ensures time(r[i].createdAt) >= time(r[j].createdAt) {
        assert r[j] == tail[j - 1];
        if i > 0 {
          assert r[i] == tail[i - 1];
        } else if j > 1 {
          assert time(tail[0].createdAt) >= time(tail[j - 1].createdAt);
        }
      }
    }
  }

  lemma {:induction false} InsertPermutes(order: Order, sorted: seq<Order>, time: string -> int)
    ensures multiset(Insert(order, sorted, time)) == multiset(sorted) + multiset{order}
  {
    if sorted != [] && time(order.createdAt) < time(sorted[0].createdAt) {
      InsertPermutes(order, sorted[1..], time);
      assert sorted == [sorted[0]] + sorted[1..];
    }
  }

  /** `sortedOrders` is newest first and holds exactly the orders of the
      list, which itself is left as it was. */
  lemma SortedOrdersSorted(orders: seq<Order>, time: string -> int)
    ensures NewestFirst(SortedOrders(orders, time), time)
    ensures multiset(SortedOrders(orders, time)) == multiset(orders)
    ensures |SortedOrders(orders, time)| == |orders|
  {
    SortedOrdersNewestFirst(orders, time);
    SortedOrdersPermutes(orders, time);
  }

  lemma {:induction false} SortedOrdersNewestFirst(orders: seq<Order>, time: string -> int)
    ensures NewestFirst(SortedOrders(orders, time), time)
    ensures |SortedOrders(orders, time)| == |orders|
  {
    if orders != [] {
      var rest := orders[1..];
      SortedOrdersNewestFirst(rest, time);
      InsertSorted(orders[0], SortedOrders(rest, time), time);
    }
  }

  lemma {:induction false} SortedOrdersPermutes(orders: seq<Order>, time: string -> int)
    ensures multiset(SortedOrders(orders, time)) == multiset(orders)
  {
    if orders != [] {
      var rest := orders[1..];
      SortedOrdersPermutes(rest, time);
      InsertPermutes(orders[0], SortedOrders(rest, time), time);
      assert orders == [orders[0]] + rest;
    }
  }

  /** The orders after storing a fetched `order`: it replaces the first order
      with its id, or is appended. */
  function Upserted(orders: seq<Order>, order: Order): seq<Order>
  {
    var i := IndexOfOrder(orders, order.id);
    if i == -1 then orders + [order] else orders[i := order]
  }

  /** After the upsert `orderDetails` finds the fetched order, and the list
      grows only for a new id. */
  lemma UpsertedFinds(orders: seq<Order>, order: Order)
    ensures OrderDetails(Upserted(orders, order), order.id) == Some(order)
    ensures |Upserted(orders, order)| == |orders| + (if OrderDetails(orders, order.id).None? then 1 else 0)
  {
    var i := IndexOfOrder(orders, order.id);
    var after := Upserted(orders, order);
    if i == -1 {
      assert forall j :: 0 <= j < |orders| ==> after[j] == orders[j];
      FindIndexAt(after, OrderId, order.id, |orders|);
    } else {
      assert forall j :: 0 <= j < i ==> after[j] == orders[j];
      FindIndexAt(after, OrderId, order.id, i);
    }
  }

  /** Every other id finds what it found before the upsert. */
  lemma UpsertedKeepsOthers(orders: seq<Order>, order: Order, other: string)
    requires other != order.id
    ensures OrderDetails(Upserted(orders, order), other) == OrderDetails(orders, other)
  {
    var after := Upserted(orders, order);
    assert forall j :: 0 <= j < |after| ==> after[j] == order || (j < |orders| && after[j] == orders[j]);
    var k := IndexOfOrder(orders, other);
    if k >= 0 {
      FindIndexAt(after, OrderId, other, k);
    } else {
      FindIndexNone(after, OrderId, other);
    }
  }

  /** Storing the same order twice is storing it once. */
  lemma UpsertedIdempotent(orders: seq<Order>, order: Order)
    ensures Upserted(Upserted(orders, order), order) == Upserted(orders, order)
  {
    var i := IndexOfOrder(orders, order.id);
    var after := Upserted(orders, order);
    if i == -1 {
      assert forall j :: 0 <= j < |orders| ==> after[j] == orders[j];
      FindIndexAt(after, OrderId, order.id, |orders|);
    } else {
      assert forall j :: 0 <= j < i ==> after[j] == orders[j];
      FindIndexAt(after, OrderId, order.id, i);
    }
  }

  /** `fetchOrders(page, size)`: what it returns (the page's orders, or the
      error it rethrows) and the state after. */
  function FetchOrdersStep(st: OrderState, hasWindow: bool, authenticated: bool, reply: Reply<seq<Order>>,
                           stringify: seq<Order> -> string): (seq<Order>, OrderState, Option<string>)
  {
    if !authenticated then ([], st.(loading := false, error := Some(LoginRequired)), Some(LoginRequired))
    else match reply
      case Reply(page) =>
        (page, st.(orders := page, stored := Saved(st.stored, hasWindow, page, stringify), loading := false, error := None), None)
      case Thrown(m) => ([], st.(loading := false, error := Some(MessageOr(m, ListFailed))), Some(m))
  }

  /** Without authentication the action fails with the login message before
      touching the orders, and the catch block records that message. */
  lemma FetchOrdersNeedsLogin(st: OrderState, hasWindow: bool, reply: Reply<seq<Order>>, stringify: seq<Order> -> string)
    ensures var (_, after, thrown) := FetchOrdersStep(st, hasWindow, false, reply, stringify);
      thrown == Some(LoginRequired) && after.orders == st.orders && after.stored == st.stored
      && after.currentOrder == st.currentOrder && after.error == Some(LoginRequired) && !after.loading
  {
  }

  /** A fetched page replaces the list and is saved; a failed fetch keeps the
      list and records the error's message or the default one. */
  lemma FetchOrdersEffect(st: OrderState, hasWindow: bool, reply: Reply<seq<Order>>, stringify: seq<Order> -> string)
    ensures var (_, after, thrown) := FetchOrdersStep(st, hasWindow, true, reply, stringify);
      !after.loading
      && (reply.Reply? ==>
            thrown.None? && after.orders == reply.value && after.error.None?
            && (hasWindow ==> after.stored == Some(stringify(reply.value))))
      && (reply.Thrown? ==>
            thrown == Some(reply.message) && after.orders == st.orders
            && after.error == Some(if reply.message != "" then reply.message else ListFailed))
  {
  }

  /** `fetchOrderDetails(orderId)`: the fetched order becomes current and is
      upserted by its own id. */
  function FetchDetailsStep(st: OrderState, hasWindow: bool, authenticated: bool, reply: Reply<Order>,
                            stringify: seq<Order> -> string): (OrderState, Option<string>)
  {
    if !authenticated then (st.(loading := false, error := Some(LoginRequired)), Some(LoginRequired))
    else match reply
      case Reply(order) =>
        var orders := Upserted(st.orders, order);
        (st.(currentOrder := Some(order), orders := orders, stored := Saved(st.stored, hasWindow, orders, stringify),
             loading := false, error := None), None)
      case Thrown(m) => (st.(loading := false, error := Some(MessageOr(m, DetailsFailed))), Some(m))
  }

  /** The fetched order is current and findable by its id afterwards, other
      ids are unaffected, and a failure changes neither the list nor the
      current order. */
  lemma FetchDetailsEffect(st: OrderState, hasWindow: bool, authenticated: bool, reply: Reply<Order>,
                           stringify: seq<Order> -> string, other: string)
    ensures var (after, thrown) := FetchDetailsStep(st, hasWindow, authenticated, reply, stringify);
      !after.loading
      && (!authenticated ==>
            thrown == Some(LoginRequired) && after.orders == st.orders
            && after.currentOrder == st.currentOrder && after.error == Some(LoginRequired))
      && (authenticated && reply.Reply? ==>
            thrown.None? && after.currentOrder == Some(reply.value)
            && OrderDetails(after.orders, reply.value.id) == Some(reply.value)
            && (other != reply.value.id ==> OrderDetails(after.orders, other) == OrderDetails(st.orders, other)))
      && (authenticated && reply.Thrown? ==>
            after.orders == st.orders && after.currentOrder == st.currentOrder
            && after.error == Some(MessageOr(reply.message, DetailsFailed)))
  {
    if authenticated && reply.Reply? {
      UpsertedFinds(st.orders, reply.value);
      if other != reply.value.id {
        UpsertedKeepsOthers(st.orders, reply.value, other);
      }
    }
  }

  /** `createOrder(deliveryInfo, totalPrice)`: the order request, then a
      refetch of the list; any error is recorded with the create message as
      its fallback and rethrown. */
  function CreateOrderStep(st: OrderState, hasWindow: bool, authenticated: bool, created: Reply<()>,
                           page: Reply<seq<Order>>, stringify: seq<Order> -> string): (OrderState, Option<string>)
  {
    if created.Thrown? then (st.(loading := false, error := Some(MessageOr(created.message, CreateFailed))), Some(created.message))
    else
      var (_, fetched, thrown) := FetchOrdersStep(st.(loading := true, error := None), hasWindow, authenticated, page, stringify);
      if thrown.Some? then (fetched.(loading := false, error := Some(MessageOr(thrown.value, CreateFailed))), thrown)
      else (fetched.(loading := false), None)
  }

  /** A refetch that fails after a successful create leaves its error's
      message, or the create fallback in place of the list fallback. */
  lemma CreateOrderRefetchFails(st: OrderState, hasWindow: bool, stringify: seq<Order> -> string)
    ensures CreateOrderStep(st, hasWindow, true, Reply(()), Thrown(""), stringify).0.error == Some(CreateFailed)
    ensures CreateOrderStep(st, hasWindow, false, Reply(()), Thrown(""), stringify).0.error == Some(LoginRequired)
    ensures CreateOrderStep(st, hasWindow, true, Reply(()), Thrown(""), stringify).0.orders == st.orders
  {
  }

  /** `clearOrders()`. */
  function ClearedState(st: OrderState, hasWindow: bool): (r: OrderState)
  {
    st.(orders := [], currentOrder := None, error := None, stored := if hasWindow then None else st.stored)
  }

  /** After clearing there are no orders, and a store opened afterwards on the
      same page starts empty too. */
  lemma ClearedIsEmpty(st: OrderState, hasWindow: bool, parse: string -> Option<seq<Order>>, id: string)
    ensures !HasOrders(ClearedState(st, hasWindow).orders)
    ensures OrderDetails(ClearedState(st, hasWindow).orders, id) == None
    ensures ClearedState(st, hasWindow).loading == st.loading
    ensures OrdersFromStorage(hasWindow, ClearedState(st, hasWindow).stored, parse) == []
  {
  }

  class Store {
    /** `typeof window !== 'undefined'`. */
    const hasWindow: bool
    var orders: seq<Order>
    var currentOrder: Option<Order>
    var loading: bool
    var error: Option<string>
    /** `localStorage['order-store-orders']`. */
    var stored: Option<string>

    function State(): OrderState
      reads this
    {
      OrderState(orders, currentOrder, loading, error, stored)
    }

    /** `state: () => ({ orders: getOrdersFromStorage(), ... })`. */
    constructor(hasWindow: bool, stored: Option<string>, parse: string -> Option<seq<Order>>)
      ensures this.hasWindow == hasWindow
      ensures State() == OrderState(OrdersFromStorage(hasWindow, stored, parse), None, false, None, stored)
    {
      this.hasWindow := hasWindow;
      this.stored := stored;
      if hasWindow && stored.Some? && stored.value != "" && parse(stored.value).Some? {
        orders := parse(stored.value).value;
      } else {
        orders := [];
      }
      currentOrder, loading, error := None, false, None;
    }

    method FetchOrders(authenticated: bool, reply: Reply<seq<Order>>, stringify: seq<Order> -> string)
      returns (page: seq<Order>, thrown: Option<string>)
      modifies this
      ensures (page, State(), thrown) == FetchOrdersStep(old(State()), hasWindow, authenticated, reply, stringify)
    {
      page := [];
      if !authenticated {
        thrown := Some(LoginRequired);
        error := Some(MessageOr(LoginRequired, ListFailed));
        loading := false;
        return;
      }
      loading := true;
      error := None;
      match reply {
        case Reply(p) =>
          orders := p;
          if hasWindow {
            stored := Some(stringify(orders));
          }
          page, thrown := p, None;
        case Thrown(m) =>
          error := Some(MessageOr(m, ListFailed));
          thrown := Some(m);
      }
      loading := false;
    }

    method FetchOrderDetails(authenticated: bool, reply: Reply<Order>, stringify: seq<Order> -> string)
      returns (thrown: Option<string>)
      modifies this
      ensures (State(), thrown) == FetchDetailsStep(old(State()), hasWindow, authenticated, reply, stringify)
    {
      if !authenticated {
        thrown := Some(LoginRequired);
        error := Some(MessageOr(LoginRequired, DetailsFailed));
        loading := false;
        return;
      }
      loading := true;
      error := None;
      match reply {
        case Reply(order) =>
          currentOrder := Some(order);
          var i := IndexOfOrder(orders, order.id);
          if i == -1 {
            orders := orders + [order];
          } else {
            orders := orders[i := order];
          }
          if hasWindow {
            stored := Some(stringify(orders));
          }
          thrown := None;
        case Thrown(m) =>
          error := Some(MessageOr(m, DetailsFailed));
          thrown := Some(m);
      }
      loading := false;
    }

    method CreateOrder(authenticated: bool, created: Reply<()>, page: Reply<seq<Order>>, stringify: seq<Order> -> string)
      returns (thrown: Option<string>)
      modifies this
      ensures (State(), thrown) == CreateOrderStep(old(State()), hasWindow, authenticated, created, page, stringify)
    {
      loading := true;
      error := None;
      if created.Thrown? {
        error := Some(MessageOr(created.message, CreateFailed));
        thrown := Some(created.message);
      } else {
        var _, fetchThrown := FetchOrders(authenticated, page, stringify);
        thrown := fetchThrown;
        if thrown.Some? {
          error := Some(MessageOr(thrown.value, CreateFailed));
        }
      }
      loading := false;
    }

    method ClearOrders()
      modifies this
      ensures State() == ClearedState(old(State()), hasWindow)
    {
      orders := [];
      currentOrder := None;
      error := None;
      if hasWindow {
        stored := None;
      }
    }
  }
}

# Portfolio shop: a verified model of the domain layer and the browser helpers

This project models, in Dafny, the core of a small shop: a Spring backend and a Vue frontend.

On the backend side it covers the domain layer and the helpers around it:

- **Money.** `Money` is a non-negative `BigDecimal`. It adds, subtracts, multiplies with `HALF_UP` rounding to two decimals, and compares numerically, while `equals` stays scale-sensitive (module `Money`).
- **Aggregate roots and events.** Entities collect domain events, and the event publisher drains them (`DomainEvents`).
- **Products and stock.** Products validate their fields, move between active, sold out and deleted, and compute their discount rate. Their stock registers a change event for every increase, decrease and adjustment (`Products`).
- **The stock manager.** It refunds, sells and adjusts stock, keeping a product's status in step with its stock. It also clears the stock of deleted products (`StockManagement`).
- **Orders.** Order lines snapshot the product they sell. An order is accepted only when its total `equals` the sum of its lines, and its status machine runs from waiting for the stock reduction to payment, ordered, cancelled or failed (`Orders`).
- **Addresses and delivery details** (`Addresses`, `Orders`).
- **Users and their credit.** A credit balance is charged and debited (`Users`).
- **Carts.** A cart holds one line per product (`Carts`).
- **Introductions and external links** (`Introductions`).
- **The order service mapper.** It turns a cart and a request into an order, and an order into its response (`OrderServiceMapping`).
- **The two exception advices** and the bad-request body that groups field errors (`ExceptionHandling`).
- **The optimistic-lock retry loop** with its doubling back-off (`Retry`).
- **The S3 helper's key and URL arithmetic** (`S3Storage`).

On the frontend side it covers the browser helpers and the stores:

- **Four token-storage helpers.** Each keeps the token in cookies, `localStorage` and `sessionStorage` in its own way (`AuthUtils`, `AuthPersistence`, `AuthStorage`, `AuthCookies`), over one model of the browser's storages (`Browser`).
- **The cookie helpers** (`CookieHelpers`).
- **Date and price formatting** and the empty-value filters (`Utils`).
- **The cart, order and product stores**, with their getters and actions (`CartStore`, `OrderStore`, `ProductStore`).
- **The route guard** (`Router`).
- **The API and form mappers** (`OrderApiMappers`, `ProductApiMappers`, `CartApiMappers`, `ProductFormMappers`).
- **The enum tables with their descriptions** (`EnumTables`, `ProductConstants`, `ProductTypes`, `OrderTypes`).

How the model is shaped:

- Entities that the source changes in place are classes whose methods state the new state. Where the source builds values, the model uses datatypes and functions.
- A constructor that throws is a static method returning a `Result`, with the exception kind and message.
- Every check that decides such a result is a function of its own, with the lemmas about it.
- Each store or storage action is a method tied to a step function of the old state; what the action promises is proved about that function.
- `Text` holds the string operations the source borrows from Java and JavaScript (`indexOf`, `split`, `trim`, `replace`, number printing).
- `Sequences` holds the `findIndex` by key that the three stores share.
- `Wrappers` holds `Option`, `Result` and the exception kinds.

## Model

| member | source | states |
|---|---|---|
| Money.New | backend/src/main/java/com/portfolio/backend/domain/common/value/Money.java:14-19 | an absent amount is a null pointer error, a negative one is refused with the fixed message, and any other amount is kept as given, scale included |
| Money.Zero | backend/src/main/java/com/portfolio/backend/domain/common/value/Money.java:14-19 | zero has scale 0 and the value 0 |
| Money.IsZero | backend/src/main/java/com/portfolio/backend/domain/common/value/Money.java:26-28 | true exactly when the unscaled amount is 0, whatever the scale |
| Money.CompareAtScale | backend/src/main/java/com/portfolio/backend/domain/common/value/Money.java:30-36 | `compareTo` orders two amounts as their integers at any common scale do |
| Money.ComparisonsAgree | backend/src/main/java/com/portfolio/backend/domain/common/value/Money.java:30-36 | `isLessThanOrEqual` is `isLessThan` or equal in value, `isLessThan` is the negation of the reverse `isLessThanOrEqual`, and equality in value is symmetric |
| Money.Add | backend/src/main/java/com/portfolio/backend/domain/common/value/Money.java:38-40 | the sum has the larger of the two scales |
| Money.AddExact | backend/src/main/java/com/portfolio/backend/domain/common/value/Money.java:38-40 | at any scale covering both, the sum's integer is the sum of the two integers |
| Money.AddSameValue | backend/src/main/java/com/portfolio/backend/domain/common/value/Money.java:38-40 | adding to amounts of the same value gives sums of the same value |
| Money.Subtract | backend/src/main/java/com/portfolio/backend/domain/common/value/Money.java:42-44 | succeeds exactly when the first amount is not below the second, with the larger scale; otherwise the negative-amount error |
| Money.SubtractAfterAdd | backend/src/main/java/com/portfolio/backend/domain/common/value/Money.java:38-44 | subtracting what was added always succeeds and gives back the original value |
| Money.AddAfterSubtract | backend/src/main/java/com/portfolio/backend/domain/common/value/Money.java:38-44 | adding back what was subtracted gives back the original value |
| Money.DivHalfUp | backend/src/main/java/com/portfolio/backend/domain/common/value/Money.java:46-48 | the quotient keeps the sign of the dividend, lies within half a divisor of the exact quotient, and a tie rounds away from zero (HALF_UP) |
| Money.HalfUpMagnitude | backend/src/main/java/com/portfolio/backend/domain/common/value/Money.java:46-48 | the half-up quotient of a non-negative number: nearest, ties upward |
| Money.SetScale2HalfUp | backend/src/main/java/com/portfolio/backend/domain/common/value/Money.java:46-48 | the result has scale 2, is exact for amounts with at most two decimals, and keeps a non-negative amount non-negative |
| Money.SetScaleKeepsValue | backend/src/main/java/com/portfolio/backend/domain/common/value/Money.java:46-48 | rescaling an amount with at most two decimals keeps its value |
| Money.Multiply | backend/src/main/java/com/portfolio/backend/domain/common/value/Money.java:46-48 | a product always has scale 2, and a non-negative multiplier never fails |
| Money.MultiplyIntExact | backend/src/main/java/com/portfolio/backend/domain/common/value/Money.java:50-52 | with at most two decimals, multiplying by a count succeeds with scale 2 and is exact |
| Money.EqualsIsScaleSensitive | backend/src/main/java/com/portfolio/backend/domain/common/value/Money.java:54-59 | 1000 and 1000.00 have the same value, yet `equals` tells them apart |
| Money.NegativeMultiplier | backend/src/main/java/com/portfolio/backend/domain/common/value/Money.java:46-48 | a negative multiplier is refused, unless the product rounds to zero at two decimals |
| Money.DivideFloor | backend/src/main/java/com/portfolio/backend/domain/product/entity/Product.java:155 | `divide(…, 0, RoundingMode.FLOOR)` by a positive divisor: the floor of the exact quotient |
| DomainEvents.AggregateRoot.constructor | backend/src/main/java/com/portfolio/backend/domain/common/entity/AggregateRoot.java:14-15 | a new aggregate holds no events |
| DomainEvents.AggregateRoot.RegisterEvent | backend/src/main/java/com/portfolio/backend/domain/common/entity/AggregateRoot.java:17-19 | the event is appended to the pending list |
| DomainEvents.AggregateRoot.ClearDomainEvents | backend/src/main/java/com/portfolio/backend/domain/common/entity/AggregateRoot.java:25-27 | the pending list becomes empty |
| DomainEvents.EventPublisher.PublishDomainEventsFrom | backend/src/main/java/com/portfolio/backend/common/event/EventPublisher.java:17-26 | every pending event is published in order, then the aggregate's list is cleared |
| Products.StockArgumentsCheck | backend/src/main/java/com/portfolio/backend/domain/product/entity/ProductStock.java:45-51 | passes exactly for a given product and a present, non-negative quantity; the product is checked first |
| Products.ProductStock.Create | backend/src/main/java/com/portfolio/backend/domain/product/entity/ProductStock.java:45-54 | the stock is created exactly when the argument check passes, with the given product and quantity and no events |
| Products.ProductStock.Increase | backend/src/main/java/com/portfolio/backend/domain/product/entity/ProductStock.java:60-69 | a negative amount is refused with the amount in the message; otherwise the quantity grows by it and one change event is registered |
| Products.ProductStock.Decrease | backend/src/main/java/com/portfolio/backend/domain/product/entity/ProductStock.java:71-80 | more than the quantity is refused as insufficient stock; otherwise the quantity shrinks by the amount and one change event is registered |
| Products.ProductStock.Adjust | backend/src/main/java/com/portfolio/backend/domain/product/entity/ProductStock.java:82-91 | a negative target is refused; otherwise the quantity becomes the target and the event records the difference |
| Products.EventRecordsNewQuantity | backend/src/main/java/com/portfolio/backend/domain/product/entity/ProductStockHistory.java:41-48 | the history written from a change event records the quantity after an increase, a decrease and an adjustment |
| Products.Product.Create | backend/src/main/java/com/portfolio/backend/domain/product/entity/Product.java:66-92 | a missing or negative stock is refused first, then product validation decides; on success a new product with a fresh stock of that quantity, active when it is positive and sold out at 0, that has registered the initial adjustment event |
| Products.Validation | backend/src/main/java/com/portfolio/backend/domain/product/entity/Product.java:94-110 | one error per missing or inconsistent field, in the source's order (name, original price, price, price not above the original, category), and passes otherwise |
| Products.Product.Update | backend/src/main/java/com/portfolio/backend/domain/product/entity/Product.java:112-122 | the fields are assigned before validation, so a refused update still changes them; status and stock are kept |
| Products.Product.IsAvailable | backend/src/main/java/com/portfolio/backend/domain/product/entity/Product.java:128-130 | available exactly when active and the stock quantity is positive |
| Products.Product.Active | backend/src/main/java/com/portfolio/backend/domain/product/entity/Product.java:132-137 | a deleted product is refused and stays deleted; any other becomes active |
| Products.Product.SoldOut | backend/src/main/java/com/portfolio/backend/domain/product/entity/Product.java:139-144 | a deleted product is refused and stays deleted; any other becomes sold out |
| Products.Product.Delete | backend/src/main/java/com/portfolio/backend/domain/product/entity/Product.java:146-148 | the product becomes deleted |
| Products.DiscountRate | backend/src/main/java/com/portfolio/backend/domain/product/entity/Product.java:150-157 | an absent original price is a null pointer error, a zero one gives 0, an absent price is a null pointer error, otherwise the truncated percentage of the difference |
| Products.DiscountRateExact | backend/src/main/java/com/portfolio/backend/domain/product/entity/Product.java:150-157 | for prices with at most two decimals and a price not above the original, the rate is a percentage between 0 and 100 that is the floor of the exact one |
| Products.HundredfoldDifference | backend/src/main/java/com/portfolio/backend/domain/product/entity/Product.java:153-154 | the `subtract(…).multiply(100)` step is exactly one hundred times the difference |
| Products.DiscountRateAboveHundred | backend/src/main/java/com/portfolio/backend/domain/product/entity/Product.java:150-157 | an original price with more than two decimals is rounded first, so the rate can exceed 100 |
| StockManagement.RefundSpec | backend/src/main/java/com/portfolio/backend/domain/product/service/ProductStockManager.java:26-38 | a negative quantity is refused; otherwise the stock grows and a sold-out product becomes active |
| StockManagement.SaleSpec | backend/src/main/java/com/portfolio/backend/domain/product/service/ProductStockManager.java:40-56 | a deleted product is refused, more than the stock is refused as insufficient; otherwise the stock shrinks and reaching 0 marks an active product sold out |
| StockManagement.AdjustSpec | backend/src/main/java/com/portfolio/backend/domain/product/service/ProductStockManager.java:64-84 | a deleted product or a negative target is refused; otherwise the stock becomes the target, and the status is `ACTIVE` for a positive target and `SOLD_OUT` for zero |
| StockManagement.DeletedSpec | backend/src/main/java/com/portfolio/backend/domain/product/service/ProductStockManager.java:86-98 | only a deleted product may have its stock cleared, and it ends at 0 and deleted |
| StockManagement.Apply | backend/src/main/java/com/portfolio/backend/domain/product/service/ProductStockManager.java:100-103 | a product without stock is refused with the fixed message; otherwise only that product's view changes, to the step's result |
| StockManagement.SaleAllSpec | backend/src/main/java/com/portfolio/backend/domain/product/service/ProductStockManager.java:58-62 | selling a list of lines keeps the set of products |
| StockManagement.SaleAllSpecSnoc | backend/src/main/java/com/portfolio/backend/domain/product/service/ProductStockManager.java:58-62 | after a run of successful sales, one more line is one more sale step |
| StockManagement.SaleAllSpecStops | backend/src/main/java/com/portfolio/backend/domain/product/service/ProductStockManager.java:58-62 | once a line fails, later lines change nothing |
| StockManagement.RefundKeepsConsistent | backend/src/main/java/com/portfolio/backend/domain/product/service/ProductStockManager.java:26-38 | a refund keeps status and stock consistent (sold out exactly at 0, for a product on sale) |
| StockManagement.SaleKeepsConsistent | backend/src/main/java/com/portfolio/backend/domain/product/service/ProductStockManager.java:40-56 | a sale keeps status and stock consistent, and selling the last unit of an active product marks it sold out |
| StockManagement.NegativeSaleBreaksConsistency | backend/src/main/java/com/portfolio/backend/domain/product/service/ProductStockManager.java:49-53 | a negative sale of a sold-out product raises its stock and leaves it sold out |
| StockManagement.DeletedKeepsConsistent | backend/src/main/java/com/portfolio/backend/domain/product/service/ProductStockManager.java:86-98 | clearing a deleted product's stock keeps it consistent |
| StockManagement.RefundUndoesSale | backend/src/main/java/com/portfolio/backend/domain/product/service/ProductStockManager.java:26-56 | refunding what was just sold restores the stock and the status |
| StockManagement.SaleAllKeepsConsistent | backend/src/main/java/com/portfolio/backend/domain/product/service/ProductStockManager.java:58-62 | selling a list of non-negative lines keeps every product consistent, whatever line fails |
| StockManagement.RefundRow | backend/src/main/java/com/portfolio/backend/domain/product/service/ProductStockManager.java:26-38 | one product's refund on its entities follows `RefundSpec` |
| StockManagement.SellRow | backend/src/main/java/com/portfolio/backend/domain/product/service/ProductStockManager.java:40-56 | one product's sale on its entities follows `SaleSpec` |
| StockManagement.AdjustRow | backend/src/main/java/com/portfolio/backend/domain/product/service/ProductStockManager.java:64-84 | one product's adjustment on its entities follows `AdjustSpec` |
| StockManagement.ProductStockManager.GetLockedByProductId | backend/src/main/java/com/portfolio/backend/domain/product/service/ProductStockManager.java:100-103 | the stored stock of the product, or the stock-missing error |
| StockManagement.ProductStockManager.Refund | backend/src/main/java/com/portfolio/backend/domain/product/service/ProductStockManager.java:26-38 | the stock view afterwards is `Apply` of `RefundSpec`; the changed stock's events are published on success, nothing on failure |
| StockManagement.ProductStockManager.Sale | backend/src/main/java/com/portfolio/backend/domain/product/service/ProductStockManager.java:40-56 | the stock view afterwards is `Apply` of `SaleSpec`; the events are published on success, nothing on failure |
| StockManagement.ProductStockManager.SaleAll | backend/src/main/java/com/portfolio/backend/domain/product/service/ProductStockManager.java:58-62 | outcome and stock views are those of `SaleAllSpec` |
| StockManagement.ProductStockManager.Adjust | backend/src/main/java/com/portfolio/backend/domain/product/service/ProductStockManager.java:64-84 | the stock view afterwards is `Apply` of `AdjustSpec`; the events are published on success, nothing on failure |
| StockManagement.ProductStockManager.Deleted | backend/src/main/java/com/portfolio/backend/domain/product/service/ProductStockManager.java:86-98 | the stock view afterwards is `Apply` of `DeletedSpec`; the events are published on success, nothing on failure |
| Orders.Snapshot | backend/src/main/java/com/portfolio/backend/domain/order/value/OrderProduct.java:38-48 | a missing product is refused; otherwise the snapshot copies identity, name, both prices and the thumbnail URL |
| Orders.NewOrderItem | backend/src/main/java/com/portfolio/backend/domain/order/value/OrderItem.java:24-34 | a missing product, then a missing or negative quantity, is refused; otherwise the line holds the quantity and the whole `Snapshot` of the product: identity, name, both prices and thumbnail |
| Orders.TotalPrice | backend/src/main/java/com/portfolio/backend/domain/order/value/OrderItem.java:36-38 | a line whose snapshot has no price is a null pointer error; otherwise the line total has scale 2 |
| Orders.TotalPriceExact | backend/src/main/java/com/portfolio/backend/domain/order/value/OrderItem.java:36-38 | with a price of at most two decimals the line total is exactly price × quantity |
| Orders.FoldTotals | backend/src/main/java/com/portfolio/backend/domain/order/entity/Order.java:86-88 | the fold succeeds exactly when every line has a price, and the sum has scale 2 for a non-empty order |
| Orders.FoldTotalsExact | backend/src/main/java/com/portfolio/backend/domain/order/entity/Order.java:86-88 | the fold adds exactly the reference sum of price × quantity |
| Orders.ItemsTotalExact | backend/src/main/java/com/portfolio/backend/domain/order/entity/Order.java:86-88 | the item total of priced lines, in hundredths, is the sum of price × quantity |
| Orders.NewDeliveryInfo | backend/src/main/java/com/portfolio/backend/domain/order/value/DeliveryInfo.java:31-45 | name, phone and address are checked in that order, each with its own message; the delivery request is free |
| Orders.OrderValidation | backend/src/main/java/com/portfolio/backend/domain/order/entity/Order.java:72-93 | passes exactly for an order with a user, a total, lines, delivery details and a total `equals` the item total; otherwise the first failing check's error |
| Orders.AcceptedTotal | backend/src/main/java/com/portfolio/backend/domain/order/entity/Order.java:72-93 | an accepted total has exactly two decimals and equals the reference sum of the lines |
| Orders.OtherScaleRefused | backend/src/main/java/com/portfolio/backend/domain/order/entity/Order.java:72-93 | a total of the same value written with another scale is refused as a mismatch |
| Orders.Transition | backend/src/main/java/com/portfolio/backend/domain/order/entity/Order.java:95-121 | a command the current status does not allow is refused with the invalid-status error |
| Orders.TransitionEdges | backend/src/main/java/com/portfolio/backend/domain/order/entity/Order.java:95-121 | every status change enters the new status from one of its allowed sources, and from ordered only cancelling succeeds |
| Orders.CancelledCanFail | backend/src/main/java/com/portfolio/backend/domain/order/entity/Order.java:109-114 | `markFailed` also accepts a cancelled order |
| Orders.Trace | backend/src/main/java/com/portfolio/backend/domain/order/entity/Order.java:95-121 | the statuses an order passes through under a list of commands start at its status |
| Orders.EnteredAlongEdges | backend/src/main/java/com/portfolio/backend/domain/order/entity/Order.java:95-121 | every status in a trace is reached along an edge of the machine |
| Orders.CancelledOnlyAfterOrdered | backend/src/main/java/com/portfolio/backend/domain/order/entity/Order.java:116-121 | from a new order, cancelled is reached only after ordered, ordered only after waiting for payment, and waiting for stock is never re-entered |
| Orders.NeverReentered | backend/src/main/java/com/portfolio/backend/domain/order/entity/Order.java:95-121 | a trace never returns to waiting for the stock reduction |
| Orders.Order.Create | backend/src/main/java/com/portfolio/backend/domain/order/entity/Order.java:58-70 | the order exists exactly when validation passes, and then waits for its stock reduction with the given fields |
| Orders.Order.Apply | backend/src/main/java/com/portfolio/backend/domain/order/entity/Order.java:95-121 | a command moves the status as `Transition` says, and a refused one leaves it |
| Orders.Order.CompleteStockReduction | backend/src/main/java/com/portfolio/backend/domain/order/entity/Order.java:95-100 | only from waiting for stock: the order then waits for payment |
| Orders.Order.CompletePayment | backend/src/main/java/com/portfolio/backend/domain/order/entity/Order.java:102-107 | only from waiting for payment: the order is then ordered |
| Orders.Order.MarkFailed | backend/src/main/java/com/portfolio/backend/domain/order/entity/Order.java:109-114 | from waiting for stock, waiting for payment or cancelled: the order fails |
| Orders.Order.CancelOrder | backend/src/main/java/com/portfolio/backend/domain/order/entity/Order.java:116-121 | only from ordered: the order is cancelled |
| Addresses.NewAddress | backend/src/main/java/com/portfolio/backend/domain/common/value/Address.java:23-34 | a blank address, then a blank post code, is refused with its message; otherwise all three parts are kept |
| Addresses.DetailAddressIsFree | backend/src/main/java/com/portfolio/backend/domain/common/value/Address.java:23-34 | the detail address never decides whether the address is accepted |
| Users.UserValidation | backend/src/main/java/com/portfolio/backend/domain/user/entity/User.java:69-79 | passes exactly for a provider, a non-blank provider id and a role; otherwise the first failing check's error |
| Users.User.Create | backend/src/main/java/com/portfolio/backend/domain/user/entity/User.java:48-62 | the user exists exactly when validation passes, with the given fields and a user-created event |
| Users.User.UpdateProfile | backend/src/main/java/com/portfolio/backend/domain/user/entity/User.java:64-67 | nickname and profile image are replaced; nothing else changes |
| Users.UserCredit.constructor | backend/src/main/java/com/portfolio/backend/domain/user/entity/UserCredit.java:49-52 | a new credit starts at zero for its user, with no events |
| Users.Charge | backend/src/main/java/com/portfolio/backend/domain/user/entity/UserCredit.java:54-68 | a zero charge is refused; any other charge makes the balance exactly `Money.Add(balance, amount)`, which is above it |
| Users.Deduct | backend/src/main/java/com/portfolio/backend/domain/user/entity/UserCredit.java:70-88 | a zero debit is refused, then a debit above the balance; otherwise the balance becomes exactly `Money.Subtract(balance, amount)`, which is below it |
| Users.DeductUndoesCharge | backend/src/main/java/com/portfolio/backend/domain/user/entity/UserCredit.java:54-88 | deducting what was just charged succeeds and restores the balance's value |
| Users.UserCredit.Add | backend/src/main/java/com/portfolio/backend/domain/user/entity/UserCredit.java:54-68 | the balance becomes `Charge`'s result and one change event is registered; a refused charge changes nothing |
| Users.UserCredit.Subtract | backend/src/main/java/com/portfolio/backend/domain/user/entity/UserCredit.java:70-88 | the balance becomes `Deduct`'s result and one change event is registered; a refused debit changes nothing |
| Carts.NewCartItem | backend/src/main/java/com/portfolio/backend/domain/cart/entity/ProductCartItem.java:25-30 | a missing product, then a negative quantity, is refused; otherwise the line holds both |
| Carts.NewCartItemFor | backend/src/main/java/com/portfolio/backend/domain/cart/entity/ProductCartItem.java:32-37 | the one-argument constructor starts the line at quantity 0 |
| Carts.ItemEqualsIgnoresQuantity | backend/src/main/java/com/portfolio/backend/domain/cart/entity/ProductCartItem.java:48-58 | line equality is an equivalence that looks only at the product |
| Carts.UncheckedAcceptsAll | backend/src/main/java/com/portfolio/backend/domain/cart/domain/ProductCartItem.java:24-39 | the other `ProductCartItem` keeps any quantity, even one the checked line refuses, and compares lines by hash code |
| Carts.FirstIndex | backend/src/main/java/com/portfolio/backend/domain/cart/entity/ProductCart.java:45-48 | the index of the first line of the product, or the length when there is none |
| Carts.RemoveFirst | backend/src/main/java/com/portfolio/backend/domain/cart/entity/ProductCart.java:45-48 | removing leaves the lines unchanged when the product is absent, and one line shorter otherwise |
| Carts.RemoveAtDistinct | backend/src/main/java/com/portfolio/backend/domain/cart/entity/ProductCart.java:45-48 | removing one line of a cart with one line per product leaves one line per product, without that product |
| Carts.AddedKeepsDistinct | backend/src/main/java/com/portfolio/backend/domain/cart/entity/ProductCart.java:39-43 | adding keeps one line per product, the set of products grows by the new one |
| Carts.RemovedKeepsDistinct | backend/src/main/java/com/portfolio/backend/domain/cart/entity/ProductCart.java:45-48 | removing keeps one line per product and takes exactly that product out |
| Carts.ProductCart.constructor | backend/src/main/java/com/portfolio/backend/domain/cart/entity/ProductCart.java:31-33 | a new cart is empty and belongs to its user |
| Carts.ProductCart.AddItem | backend/src/main/java/com/portfolio/backend/domain/cart/entity/ProductCart.java:39-43 | the line is built by `NewCartItem`; a refused one changes nothing, an accepted one is added or merged, keeping one line per product |
| Carts.ProductCart.RemoveItem | backend/src/main/java/com/portfolio/backend/domain/cart/entity/ProductCart.java:45-48 | a missing product is refused; otherwise the first line of the product is removed |
| Carts.ProductCart.RemoveAllItem | backend/src/main/java/com/portfolio/backend/domain/cart/entity/ProductCart.java:50-52 | the cart becomes empty |
| Introductions.NewExternalLink | backend/src/main/java/com/portfolio/backend/domain/dashboard/value/ExternalLink.java:20-31 | a blank name, then a blank URL, is refused; otherwise the link keeps all three parts |
| Introductions.LogoIsOptional | backend/src/main/java/com/portfolio/backend/domain/dashboard/value/ExternalLink.java:20-31 | the logo never decides whether a link is accepted |
| Introductions.IntroductionValidation | backend/src/main/java/com/portfolio/backend/domain/introduction/entity/Introduction.java:87-94 | a blank title, then blank content, is refused with its message |
| Introductions.Introduction.Create | backend/src/main/java/com/portfolio/backend/domain/introduction/entity/Introduction.java:52-68 | the creator, then the time, then the links are required, then validation; on success the given fields and no update |
| Introductions.Introduction.Update | backend/src/main/java/com/portfolio/backend/domain/introduction/entity/Introduction.java:70-85 | a missing updater, then a missing update time, is refused and changes nothing; otherwise the fields are assigned before validation, absent links as an empty list with a null pointer error |
| OrderServiceMapping.ToOrderItems | backend/src/main/java/com/portfolio/backend/service/order/dto/OrderServiceMapper.java:38-39 | one order line per cart line, built by `NewOrderItem` from the same product and quantity |
| OrderServiceMapping.DeliveryOf | backend/src/main/java/com/portfolio/backend/service/order/dto/OrderServiceMapper.java:41-50 | a missing delivery part or address is a null pointer error; otherwise the address, then the delivery details, are checked |
| OrderServiceMapping.CreateOrder | backend/src/main/java/com/portfolio/backend/service/order/dto/OrderServiceMapper.java:28-58 | an unknown user, then an empty cart, then bad delivery details are refused; otherwise the order is `Order`'s creation from the cart's lines and the request's total |
| OrderServiceMapping.ResponseLinesRoundTrip | backend/src/main/java/com/portfolio/backend/service/order/dto/OrderServiceMapper.java:77-89 | the response lines describe the order lines exactly |
| OrderServiceMapping.ResponseTotalMatchesLines | backend/src/main/java/com/portfolio/backend/service/order/dto/OrderServiceMapper.java:61-98 | the response of an accepted order states a two-decimal total equal to the item total of the lines it lists |
| OrderServiceMapping.ToGet | backend/src/main/java/com/portfolio/backend/service/order/dto/OrderServiceMapper.java:61-98 | the response keeps the order's id, status, total, creation time and address, and lists one line per order line with its product and quantity |
| OrderServiceMapping.LinesOf | backend/src/main/java/com/portfolio/backend/service/order/dto/OrderServiceMapper.java:77-89 | reading the response lines back gives one order line per response line, with its product and quantity; the inverse used by `ResponseLinesRoundTrip` |
| ExceptionHandling.MessagesOf | backend/src/main/java/com/portfolio/backend/common/exception/handler/BadRequestErrorResponse.java:17-32 | the messages of one field, empty exactly when no error names it |
| ExceptionHandling.FieldsInOrder | backend/src/main/java/com/portfolio/backend/common/exception/handler/BadRequestErrorResponse.java:17-32 | each field with an error once, and no other |
| ExceptionHandling.GroupFieldErrors | backend/src/main/java/com/portfolio/backend/common/exception/handler/BadRequestErrorResponse.java:17-32 | one entry per field, in first-seen order, holding that field's messages |
| ExceptionHandling.CountForAll | backend/src/main/java/com/portfolio/backend/common/exception/handler/BadRequestErrorResponse.java:17-32 | counting errors over fields that cover them counts them all |
| ExceptionHandling.GroupingKeepsEveryMessage | backend/src/main/java/com/portfolio/backend/common/exception/handler/BadRequestErrorResponse.java:17-32 | a grouping holds as many messages as there were field errors |
| ExceptionHandling.GroupingHasOneEntryPerField | backend/src/main/java/com/portfolio/backend/common/exception/handler/BadRequestErrorResponse.java:17-32 | the grouping's entries are exactly the fields with errors |
| ExceptionHandling.NewBadRequestBody | backend/src/main/java/com/portfolio/backend/common/exception/handler/BadRequestErrorResponse.java:17-32 | the body keeps status, message and details, and groups every field error |
| ExceptionHandling.BadRequestBodyOf | backend/src/main/java/com/portfolio/backend/common/exception/handler/BadRequestErrorResponse.java:34-37 | the body built from ready entries keeps them as given |
| ExceptionHandling.AdviceResponse | backend/src/main/java/com/portfolio/backend/common/exception/handler/GlobalExceptionHandler.java:23-96 | the handlers answer exactly the exceptions they name, with the message and description given |
| ExceptionHandling.AdviceStatuses | backend/src/main/java/com/portfolio/backend/common/exception/handler/GlobalExceptionHandler.java:23-96 | validation and binding errors answer HTTP 400 and a domain error HTTP 500, all three with 404 in the body; a missing resource answers 404, an unprocessable entity 422, an oversized upload 413 and a file-storage error 500, with the body's status equal to the HTTP one |
| ExceptionHandling.GlobalResponse | backend/src/main/java/com/portfolio/backend/common/exception/GlobalExceptionHandler.java:22-52 | the other advice answers 404 for a missing resource and 500 otherwise, the body's status equal to the HTTP one |
| Retry.BackoffMillis | backend/src/main/java/com/portfolio/backend/common/util/RetryUtils.java:36 | `50 * (1 << attempts)` in Java `int`: the shift takes the distance modulo 32 and both operations wrap; its values are stated by `BackoffDoubles`, `ExactBackoff` and `BackoffNegativeAt26` |
| Retry.BackoffDoubles | backend/src/main/java/com/portfolio/backend/common/util/RetryUtils.java:36 | up to retry 25 the wait is 50 ms × 2^attempt and doubles from one retry to the next |
| Retry.ExactBackoff | backend/src/main/java/com/portfolio/backend/common/util/RetryUtils.java:36 | for attempts up to 25 the wrapped shift and product equal 50 × 2^attempt |
| Retry.BackoffNegativeAt26 | backend/src/main/java/com/portfolio/backend/common/util/RetryUtils.java:36 | the wait before retry 26 wraps to -939524096 ms |
| Retry.IntendedBackoff | backend/src/main/java/com/portfolio/backend/common/util/RetryUtils.java:35-36 | the wait the comment on line 35 describes, 50 × 2^attempt without wrapping, is never below 50 ms |
| Retry.RetryLoop | backend/src/main/java/com/portfolio/backend/common/util/RetryUtils.java:22-45 | the loop with the wait before each retry as a parameter: a success or another exception ends it at once, a lock failure is rethrown once `maxRetry` tries failed, a negative wait throws `IllegalArgumentException`, an interrupted wait throws the interruption error; its runs are stated by the lemmas below |
| Retry.RetrySpec | backend/src/main/java/com/portfolio/backend/common/util/RetryUtils.java:22-45 | the loop as written, with the waits of `BackoffMillis`; its runs are stated by `GivesUpWithin26`, `ThrowsAtTry26` and `OtherFailuresAndNoTries` |
| Retry.IntendedRetrySpec | backend/src/main/java/com/portfolio/backend/common/util/RetryUtils.java:22-45 | the loop with the intended waits of `IntendedBackoff`; stated by `IntendedGivesUp` |
| Retry.ExecuteWithRetry | backend/src/main/java/com/portfolio/backend/common/util/RetryUtils.java:22-45 | result, number of calls and sleeps are those of `RetrySpec`, including the `IllegalArgumentException` thrown by `Thread.sleep` when the wait is negative |
| Retry.FirstSuccessReturned | backend/src/main/java/com/portfolio/backend/common/util/RetryUtils.java:22-45 | for any wait rule, after lock failures only and with every wait before it allowed, the first success is returned after k + 1 calls, having slept the waits before retries 1 … k |
| Retry.GivesUpAfterMaxRetry | backend/src/main/java/com/portfolio/backend/common/util/RetryUtils.java:22-45 | for any wait rule whose waits are all allowed, lock failures on every try end with the failure rethrown after exactly `maxRetry` calls |
| Retry.NegativeWaitThrows | backend/src/main/java/com/portfolio/backend/common/util/RetryUtils.java:27-40 | the first negative wait ends the run with `IllegalArgumentException` right after the try it follows, the earlier waits having been slept |
| Retry.GivesUpWithin26 | backend/src/main/java/com/portfolio/backend/common/util/RetryUtils.java:22-45 | as written, for `maxRetry` from 1 to 26, lock failures on every try end with the failure rethrown after exactly `maxRetry` calls |
| Retry.ThrowsAtTry26 | backend/src/main/java/com/portfolio/backend/common/util/RetryUtils.java:22-45 | as written, for `maxRetry` of 27 or more, 26 lock failures in a row end with `IllegalArgumentException` after 26 calls, before `maxRetry` is reached, having slept the 25 waits of 50 × 2^k ms before retries 1 … 25 |
| Retry.IntendedGivesUp | backend/src/main/java/com/portfolio/backend/common/util/RetryUtils.java:22-45 | with the intended waits, lock failures on every try end with the failure rethrown after exactly `maxRetry` calls, for every `maxRetry` of at least 1 |
| Retry.OtherFailuresAndNoTries | backend/src/main/java/com/portfolio/backend/common/util/RetryUtils.java:22-45 | no attempts gives the unexpected error, and another failure is returned at once |
| Retry.UnexpectedOnlyWithoutTries | backend/src/main/java/com/portfolio/backend/common/util/RetryUtils.java:22-45 | for any wait rule, the unexpected error (when the operation never throws it itself) comes only from a run that allowed no try |
| Retry.InvocationsBounded | backend/src/main/java/com/portfolio/backend/common/util/RetryUtils.java:22-45 | for any wait rule, the waits slept are the waits before retries 1, 2, … in that order, none of them negative, never more waits than calls, and the operation is called at most `maxRetry` times |
| Retry.ExecuteWithDefaultRetry | backend/src/main/java/com/portfolio/backend/common/util/RetryUtils.java:55-57 | the run of `RetrySpec` with the default of three attempts |
| S3Storage.FilenameExtension | backend/src/main/java/com/portfolio/backend/common/integration/aws/S3Helper.java:68-71 | the text after the last '.' of a name, no extension when there is none or the name is absent |
| S3Storage.GenerateKey | backend/src/main/java/com/portfolio/backend/common/integration/aws/S3Helper.java:68-71 | the key is the identifier, a '.', and the extension (`null` written out when absent) |
| S3Storage.GenerateKeyWithDirectory | backend/src/main/java/com/portfolio/backend/common/integration/aws/S3Helper.java:73-82 | a blank directory gives the plain key, otherwise the directory, a '/' and the key |
| S3Storage.DirectoryJoinedBySlash | backend/src/main/java/com/portfolio/backend/common/integration/aws/S3Helper.java:73-82 | with a directory, the key starts with the directory and a '/' and ends with the generated key |
| S3Storage.GenerateFileUrl | backend/src/main/java/com/portfolio/backend/common/integration/aws/S3Helper.java:84-86 | the virtual-hosted URL of the key in the bucket and region |
| S3Storage.ExtractKeyFromUrl | backend/src/main/java/com/portfolio/backend/common/integration/aws/S3Helper.java:88-91 | an absent URL is a null pointer error; the key follows the first `.com/`, and without one the index -1 + 5 is used |
| S3Storage.ExtractGeneratedKey | backend/src/main/java/com/portfolio/backend/common/integration/aws/S3Helper.java:84-91 | the key is read back from the URL generated for it when bucket and region hold no '/' |
| S3Storage.SlashInRegionBreaksExtract | backend/src/main/java/com/portfolio/backend/common/integration/aws/S3Helper.java:84-91 | a region starting with `com/` makes the read-back key differ |
| S3Storage.ExtractWithoutCom | backend/src/main/java/com/portfolio/backend/common/integration/aws/S3Helper.java:88-91 | without `.com/` the text from index 4 is returned, or an index error when it is shorter |
| S3Storage.PutObject | backend/src/main/java/com/portfolio/backend/common/integration/aws/S3Helper.java:35-48 | the URL of the given key, or of a generated one when none is given |
| S3Storage.PutObjectInDirectory | backend/src/main/java/com/portfolio/backend/common/integration/aws/S3Helper.java:30-33 | the URL of the generated key under the directory |
| S3Storage.DeleteObject | backend/src/main/java/com/portfolio/backend/common/integration/aws/S3Helper.java:50-66 | deleted exactly when the key can be read from the URL and the storage call succeeds |
| S3Storage.StoredObjectDeletable | backend/src/main/java/com/portfolio/backend/common/integration/aws/S3Helper.java:30-66 | an object stored under a key can be deleted by its URL |
| AuthUtils.SessionCookie | frontend/src/shared/lib/auth-utils.ts:13-44 | the cookie holds the value for 30 days (2592000 s), secure exactly on HTTPS |
| AuthUtils.WithToken | frontend/src/shared/lib/auth-utils.ts:13-44 | the token under its key in all three stores, nothing else changed |
| AuthUtils.WithTokenTwice | frontend/src/shared/lib/auth-utils.ts:13-44 | saving the same token twice is saving it once |
| AuthUtils.SetAuthToken | frontend/src/shared/lib/auth-utils.ts:13-44 | with a window the stores become `WithToken`; without one nothing changes |
| AuthUtils.CookieFrom | frontend/src/shared/lib/auth-utils.ts:49-92 | without a window and without a request cookie header there is no cookie |
| AuthUtils.GetAuthTokenStep | frontend/src/shared/lib/auth-utils.ts:49-92 | a truthy cookie token is returned and nothing changes; without a window only the cookie counts; the result is a truthy token or none |
| AuthUtils.GetAuthTokenHeals | frontend/src/shared/lib/auth-utils.ts:49-92 | when the cookie holds no token, a truthy `localStorage` token, else a truthy `sessionStorage` one, is returned and written to all three stores; with neither there is none and nothing changes |
| AuthUtils.GetAuthTokenSettles | frontend/src/shared/lib/auth-utils.ts:49-92 | reading twice is reading once |
| AuthUtils.GetAuthToken | frontend/src/shared/lib/auth-utils.ts:49-92 | with a window, result and stores are `GetAuthTokenStep`'s; without one, none and nothing changed |
| AuthUtils.IsAuthenticated | frontend/src/shared/lib/auth-utils.ts:141-143 | true exactly when the token read is truthy |
| AuthUtils.LogoutLines | frontend/src/shared/lib/auth-utils.ts:97-136 | two expiring cookie lines on localhost, four elsewhere, where the domain is named too |
| AuthUtils.LoggedOut | frontend/src/shared/lib/auth-utils.ts:97-136 | no token or user entry in any store, other keys kept |
| AuthUtils.Logout | frontend/src/shared/lib/auth-utils.ts:97-136 | with a window the stores become `LoggedOut`; without one nothing changes |
| AuthUtils.NoTokenAfterLogout | frontend/src/shared/lib/auth-utils.ts:49-136 | after logout a read finds no token and writes nothing |
| AuthUtils.TokenReadBack | frontend/src/shared/lib/auth-utils.ts:13-92 | after saving, a read returns the saved token |
| AuthUtils.SetUserInfo | frontend/src/shared/lib/auth-utils.ts:148-170 | with a window the serialized user is stored in the cookie and in `localStorage`; without one nothing changes |
| AuthUtils.GetUserInfo | frontend/src/shared/lib/auth-utils.ts:175-206 | a truthy cookie is parsed; otherwise, with a window and a truthy `localStorage` entry, that entry is parsed, and without a window the result is `null` |
| AuthUtils.SyncWritesTokenFound | frontend/src/shared/lib/auth-utils.ts:211-223 | the sync step writes the token it found to every store |
| AuthUtils.SyncAuthState | frontend/src/shared/lib/auth-utils.ts:211-223 | the stores after syncing are those of the sync step |
| AuthUtils.BackupStep | frontend/src/shared/lib/auth-utils.ts:228-240 | a token found is copied to the backup key of `sessionStorage` |
| AuthUtils.BackupAuthState | frontend/src/shared/lib/auth-utils.ts:228-240 | the stores become `BackupStep`'s |
| AuthUtils.RecoverStep | frontend/src/shared/lib/auth-utils.ts:245-267 | without a backup nothing changes; with one the backup key is removed and, when the cookie holds no token, the backup is written to the cookie and `localStorage` |
| AuthUtils.RecoverAuthState | frontend/src/shared/lib/auth-utils.ts:245-267 | the stores become `RecoverStep`'s |
| AuthUtils.BackupSurvivesLostCookie | frontend/src/shared/lib/auth-utils.ts:228-267 | a token backed up and then lost from the cookie is back in every store, and the backup is removed |
| AuthPersistence.Saved | frontend/src/shared/lib/authPersistence.ts:14-55 | the token in `localStorage`, `sessionStorage` and the cookie jar, with an expiry instant `expiryDays` days ahead |
| AuthPersistence.SaveToken | frontend/src/shared/lib/authPersistence.ts:14-55 | with a window the stores become `Saved`; without one nothing changes |
| AuthPersistence.Cleared | frontend/src/shared/lib/authPersistence.ts:104-123 | token and expiry gone from every store, other keys kept |
| AuthPersistence.ClearToken | frontend/src/shared/lib/authPersistence.ts:104-123 | with a window the stores become `Cleared`; without one nothing changes |
| AuthPersistence.GetTokenStep | frontend/src/shared/lib/authPersistence.ts:60-99 | the result is the first truthy of cookie, `sessionStorage` and `localStorage`, or none; without a `localStorage` token nothing changes |
| AuthPersistence.RewriteNeverClears | frontend/src/shared/lib/authPersistence.ts:75-91 | a `localStorage` token that differs from the cookie or session copy is saved again with a fresh expiry, so it is never cleared as expired, and the first truthy copy is returned |
| AuthPersistence.StaleCookieReturned | frontend/src/shared/lib/authPersistence.ts:75-94 | when the cookie holds another token than `localStorage`, the cookie's token is returned though every store now holds the `localStorage` one |
| AuthPersistence.ExpiredTokenCleared | frontend/src/shared/lib/authPersistence.ts:81-90 | a token held alike in all three stores with an expired date is cleared and none is returned |
| AuthPersistence.SavedTokenReadBack | frontend/src/shared/lib/authPersistence.ts:14-99 | after saving, a read before the expiry returns the token |
| AuthPersistence.NoTokenAfterClear | frontend/src/shared/lib/authPersistence.ts:60-123 | after clearing, a read finds no token and changes nothing |
| AuthPersistence.GetToken | frontend/src/shared/lib/authPersistence.ts:60-99 | result and stores are `GetTokenStep`'s with a window; none and nothing changed without |
| AuthPersistence.IsAuth | frontend/src/shared/lib/authPersistence.ts:193-195 | true exactly when the token read is truthy |
| AuthPersistence.VerifyStep | frontend/src/shared/lib/authPersistence.ts:175-188 | a token found is written to all three stores |
| AuthPersistence.VerifyAndSyncAuthState | frontend/src/shared/lib/authPersistence.ts:175-188 | result and stores are `VerifyStep`'s |
| AuthPersistence.BackupStep | frontend/src/shared/lib/authPersistence.ts:241-254 | a token found is copied to the backup key; without one the stores are those the read leaves |
| AuthPersistence.BackupAuthState | frontend/src/shared/lib/authPersistence.ts:241-254 | the stores become `BackupStep`'s |
| AuthPersistence.RecoverStep | frontend/src/shared/lib/authPersistence.ts:200-236 | with a cookie token, or with neither backup nor `localStorage` token, nothing changes; otherwise the backup, else the `localStorage` token, goes to the cookie, and a used backup is removed |
| AuthPersistence.RecoverAuthState | frontend/src/shared/lib/authPersistence.ts:200-236 | the stores become `RecoverStep`'s |
| AuthPersistence.SaveUserData | frontend/src/shared/lib/authPersistence.ts:128-138 | the serialized user is stored under its key in `localStorage` |
| AuthPersistence.GetUserData | frontend/src/shared/lib/authPersistence.ts:143-156 | with a window and a truthy entry the result is that entry parsed; in every other case `null` |
| AuthPersistence.SavedUserDataReadBack | frontend/src/shared/lib/authPersistence.ts:128-156 | what `saveUserData` stores, `getUserData` returns parsed |
| AuthPersistence.ClearUserData | frontend/src/shared/lib/authPersistence.ts:161-170 | the user key is removed, nothing else changes |
| AuthStorage.SetAuthInAllStorages | frontend/src/shared/lib/authStorage.ts:49-80 | with a window the stores become `AuthUtils.WithToken`, the same three writes; without one nothing changes |
| AuthStorage.Cleared | frontend/src/shared/lib/authStorage.ts:85-106 | token and user keys gone from every store, others kept |
| AuthStorage.ClearAuthFromAllStorages | frontend/src/shared/lib/authStorage.ts:85-106 | with a window the stores become `Cleared`; without one nothing changes |
| AuthStorage.GetAuthStep | frontend/src/shared/lib/authStorage.ts:111-143 | the first truthy of cookie, `localStorage` and `sessionStorage`; unless all three hold one, a truthy token found is written to all three stores |
| AuthStorage.GetAuthSettles | frontend/src/shared/lib/authStorage.ts:111-143 | reading twice is reading once |
| AuthStorage.GetAuthFromAllStorages | frontend/src/shared/lib/authStorage.ts:111-143 | result and stores are `GetAuthStep`'s with a window; null and nothing changed without |
| AuthStorage.IsAuthenticated | frontend/src/shared/lib/authStorage.ts:148-150 | true exactly when a window exists and the token read is truthy |
| AuthStorage.AuthHeader | frontend/src/shared/lib/authStorage.ts:155-165 | a header exactly for a truthy token: only `Authorization`, holding `Bearer ` and the token |
| AuthStorage.GetAuthHeader | frontend/src/shared/lib/authStorage.ts:155-165 | the header of the token read, and the stores as the read leaves them |
| AuthStorage.InitAuth | frontend/src/shared/lib/authStorage.ts:8-44 | true exactly for a truthy `localStorage` token the server accepts, which is then written to all three stores; otherwise nothing changes |
| AuthCookies.FirstWithPrefix | frontend/src/shared/lib/auth.ts:14-27 | the first segment starting with the prefix, none before it |
| AuthCookies.ReadCookie | frontend/src/shared/lib/auth.ts:14-27 | a value is found exactly when the cookie text is truthy and some segment starts with `name=` |
| AuthCookies.ReadFirstSegment | frontend/src/shared/lib/auth.ts:14-27 | a first segment `name=v` reads as the decoded text of v up to its first '=' |
| AuthCookies.CookieLineReadsBack | frontend/src/shared/lib/auth.ts:6-27 | the line `setCookie` writes reads back as the value |
| AuthCookies.ValueStopsAtEquals | frontend/src/shared/lib/auth.ts:14-27 | a value holding '=' is cut at it |
| AuthCookies.DeleteLineReadsEmpty | frontend/src/shared/lib/auth.ts:14-34 | the line `deleteCookie` writes reads as the empty, falsy value |
| AuthCookies.DeleteLineShape | frontend/src/shared/lib/auth.ts:32-34 | the delete line is an empty value expired at the epoch, on the path |
| AuthCookies.SetCookie | frontend/src/shared/lib/auth.ts:6-9 | the line is written; without a document the assignment throws |
| AuthCookies.DeleteCookie | frontend/src/shared/lib/auth.ts:32-34 | the expiring line is written; without a document the assignment throws |
| AuthCookies.TokenSaved | frontend/src/shared/lib/auth.ts:39-52 | the token in `localStorage` and one cookie line for it, nothing else |
| AuthCookies.SetAuthToken | frontend/src/shared/lib/auth.ts:39-52 | with a window the stores become `TokenSaved`; without one nothing changes |
| AuthCookies.TokenSources | frontend/src/shared/lib/auth.ts:57-79 | a truthy cookie decides; otherwise `localStorage` on a page, and on the server the cookie or none; authenticated exactly when one of those is truthy |
| AuthCookies.SavedTokenReadBack | frontend/src/shared/lib/auth.ts:39-72 | after saving, a page without a token cookie reads the saved token |
| AuthCookies.LoggedOut | frontend/src/shared/lib/auth.ts:84-98 | no token or user in `localStorage` and one delete line, nothing else |
| AuthCookies.Logout | frontend/src/shared/lib/auth.ts:84-98 | with a window the stores become `LoggedOut`; without one nothing changes |
| AuthCookies.LoggedOutToken | frontend/src/shared/lib/auth.ts:57-98 | after logout the token is gone unless the cookie text still carries one |
| AuthCookies.SafeUserInfo | frontend/src/shared/lib/auth.ts:111-116 | only `id`, `name` and `role` are copied into the cookie |
| AuthCookies.SetUserInfo | frontend/src/shared/lib/auth.ts:103-123 | with a user, `localStorage` gets the whole user and a cookie line the safe part; a null user only stores `null` and reports failure; without a window nothing changes |
| AuthCookies.UnparsableCookieFallsBack | frontend/src/shared/lib/auth.ts:128-150 | a user cookie that does not parse is skipped for `localStorage` |
| AuthCookies.ServerUserInfo | frontend/src/shared/lib/auth.ts:128-150 | on the server only the cookie counts |
| CookieHelpers.StripSpaces | frontend/src/shared/lib/helpers.ts:65-76 | the result does not start with a space |
| CookieHelpers.StripSpacesSuffix | frontend/src/shared/lib/helpers.ts:65-76 | only leading spaces are removed, and the rest is a suffix |
| CookieHelpers.FindCookieFound | frontend/src/shared/lib/helpers.ts:65-76 | a value is found exactly when some segment matches |
| CookieHelpers.FindCookieFirstMatch | frontend/src/shared/lib/helpers.ts:65-76 | the first matching segment decides, and the value is its rest |
| CookieHelpers.GetCookie | frontend/src/shared/lib/helpers.ts:65-76 | the value the loop finds in `document.cookie`, or the error without a document |
| CookieHelpers.SetCookie | frontend/src/shared/lib/helpers.ts:84-94 | the line is written; without a document the assignment throws |
| CookieHelpers.DeleteCookie | frontend/src/shared/lib/helpers.ts:100-102 | the line of `setCookie(name, '', -1)` is written |
| CookieHelpers.DeleteLineExpiresInPast | frontend/src/shared/lib/helpers.ts:84-102 | the delete line expires a day before now; a zero lifetime writes no expiry |
| CookieHelpers.CookieLineReadsBack | frontend/src/shared/lib/helpers.ts:65-94 | the line `setCookie` writes reads back as the value |
| CookieHelpers.ParsersDisagreeOnEquals | frontend/src/shared/lib/helpers.ts:65-76 | this parser keeps `a=b` where the one in auth.ts returns `a` |
| Utils.ReplacePlaceholders | frontend/src/shared/lib/utils.ts:32-38 | each placeholder replaced at its first occurrence, in the order YYYY, MM, DD, HH, mm, ss; stated by `DefaultPatternFilled` and `FirstOccurrenceOnly` |
| Utils.FormatDate | frontend/src/shared/lib/utils.ts:11-45 | '' for a missing or empty input, an unparsable string or an invalid date; for a valid instant, a template filled with its local-time texts, or the `Intl` text of the instant |
| Utils.DefaultPatternFilled | frontend/src/shared/lib/utils.ts:25-38 | the default template filled gives year, month and day joined by '-' |
| Utils.DefaultTemplate | frontend/src/shared/lib/utils.ts:25-38 | `formatDate` of a valid instant with the default template gives its local year, month counted from 1 and day, joined by '-' and two digits each |
| Utils.FirstOccurrenceOnly | frontend/src/shared/lib/utils.ts:32-38 | only the first occurrence of a placeholder is replaced |
| Utils.RemoveEmptyValues | frontend/src/shared/lib/utils.ts:52-58 | an entry is kept exactly when its value is not null, undefined or '' |
| Utils.RemoveEmptyValuesAppend | frontend/src/shared/lib/utils.ts:52-58 | the filter works entry by entry, keeping their order |
| Utils.RemoveEmptyValuesIdempotent | frontend/src/shared/lib/utils.ts:52-58 | filtering twice is filtering once |
| Utils.ZeroAndFalseKept | frontend/src/shared/lib/utils.ts:52-58 | 0 and false survive the filter, '' does not |
| Utils.IsEmpty | frontend/src/shared/lib/utils.ts:65-67 | empty exactly for null, undefined or text made only of whitespace |
| Utils.FormatPrice | frontend/src/shared/lib/utils.ts:84-118 | a number, or an object's numeric `amount`, is formatted |
| Utils.PriceFallback | frontend/src/shared/lib/utils.ts:84-118 | NaN, a missing or non-numeric amount and any other argument give '₩0' |
| CartStore.TotalItems | frontend/src/entities/cart/model/cartStore.ts:13-15 | the sum of the lines' quantities; stated by `AddedEffect`, `EmptyCart` and `CartApiMappers.MappedSubtotal` |
| CartStore.OriginalSubtotal | frontend/src/entities/cart/model/cartStore.ts:18-22 | the sum of original price × quantity over the lines; stated by `DiscountIsDifference` and `DiscountWithinOriginal` |
| CartStore.Subtotal | frontend/src/entities/cart/model/cartStore.ts:25-29 | the sum of price × quantity over the lines; stated by `DiscountIsDifference`, `AddedEffect` and `TotalAddsShipping` |
| CartStore.TotalDiscount | frontend/src/entities/cart/model/cartStore.ts:32-36 | the sum of (original price − price) × quantity over the lines; stated by `DiscountIsDifference` |
| CartStore.DiscountRate | frontend/src/entities/cart/model/cartStore.ts:39-51 | 0 for a zero original total, otherwise the discount as a rounded percentage of it; stated by `DiscountRateBounds` |
| CartStore.DiscountIsDifference | frontend/src/entities/cart/model/cartStore.ts:18-36 | `totalDiscount` is `originalSubtotal - subtotal` |
| CartStore.DiscountWithinOriginal | frontend/src/entities/cart/model/cartStore.ts:18-36 | for sensible lines the discount lies between 0 and the original total |
| CartStore.Round | frontend/src/entities/cart/model/cartStore.ts:39-51 | `Math.round`: the nearest integer, halves upward |
| CartStore.DiscountRateBounds | frontend/src/entities/cart/model/cartStore.ts:39-51 | for sensible lines the rate is a percentage between 0 and 100, the rounded exact ratio |
| CartStore.Shipping | frontend/src/entities/cart/model/cartStore.ts:54-63 | shipping is required exactly for a positive subtotal below the threshold, and then costs the shipping fee |
| CartStore.TotalAddsShipping | frontend/src/entities/cart/model/cartStore.ts:66-74 | the total is the subtotal plus the shipping cost; an empty cart costs 0 and a subtotal at the threshold ships free |
| CartStore.Total | frontend/src/entities/cart/model/cartStore.ts:66-74 | the subtotal plus the shipping cost; stated by `TotalAddsShipping` |
| CartStore.IsEmpty | frontend/src/entities/cart/model/cartStore.ts:77-79 | true exactly when there are no lines; stated by `EmptyCart` |
| CartStore.EmptyCart | frontend/src/entities/cart/model/cartStore.ts:77-79 | an empty cart has no items, costs nothing and ships free |
| CartStore.ItemById | frontend/src/entities/cart/model/cartStore.ts:82-84 | a line is found exactly when one has the id, and it has that id |
| CartStore.Added | frontend/src/entities/cart/model/cartStore.ts:89-99 | an existing line of the product grows by the quantity, otherwise a new line goes at the end; stated by `AddedEffect`, `AddedToLine` and `AddedKeepsFirstProduct` |
| CartStore.Removed | frontend/src/entities/cart/model/cartStore.ts:102-108 | the first line of the product is taken out; stated by `RemovedEffect` and `RemovedIsGone` |
| CartStore.Updated | frontend/src/entities/cart/model/cartStore.ts:111-122 | a positive quantity replaces the line's, zero or less removes the line, an unknown product changes nothing; stated by `UpdatedEffect` |
| CartStore.AddedEffect | frontend/src/entities/cart/model/cartStore.ts:89-99 | adding grows the item count by the quantity and the subtotal by price × quantity |
| CartStore.AddedToLine | frontend/src/entities/cart/model/cartStore.ts:89-99 | growing a line grows each total by that line's share |
| CartStore.CostGrows | frontend/src/entities/cart/model/cartStore.ts:94 | a line's cost grows by price × added quantity |
| CartStore.AddedKeepsFirstProduct | frontend/src/entities/cart/model/cartStore.ts:89-99 | a line already in the cart keeps the product first added, even at a new price |
| CartStore.RemovedEffect | frontend/src/entities/cart/model/cartStore.ts:102-108 | removing takes the first line of the product out, and nothing else |
| CartStore.RemovedIsGone | frontend/src/entities/cart/model/cartStore.ts:102-108 | with one line per product, removal leaves none of it |
| CartStore.ActionsKeepUniqueIds | frontend/src/entities/cart/model/cartStore.ts:89-122 | adding and updating keep one line per product |
| CartStore.UpdatedEffect | frontend/src/entities/cart/model/cartStore.ts:111-122 | a positive quantity is set, zero or less removes the line, an unknown product changes nothing |
| CartStore.Cart.constructor | frontend/src/entities/cart/model/cartStore.ts:7-9 | a new cart is empty |
| CartStore.Cart.AddToCart | frontend/src/entities/cart/model/cartStore.ts:89-99 | the lines become `Added`'s |
| CartStore.Cart.RemoveFromCart | frontend/src/entities/cart/model/cartStore.ts:102-108 | the lines become `Removed`'s |
| CartStore.Cart.UpdateQuantity | frontend/src/entities/cart/model/cartStore.ts:111-122 | the lines become `Updated`'s |
| CartStore.Cart.ClearCart | frontend/src/entities/cart/model/cartStore.ts:125-127 | the cart is empty and costs nothing |
| OrderStore.MessageOr | frontend/src/entities/order/model/orderStore.ts:96-158 | the message shown is never empty when the fallback is not |
| OrderStore.OrdersFromStorage | frontend/src/entities/order/model/orderStore.ts:10-20 | [] without a window or for a missing or empty text |
| OrderStore.SavedOrdersRestored | frontend/src/entities/order/model/orderStore.ts:10-31 | a store opened after saving starts with the saved orders |
| OrderStore.HasOrders | frontend/src/entities/order/model/orderStore.ts:50-52 | true exactly when the list is not empty; stated by `ClearedIsEmpty` |
| Sequences.FindIndex | frontend/src/entities/order/model/orderStore.ts:124-158 | the first position whose key equals the one sought, or -1 when none does (the `findIndex` of the order, product and cart stores) |
| Sequences.FindIndexAt | frontend/src/entities/product/model/productStore.ts:40-69 | the first element with the key is found at its position |
| Sequences.FindIndexNone | frontend/src/entities/cart/model/cartStore.ts:102-108 | no element with the key gives -1 |
| OrderStore.OrderDetails | frontend/src/entities/order/model/orderStore.ts:55-57 | an order is found exactly when one has the id, and it has that id |
| OrderStore.InsertSorted | frontend/src/entities/order/model/orderStore.ts:43-47 | inserting into a newest-first list keeps it newest first |
| OrderStore.InsertPermutes | frontend/src/entities/order/model/orderStore.ts:43-47 | inserting adds exactly the order |
| OrderStore.SortedOrders | frontend/src/entities/order/model/orderStore.ts:43-47 | the orders sorted newest first by creation time; stated by `SortedOrdersSorted`, `SortedOrdersNewestFirst` and `SortedOrdersPermutes` |
| OrderStore.SortedOrdersSorted | frontend/src/entities/order/model/orderStore.ts:43-47 | `sortedOrders` is newest first and a permutation of the orders |
| OrderStore.SortedOrdersNewestFirst | frontend/src/entities/order/model/orderStore.ts:43-47 | `sortedOrders` is newest first and as long as the list |
| OrderStore.SortedOrdersPermutes | frontend/src/entities/order/model/orderStore.ts:43-47 | `sortedOrders` holds exactly the orders of the list |
| OrderStore.Upserted | frontend/src/entities/order/model/orderStore.ts:139-145 | the fetched order replaces the first order with its id, or is appended; stated by `UpsertedFinds`, `UpsertedKeepsOthers` and `UpsertedIdempotent` |
| OrderStore.UpsertedFinds | frontend/src/entities/order/model/orderStore.ts:124-158 | after the upsert the fetched order is found, and the list grows only for a new id |
| OrderStore.UpsertedKeepsOthers | frontend/src/entities/order/model/orderStore.ts:124-158 | every other id finds what it found before |
| OrderStore.UpsertedIdempotent | frontend/src/entities/order/model/orderStore.ts:124-158 | storing the same order twice is storing it once |
| OrderStore.FetchOrdersStep | frontend/src/entities/order/model/orderStore.ts:96-121 | the page returned, the state after and the error rethrown by `fetchOrders`; stated by `FetchOrdersNeedsLogin` and `FetchOrdersEffect` |
| OrderStore.FetchDetailsStep | frontend/src/entities/order/model/orderStore.ts:124-158 | the state after and the error rethrown by `fetchOrderDetails`; stated by `FetchDetailsEffect` |
| OrderStore.CreateOrderStep | frontend/src/entities/order/model/orderStore.ts:62-93 | the state after and the error rethrown by `createOrder`, with the list refetched after a successful request; stated by `CreateOrderRefetchFails` |
| OrderStore.ClearedState | frontend/src/entities/order/model/orderStore.ts:161-170 | no orders, no current order, no error, and the saved list removed when there is a window; stated by `ClearedIsEmpty` |
| OrderStore.FetchOrdersNeedsLogin | frontend/src/entities/order/model/orderStore.ts:96-121 | without authentication the action fails with the login message and the list is kept |
| OrderStore.FetchOrdersEffect | frontend/src/entities/order/model/orderStore.ts:96-121 | a fetched page replaces the list and is saved; a failure keeps the list and records the message |
| OrderStore.FetchDetailsEffect | frontend/src/entities/order/model/orderStore.ts:124-158 | the fetched order becomes current and findable, other orders are kept; a failure records the message |
| OrderStore.CreateOrderRefetchFails | frontend/src/entities/order/model/orderStore.ts:62-93 | a refetch that fails after a successful create records the create-failure message and keeps the list; unauthenticated, the login message |
| OrderStore.ClearedIsEmpty | frontend/src/entities/order/model/orderStore.ts:161-170 | after clearing there are no orders, and a store opened afterwards starts empty |
| OrderStore.Store.constructor | frontend/src/entities/order/model/orderStore.ts:34-39 | a new store starts with the orders read from storage |
| OrderStore.Store.FetchOrders | frontend/src/entities/order/model/orderStore.ts:96-121 | result and state are `FetchOrdersStep`'s |
| OrderStore.Store.FetchOrderDetails | frontend/src/entities/order/model/orderStore.ts:124-158 | state and error are `FetchDetailsStep`'s |
| OrderStore.Store.CreateOrder | frontend/src/entities/order/model/orderStore.ts:62-93 | state and error are `CreateOrderStep`'s |
| OrderStore.Store.ClearOrders | frontend/src/entities/order/model/orderStore.ts:161-170 | the state becomes `ClearedState` |
| ProductStore.ProductById | frontend/src/entities/product/model/productStore.ts:15-16 | a product is found exactly when one has the id, and it has that id |
| ProductStore.Filter | frontend/src/entities/product/model/productStore.ts:17-20 | `Array.prototype.filter`; stated by `FilterKeeps` and `FilterConcat` |
| ProductStore.ByCategory | frontend/src/entities/product/model/productStore.ts:17-18 | the products of the category; stated by `LookupsFilter` |
| ProductStore.InStockProducts | frontend/src/entities/product/model/productStore.ts:19-20 | the products in stock; stated by `LookupsFilter` |
| ProductStore.FilterKeeps | frontend/src/entities/product/model/productStore.ts:17-20 | a filter keeps exactly the products that pass |
| ProductStore.FilterConcat | frontend/src/entities/product/model/productStore.ts:17-20 | a filter works product by product, keeping their order |
| ProductStore.LookupsFilter | frontend/src/entities/product/model/productStore.ts:17-20 | the category and stock lookups keep exactly the matching products, in order |
| ProductStore.FetchProductsStep | frontend/src/entities/product/model/productStore.ts:25-37 | the list is replaced, or the message recorded and the list kept; loading ends either way |
| ProductStore.Cached | frontend/src/entities/product/model/productStore.ts:42-45 | a product with the id whose description is not empty is in the list; stated by `FetchByIdEffect` and `ProductApiMappers.ListedProductsNotCached` |
| ProductStore.Upserted | frontend/src/entities/product/model/productStore.ts:54-59 | the fetched product replaces the first product with the requested id, or is appended; stated by `FetchByIdEffect` and `MismatchedIdReplaces` |
| ProductStore.FetchByIdStep | frontend/src/entities/product/model/productStore.ts:40-69 | the result and the state after `fetchProductById`; stated by `FetchByIdEffect` and `MismatchedIdReplaces` |
| ProductStore.FetchByIdEffect | frontend/src/entities/product/model/productStore.ts:40-69 | a cached product is answered with no request and no change; otherwise the fetched product is stored, or the error recorded |
| ProductStore.MismatchedIdReplaces | frontend/src/entities/product/model/productStore.ts:40-69 | a detail with another id overwrites the requested product |
| ProductStore.DeleteStep | frontend/src/entities/product/model/productStore.ts:114-132 | the result and the state after `deleteProduct`; stated by `DeleteEffect` |
| ProductStore.ThenReloadStep | frontend/src/entities/product/model/productStore.ts:72-153 | the error rethrown and the state after `createProduct`, `updateProduct` and `adjustStock`; stated by `ReloadFailureSwallowed` |
| ProductStore.DeleteEffect | frontend/src/entities/product/model/productStore.ts:114-132 | after a delete no product has the id and all others remain; a failure keeps the list |
| ProductStore.ReloadFailureSwallowed | frontend/src/entities/product/model/productStore.ts:72-153 | a reload that fails after a successful call throws nothing, keeps the list and records the list error |
| ProductStore.Store.constructor | frontend/src/entities/product/model/productStore.ts:7-11 | a new store is empty, not loading, with no error |
| ProductStore.Store.FetchProducts | frontend/src/entities/product/model/productStore.ts:25-37 | the state becomes `FetchProductsStep`'s |
| ProductStore.Store.FetchProductById | frontend/src/entities/product/model/productStore.ts:40-69 | result and state are `FetchByIdStep`'s |
| ProductStore.Store.DeleteProduct | frontend/src/entities/product/model/productStore.ts:114-132 | result and state are `DeleteStep`'s |
| ProductStore.Store.ThenReload | frontend/src/entities/product/model/productStore.ts:72-153 | `createProduct`, `updateProduct` and `adjustStock`: result and state are `ThenReloadStep`'s |
| Router.Protected | frontend/src/app/providers/router/index.ts:38 | some matched route record requires authentication; stated by `GuardDecides` and `OnlyProfileProtected` |
| Router.Guard | frontend/src/app/providers/router/index.ts:35-47 | a redirect to the login page for a protected route without a truthy token, otherwise proceed; stated by `GuardDecides` and `GuardCases` |
| Router.GuardDecides | frontend/src/app/providers/router/index.ts:35-47 | a redirect happens exactly for a protected route without a truthy token, and it goes to the login route |
| Router.GuardCases | frontend/src/app/providers/router/index.ts:35-47 | an empty token counts as none, and the login page is always reachable |
| Router.OnlyProfileProtected | frontend/src/app/providers/router/index.ts:6-47 | only the profile route requires authentication |
| OrderApiMappers.MapItem | frontend/src/entities/order/api/mappers.ts:28-47 | an item with id, name, thumbnail and quantity copied and both prices flattened; stated by `PricesFlattened` |
| OrderApiMappers.MapToOrder | frontend/src/entities/order/api/mappers.ts:7-50 | an order with id, status, delivery and creation time copied, the total flattened and the items mapped; stated by `MapToOrderRoundTrip`, `PricesFlattened` and `StatusUnchecked` |
| OrderApiMappers.AsResponse | frontend/src/entities/order/api/mappers.ts:7-50 | an order written back as a response with numeric prices, the input of `MapToOrderRoundTrip` |
| OrderApiMappers.Flatten | frontend/src/entities/order/api/mappers.ts:7-50 | a number is kept, an object gives its `amount`, anything else 0 |
| OrderApiMappers.MapItems | frontend/src/entities/order/api/mappers.ts:7-50 | one item per response item, in order |
| OrderApiMappers.MapToOrders | frontend/src/entities/order/api/mappers.ts:55-57 | one order per response, in order |
| OrderApiMappers.MapToOrderRoundTrip | frontend/src/entities/order/api/mappers.ts:7-50 | an order sent with numeric or object prices maps back to itself |
| OrderApiMappers.PricesFlattened | frontend/src/entities/order/api/mappers.ts:7-50 | every price and quantity is taken from the response, flattened |
| OrderApiMappers.StatusUnchecked | frontend/src/entities/order/api/mappers.ts:7-50 | a backend status the frontend does not know passes through unchecked and shows as itself, in gray |
| ProductApiMappers.MapToProduct | frontend/src/entities/product/api/mappers.ts:7-20 | the detail mapping, in stock exactly for a positive stock; stated by `StockMapped` and `ListEntryIsDetailWithoutDescription` |
| ProductApiMappers.MapListEntry | frontend/src/entities/product/api/mappers.ts:23-37 | the list mapping, with an empty description; stated by `StockMapped` and `ListEntryIsDetailWithoutDescription` |
| ProductApiMappers.MapToDisplayProps | frontend/src/entities/product/api/mappers.ts:40-48 | the seven display fields of a product; stated by `DisplayIgnoresSource` |
| ProductApiMappers.MapToProducts | frontend/src/entities/product/api/mappers.ts:23-37 | one product per response, in order |
| ProductApiMappers.StockMapped | frontend/src/entities/product/api/mappers.ts:7-37 | in stock exactly for a positive stock; the list has no description |
| ProductApiMappers.ListEntryIsDetailWithoutDescription | frontend/src/entities/product/api/mappers.ts:7-37 | the two mappings agree except for the description |
| ProductApiMappers.ListedProductsNotCached | frontend/src/entities/product/api/mappers.ts:23-37 | a listed product is never answered from the store's cache |
| ProductApiMappers.DisplayIgnoresSource | frontend/src/entities/product/api/mappers.ts:40-48 | the display props are the same whichever mapping built the product |
| CartApiMappers.MapToCartItem | frontend/src/entities/cart/api/mappers.ts:6-20 | a cart line with the response's fields copied, an empty description, the `ELECTRONICS` category, in stock exactly for `ACTIVE`, and no stock; stated by `CartItemFields` and `InStockDisagrees` |
| CartApiMappers.MapToCartItems | frontend/src/entities/cart/api/mappers.ts:23-24 | one line per response, in order |
| CartApiMappers.CartItemFields | frontend/src/entities/cart/api/mappers.ts:6-20 | the copied fields are the response's, the rest their defaults, in stock exactly when active |
| CartApiMappers.MappedSubtotal | frontend/src/entities/cart/api/mappers.ts:6-24 | the mapped cart's subtotal and count are those of the responses |
| CartApiMappers.InStockDisagrees | frontend/src/entities/cart/api/mappers.ts:6-20 | an active product with no stock is in stock in the cart but not in the product list |
| ProductFormMappers.MapToFormData | frontend/src/features/productManagement/model/mappers.ts:5-12 | the edit form of a product, thumbnail or '', no stock; stated by `EditRoundTrip` |
| ProductFormMappers.MapToCreateRequest | frontend/src/features/productManagement/model/mappers.ts:15-23 | the create request, with the stock or 0; stated by `RequestsAgree` |
| ProductFormMappers.MapToUpdateRequest | frontend/src/features/productManagement/model/mappers.ts:26-33 | the update request, without a stock; stated by `RequestsAgree` and `EditRoundTrip` |
| ProductFormMappers.MapToStockAdjustmentRequest | frontend/src/features/productManagement/model/mappers.ts:36-40 | the adjustment request copied from the data; stated by `AdjustmentCopied` |
| ProductFormMappers.RequestsAgree | frontend/src/features/productManagement/model/mappers.ts:15-33 | the create request carries the stock or 0; create and update agree on the other fields |
| ProductFormMappers.EditRoundTrip | frontend/src/features/productManagement/model/mappers.ts:5-33 | saving an unchanged edit form sends back the product's fields |
| ProductFormMappers.AdjustmentCopied | frontend/src/features/productManagement/model/mappers.ts:36-40 | the adjustment request is the data, memo included |
| EnumTables.EnumObject | frontend/src/entities/product/model/constants.ts:2-27 | the merged enum object: the codes in order, then the namespace's members |
| EnumTables.StringValuesOfEnum | frontend/src/entities/product/model/constants.ts:75-78 | `values()` gives exactly the codes, in order |
| EnumTables.NoStrings | frontend/src/entities/product/model/constants.ts:75-78 | a list with no strings filters to nothing |
| EnumTables.DescriptionOr | frontend/src/entities/product/model/constants.ts:60-62 | the description when there is a non-empty one, otherwise the code |
| EnumTables.DescriptionOf | frontend/src/entities/product/model/constants.ts:82-112 | the description, or undefined for an unknown code |
| EnumTables.EntriesOr | frontend/src/entities/product/model/constants.ts:65-72 | each code with its description or itself |
| EnumTables.EntriesOf | frontend/src/entities/product/model/constants.ts:82-112 | each code with its description or undefined |
| EnumTables.EntriesAgree | frontend/src/entities/product/model/constants.ts:65-112 | with every code described, the two kinds of entries agree |
| EnumTables.EnumEntries | frontend/src/entities/product/model/constants.ts:65-78 | the entries of an enum are those of its codes |
| ProductConstants.CategoriesDistinct | frontend/src/entities/product/model/constants.ts:2-27 | 24 distinct category codes |
| ProductConstants.CategoriesDescribed | frontend/src/entities/product/model/constants.ts:32-57 | every category is described by a non-empty text, and nothing else is |
| ProductConstants.DescribedBelow | frontend/src/entities/product/model/constants.ts:32-57 | each third of the categories is described |
| ProductConstants.OnlyCategoriesDescribed | frontend/src/entities/product/model/constants.ts:32-57 | only categories are described |
| ProductConstants.CategoryDescription | frontend/src/entities/product/model/constants.ts:60-62 | `descriptions[category] || category`; stated by `CategoryDescriptionFallback` |
| ProductConstants.CategoryValues | frontend/src/entities/product/model/constants.ts:75-78 | the string values of the enum object; stated by `CategoryValuesAreCodes` |
| ProductConstants.CategoryEntries | frontend/src/entities/product/model/constants.ts:65-72 | each value with its description or itself; stated by `CategoryEntriesListed` |
| ProductConstants.CategoryDescriptionFallback | frontend/src/entities/product/model/constants.ts:60-62 | a known category gets its description, anything else its code |
| ProductConstants.CategoryValuesAreCodes | frontend/src/entities/product/model/constants.ts:75-78 | `values()` lists the 24 codes in order |
| ProductConstants.CategoryEntriesListed | frontend/src/entities/product/model/constants.ts:65-72 | `entries()` pairs each code with its description |
| ProductConstants.ReasonDescription | frontend/src/entities/product/model/constants.ts:94-96 | `descriptions[reason]` with no fallback; stated by `ReasonDescriptionNoFallback` |
| ProductConstants.ReasonValues | frontend/src/entities/product/model/constants.ts:109-112 | the string values of the enum object; stated by `ReasonTables` |
| ProductConstants.ReasonEntries | frontend/src/entities/product/model/constants.ts:99-106 | each value with its description or itself; stated by `ReasonTables` |
| ProductConstants.ReasonDescriptionNoFallback | frontend/src/entities/product/model/constants.ts:82-112 | a known reason is described, any other gets undefined |
| ProductConstants.ReasonTables | frontend/src/entities/product/model/constants.ts:82-112 | `values()` lists the two reason codes, and `entries()` pairs adjustment and loss with their descriptions |
| ProductConstants.StatusDescription | frontend/src/entities/product/model/constants.ts:130-132 | `descriptions[status] || status`; stated by `StatusDescriptionFallback` |
| ProductConstants.StatusDescriptionFallback | frontend/src/entities/product/model/constants.ts:116-132 | a known status gets its description, anything else its code |
| ProductTypes.Description | frontend/src/entities/product/model/types.ts:70-72 | `descriptions[category]` with no fallback; stated by `DescriptionNoFallback` |
| ProductTypes.Values | frontend/src/entities/product/model/types.ts:85-88 | the string values of the enum object; stated by `ValuesAgree` |
| ProductTypes.Entries | frontend/src/entities/product/model/types.ts:75-82 | each value with `descriptions[code]`, no fallback; stated by `EntriesAgreeWithConstants` |
| ProductTypes.DescriptionNoFallback | frontend/src/entities/product/model/types.ts:70-72 | a known category is described, any other gets undefined |
| ProductTypes.ValuesAgree | frontend/src/entities/product/model/types.ts:85-88 | `values()` lists the same 24 codes as the copy in constants.ts |
| ProductTypes.EntriesAgreeWithConstants | frontend/src/entities/product/model/types.ts:75-82 | `entries()` agrees with the copy in constants.ts |
| OrderTypes.StatusTables | frontend/src/entities/order/model/types.ts:2-31 | six distinct statuses, each with a non-empty description and class, and no other keys |
| OrderTypes.StatusesDistinct | frontend/src/entities/order/model/types.ts:2-9 | six distinct statuses |
| OrderTypes.TablesCoverStatuses | frontend/src/entities/order/model/types.ts:14-31 | both tables cover exactly the statuses |
| OrderTypes.StatusesDescribed | frontend/src/entities/order/model/types.ts:14-31 | every status has a non-empty description and class |
| OrderTypes.Description | frontend/src/entities/order/model/types.ts:34-36 | `descriptions[status] || status`; stated by `Fallbacks` and `FailedLooksCancelled` |
| OrderTypes.StatusClass | frontend/src/entities/order/model/types.ts:39-41 | `statusClasses[status]` or the gray class; stated by `Fallbacks` and `FailedLooksCancelled` |
| OrderTypes.Fallbacks | frontend/src/entities/order/model/types.ts:34-41 | a status gets its description and class; any other string its own text and the gray class |
| OrderTypes.FailedLooksCancelled | frontend/src/entities/order/model/types.ts:14-31 | a failed order has the class of a cancelled one, with a different description |
| OrderTypes.Values | frontend/src/entities/order/model/types.ts:54-57 | the string values of the enum object; stated by `ValuesAndEntries` |
| OrderTypes.Entries | frontend/src/entities/order/model/types.ts:44-51 | each value with its description or itself; stated by `ValuesAndEntries` |
| OrderTypes.ValuesAndEntries | frontend/src/entities/order/model/types.ts:43-57 | `values()` lists the statuses in order, `entries()` each with its description |

## Left out

- Floating point: prices on the frontend are integers, and `Math.round` is modelled on reals, so a rounding error in the browser's arithmetic is not captured.
- `Intl` formatting (`toLocaleString`, the `Intl.DateTimeFormat` branch of `formatDate`, `formatPrice`'s number format) is a function parameter; only the branches around it are modelled.
- NaN and Infinity are modelled only where `formatPrice` tests for them; no other arithmetic produces them in the model.
- `encodeURIComponent`, `decodeURIComponent`, `JSON.parse`, `JSON.stringify`, `Date` parsing and printing, and the clock are parameters. The errors `decodeURIComponent` can throw are not modelled.
- Configuration values (`APP_CONFIG` keys, `FREE_SHIPPING_THRESHOLD`, `SHIPPING_COST`, cookie lifetimes taken from configuration) are parameters.
- The cookie jar's own semantics for a written `document.cookie` line (how the browser merges, expires and scopes it) are not modelled. Written lines are logged as text, and the lemmas read such a line back with the source's own parsers.
- `universal-cookie`'s option handling beyond value, path, max-age, `SameSite` and `secure` is not modelled.
- The window listeners that `authPersistence.ts` registers on load and before unload (frontend/src/shared/lib/authPersistence.ts:257-263) are not modelled; the two handlers they call are.
- The API client calls (`api.get`, `api.post`, …) are parameters: the reply each store action receives is an input, and `initAuth`'s server check is an input `Result<bool>`.
- The order store's login check reads another store; whether the user is logged in is a parameter.
- The `createOrder` request body is not modelled, only the store's state around the call.
- `console` logging is not modelled.
- Aliasing of the arrays a Pinia store hands out is not modelled: store state is a value.
- `OrderStore.SortedOrdersSorted`: the sort is proved newest first and a permutation, not stable; `Array.prototype.sort`'s stability is left out.
- The frontend `Product` interface (frontend/src/entities/product/model/types.ts:1-10) declares `imageUrl` but not `thumbnailImageUrl`, `status` or `stock`, while the mappers write those three and never `imageUrl`. The model's product has the fields the mappers write.
- `BigDecimal` values with a negative scale are not modelled (the scale is a `nat`).
- Java `int` and `long` overflow is not modelled, except in the retry back-off, where `50 * (1 << attempts)` is computed in 32-bit `int` for every attempt: the wait before retry 26 is negative (see "## Findings").
- `@Transactional` rollback is not modelled: when `saleAll` fails on a later line, the model keeps the earlier lines' sales, which the database would roll back.
- Pessimistic locking, concurrency, JPA persistence and the audit timestamps are not modelled. Creation and update times are parameters.
- UUID and ULID generation are parameters (the identifier is an input).
- The AWS SDK calls behind `putObject` and `deleteObject` are not modelled; whether the storage call succeeds is a parameter.
- The publisher's log of published events is ghost state: publishing has no other observable effect in the model.
- `AuthPersistence.Saved`: the expiry instant is `now` plus `expiryDays` times 24 hours; the source's `setDate(getDate() + days)` counts calendar days in local time, which differs by an hour across a daylight-saving change.
- `Money.Multiply`: the product is stated only for its scale and its success on a non-negative multiplier; its exact value is proved for whole multipliers (`Money.MultiplyIntExact`), not for fractional ones.
- `Orders.Transition`: its own contract states only the error for a refused command; the edges it follows are stated by `Orders.TransitionEdges` and the trace lemmas.
- `AuthUtils.CookieFrom`: stated only for the case without a window and without a request header; the read itself is stated through `AuthUtils.GetAuthTokenStep` and its lemmas.
- `AuthUtils.LogoutLines`: states the number of lines written, not their text.
- `Retry.GivesUpAfterMaxRetry`: stated for wait rules whose waits are all allowed. For the code's own waits that holds up to 26 tries (`Retry.GivesUpWithin26`); beyond that `Retry.ThrowsAtTry26` states the exception instead.
- `CartStore.Cart.AddToCart`: the default `quantity = 1` of `addToCart` is not modelled; callers always pass the quantity.
- `OrderStore.OrdersFromStorage`: states the empty cases; the restored list is stated by `OrderStore.SavedOrdersRestored` for text that parses. Saved text `"null"` parses to `null` in the source, which the store then holds as its list; the model, whose parse yields a list or nothing, gives the empty list there.
- `StockManagement.SaleAllSpec`: its own contract states only that the set of products is kept; the run is stated by `StockManagement.SaleAllSpecSnoc`, `StockManagement.SaleAllSpecStops` and `StockManagement.SaleAllKeepsConsistent`.

## Findings

| source | as written | input that shows it | evidently intended | confidence | as-written member | corrected member |
|---|---|---|---|---|---|---|
| backend/src/main/java/com/portfolio/backend/common/util/RetryUtils.java:36 | the wait `50 * (1 << attempts)` is computed in `int`; from retry 26 on the product wraps (negative at 26, 27 and 30, zero at 31), and `Thread.sleep` throws `IllegalArgumentException` for a negative wait, which nothing catches | `maxRetry = 27` and an operation that fails with an optimistic-locking failure on every call: the 26th wait is -939524096 ms and the call ends with `IllegalArgumentException` after 26 calls instead of rethrowing the lock failure after 27 | waits of 50 × 2^attempt ms, and the lock failure rethrown after exactly `maxRetry` calls | not executed | Retry.ThrowsAtTry26 | Retry.IntendedGivesUp |

/** Domain events and the aggregate root that collects them
    (domain/common/entity/AggregateRoot.java), and the publisher that drains
    an aggregate's events. */
module DomainEvents {
  import opened Wrappers
  import opened Money

  /** Why a stock quantity changed. */
  datatype StockChangeReason = SALE | RETURN | ADJUSTMENT

  datatype CreditTransactionType = INCREASE | DECREASE

  /** The events the modelled aggregates register. A product is named by its
      identity; `at` is the time `LocalDateTime.now()` returned. */
  datatype DomainEvent =
    | ProductStockChanged(product: int, previousQuantity: int, changedQuantity: int,
                          reason: StockChangeReason, memo: Option<string>, at: int)
    | UserCreditAmountChanged(transactionType: CreditTransactionType, amount: Money,
                              balanceAfterTransaction: Money, at: int)
    | UserCreated(at: int)

  /** The list of not yet published events every aggregate carries. */
  class AggregateRoot {
    var domainEvents: seq<DomainEvent>

    constructor ()
      ensures domainEvents == []
    {
      domainEvents := [];
    }

    /** `registerEvent`: appends at the end. */
    method RegisterEvent(event: DomainEvent)
      modifies this
      ensures domainEvents == old(domainEvents) + [event]
    {
      domainEvents := domainEvents + [event];
    }

    /** `getDomainEvents`: a read-only view of the pending events. */
    function GetDomainEvents(): seq<DomainEvent>
      reads this
    {
      domainEvents
    }

    /** `clearDomainEvents`. */
    method ClearDomainEvents()
      modifies this
      ensures domainEvents == []
    {
      domainEvents := [];
    }
  }

  /** The Spring publisher, reduced to the log of what it has published. */
  class EventPublisher {
    ghost var published: seq<DomainEvent>

    constructor ()
      ensures published == []
    {
      published := [];
    }

    /** `publishDomainEventsFrom`: publishes the aggregate's events in order,
        then clears them (only when there were any). */
    method PublishDomainEventsFrom(aggregate: AggregateRoot)
      modifies this, aggregate
      ensures published == old(published) + old(aggregate.domainEvents)
      ensures aggregate.domainEvents == []
    {
      var events := aggregate.GetDomainEvents();
      if events != [] {
        for i := 0 to |events|
          invariant published == old(published) + events[..i]
        {
          published := published + [events[i]];
        }
        aggregate.ClearDomainEvents();
      }
    }
  }
}

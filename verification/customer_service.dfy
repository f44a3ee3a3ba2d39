/**
  `CustomerService` (src/services/CustomerService.ts): placing an order for
  a known customer records it in the customer's history and publishes one
  `CustomerOrderCreated` event on the bus.

  The customers are the draft `Customer` objects, the ones with an order
  history and `placeOrder`.
*/
module CustomerServices {
  import opened Wrappers
  import opened Types
  import opened Subscription
  import Bus
  import DraftCustomers

  type Customer = DraftCustomers.Customer

  /** The event `placeOrder` publishes for `order` of customer `customerId`. */
  function OrderCreated(customerId: string, order: OrderHistory): (e: Event)
    ensures e.kind == CustomerOrderCreated && e.payload.products == order.products
    ensures e.payload.customerId == Some(customerId) && e.payload.orderId == Some(order.orderId)
  {
    Event(CustomerOrderCreated, Payload(order.products, Some(customerId), Some(order.orderId)))
  }

  class CustomerService {
    var customers: map<string, Customer>
    const eventBus: Bus.EventBus

    /** The customer map starts empty; nothing in the service adds to it. */
    constructor (eventBus: Bus.EventBus)
      ensures customers == map[] && this.eventBus == eventBus
    {
      customers := map[];
      this.eventBus := eventBus;
    }

    /**
      `placeOrder`: an unknown customer throws "Customer not found" and
      nothing is recorded or published. Otherwise the order is appended to
      the customer's history, other customers' histories untouched and no
      customer's e-mail or shipping addresses changed, then
      exactly one `CustomerOrderCreated` event is published; the registry
      afterwards holds whatever the notified handlers' calls made of it, and
      an error a subscriber throws comes out unchanged.
    */
    method PlaceOrder(customerId: string, order: OrderHistory, handle: Handler) returns (r: Outcome<Error>, delivered: seq<Subscriber>)
      requires eventBus.Valid()
      modifies eventBus, customers.Values
      ensures eventBus.Valid()
      ensures forall d | d in customers.Values :: d.email == old(d.email) && d.shippingAddresses == old(d.shippingAddresses)
      ensures customerId !in customers ==>
        && r == Fail(DomainError("Customer not found"))
        && delivered == []
        && eventBus.published == old(eventBus.published)
        && eventBus.subscribers == old(eventBus.subscribers)
        && forall c | c in customers.Values :: c.orderHistory == old(c.orderHistory)
      ensures customerId in customers ==>
        var c := customers[customerId];
        var event := OrderCreated(c.id, order);
        var snapshot := SubscribersOf(old(eventBus.subscribers), CustomerOrderCreated);
        && c.orderHistory == old(c.orderHistory) + [order]
        && (forall d | d in customers.Values && d != c :: d.orderHistory == old(d.orderHistory))
        && eventBus.published == old(eventBus.published) + [event]
        && delivered == Delivered(snapshot, event, handle)
        && r == DispatchOutcome(snapshot, event, handle)
        && eventBus.subscribers == ApplyAll(old(eventBus.subscribers), RequestsOf(delivered, event, handle))
    {
      if customerId !in customers {
        return Fail(DomainError("Customer not found")), [];
      }
      var customer := customers[customerId];
      customer.PlaceOrder(order);
      r, delivered := eventBus.Publish(Some(OrderCreated(customer.id, order)), handle);
    }
  }

  /** A fresh service knows no customer, so it rejects every order and leaves the bus as it was. */
  method FreshServiceRejects(bus: Bus.EventBus, customerId: string, order: OrderHistory, handle: Handler) returns (r: Outcome<Error>)
    requires bus.Valid()
    modifies bus
    ensures r == Fail(DomainError("Customer not found"))
    ensures bus.published == old(bus.published)
    ensures bus.subscribers == old(bus.subscribers)
  {
    var service := new CustomerService(bus);
    var delivered;
    r, delivered := service.PlaceOrder(customerId, order, handle);
  }
}

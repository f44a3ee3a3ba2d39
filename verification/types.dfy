/**
  The shared records of the warehouse system: event kinds and payloads
  (src/types/events.ts), order lines, order-history entries and postal
  addresses (src/types/index.ts), and the exceptions the code throws.
*/
module Types {
  import opened Wrappers

  /** The keys of `EventMap`; `SPECIAL_EVENT@123` is spelled `SPECIAL_EVENT_AT_123`. */
  datatype EventKind =
    | CustomerOrderCreated
    | ReorderStock
    | StockReplenished
    | TEST_EVENT
    | NO_SUBSCRIBERS_EVENT
    | FAIL_EVENT
    | EVENT_X
    | EVENT_Y
    | NON_EXISTENT_EVENT
    | SINGLE_EVENT
    | SHARED_EVENT
    | EVENT_A
    | EVENT_B
    | EVENT_TYPE
    | SPECIAL_EVENT_AT_123
    | EVENT_1
    | EVENT_2
    | EVENT_3

  /** `IOrderItem` (and the structurally identical `PurchaseOrderItem`). */
  datatype OrderItem = OrderItem(productId: string, quantity: int, unitPrice: int)

  /**
    An event payload: every kind carries `products`; the payload built by
    `CustomerService.placeOrder` also carries the customer and order ids.
  */
  datatype Payload = Payload(products: seq<OrderItem>, customerId: Option<string>, orderId: Option<string>)

  /** `IEvent`: a kind and its payload. */
  datatype Event = Event(kind: EventKind, payload: Payload)

  /** An entry of an order history (`IOrderHistory`), as far as the code reads it. */
  datatype OrderHistory = OrderHistory(orderId: string, products: seq<OrderItem>)

  /** `IAddress`: a supplier's postal address with its phone number. */
  datatype PostalAddress = PostalAddress(street: string, city: string, postalCode: string, country: string, phoneNumber: string)

  /** A shipping address of the draft customer; its fields are not part of this model. */
  datatype ShippingAddress = ShippingAddress(text: string)

  /** The `CustomerOrder` record kept by the order repository. */
  datatype CustomerOrderRecord = CustomerOrderRecord(customerId: string, id: string, orderDate: string, products: seq<OrderItem>)

  /**
    The exception classes thrown: `Error`, `DomainError` and
    `InvalidEmailError`, and the `TypeError` JavaScript raises for a call to
    a method an object does not have.
  */
  datatype Error = PlainError(message: string) | DomainError(message: string) | InvalidEmailError(message: string) | TypeError(message: string)

  /**
    The `reduce` over order lines used by `PurchaseOrder.getTotal` and
    `CustomerOrder.totalAmount`: a left fold from the seed 0 adding
    `quantity * unitPrice` line by line.
  */
  function LineTotal(items: seq<OrderItem>): int
  {
    if items == [] then 0
    else LineTotal(items[..|items| - 1]) + items[|items| - 1].quantity * items[|items| - 1].unitPrice
  }

  /** The total of two concatenated line lists is the sum of their totals. */
  lemma {:induction false} LineTotalAppend(a: seq<OrderItem>, b: seq<OrderItem>)
    ensures LineTotal(a + b) == LineTotal(a) + LineTotal(b)
    decreases |b|
  {
    if b == [] {
      assert a + b == a;
    } else {
      var n := |b| - 1;
      assert (a + b)[..|a + b| - 1] == a + b[..n];
      assert (a + b)[|a + b| - 1] == b[n];
      LineTotalAppend(a, b[..n]);
    }
  }

  /** Lines with non-negative quantities and prices never total below zero. */
  lemma {:induction false} LineTotalNonNegative(items: seq<OrderItem>)
    ensures (forall i | 0 <= i < |items| :: items[i].quantity >= 0 && items[i].unitPrice >= 0) ==> LineTotal(items) >= 0
    decreases |items|
  {
    if items != [] {
      LineTotalNonNegative(items[..|items| - 1]);
    }
  }
}

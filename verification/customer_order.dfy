/**
  `CustomerOrder` (src/models/Customer/CustomerOrder.ts): a customer's
  order with its lines and a status. Its fields are public and writable;
  the order date, which defaults to the current time, is passed in.
*/
module CustomerOrders {
  import opened Wrappers
  import opened Types

  datatype OrderStatus = PENDING | PROCESSED | SHIPPED | CANCELLED

  class CustomerOrder {
    var id: string
    var customerId: string
    var orderDate: string
    var orderItems: seq<OrderItem>
    var status: OrderStatus

    /** The status defaults to `PENDING` when none is given. */
    constructor (id: string, customerId: string, orderDate: string, orderItems: seq<OrderItem>, status: Option<OrderStatus>)
      ensures this.id == id && this.customerId == customerId && this.orderDate == orderDate && this.orderItems == orderItems
      ensures status.None? ==> this.status == PENDING
      ensures status.Some? ==> this.status == status.value
    {
      this.id := id;
      this.customerId := customerId;
      this.orderDate := orderDate;
      this.orderItems := orderItems;
      this.status := if status.Some? then status.value else PENDING;
    }

    /**
      `totalAmount`: the sum of quantity times unit price over the lines,
      from the seed 0; adding a line adds that line's amount.
    */
    function TotalAmount(): (total: int)
      reads this
      ensures orderItems == [] ==> total == 0
      ensures |orderItems| > 0 ==>
        var last := orderItems[|orderItems| - 1];
        total == LineTotal(orderItems[..|orderItems| - 1]) + last.quantity * last.unitPrice
      ensures (forall i | 0 <= i < |orderItems| :: orderItems[i].quantity >= 0 && orderItems[i].unitPrice >= 0) ==> total >= 0
    {
      LineTotalNonNegative(orderItems);
      LineTotal(orderItems)
    }

    /** `updateStatus`: only the status changes. */
    method UpdateStatus(newStatus: OrderStatus)
      modifies this
      ensures status == newStatus
      ensures id == old(id) && customerId == old(customerId) && orderDate == old(orderDate) && orderItems == old(orderItems)
    {
      status := newStatus;
    }
  }

  /** Two lines, 2 at 5 and 3 at 4, total 22; no lines total 0. */
  method TotalExample() returns (two: int, none: int)
    ensures two == 22 && none == 0
  {
    var o := new CustomerOrder("o1", "c1", "2024-01-01", [OrderItem("p1", 2, 5), OrderItem("p2", 3, 4)], None);
    assert o.orderItems[..1] == [OrderItem("p1", 2, 5)];
    assert o.orderItems[..1][..0] == [];
    two := o.TotalAmount();
    var e := new CustomerOrder("o2", "c1", "2024-01-01", [], None);
    none := e.TotalAmount();
  }
}

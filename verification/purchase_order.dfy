/**
  `PurchaseOrder` (src/models/PurchaseOrder/PurchaseOrder.ts): an order to
  a supplier with readonly id, supplier id and date, its lines and a status.
*/
module PurchaseOrders {
  import opened Wrappers
  import opened Types

  datatype PurchaseOrderStatus = Pending | Approved | Delivered | Canceled

  class PurchaseOrder {
    const id: string
    const supplierId: string
    const orderDate: string
    var items: seq<OrderItem>
    var status: PurchaseOrderStatus

    /** The status defaults to `Pending` when none is given. */
    constructor (id: string, supplierId: string, orderDate: string, items: seq<OrderItem>, status: Option<PurchaseOrderStatus>)
      ensures this.id == id && this.supplierId == supplierId && this.orderDate == orderDate && this.items == items
      ensures status.None? ==> this.status == Pending
      ensures status.Some? ==> this.status == status.value
    {
      this.id := id;
      this.supplierId := supplierId;
      this.orderDate := orderDate;
      this.items := items;
      this.status := if status.Some? then status.value else Pending;
    }

    /** `setStatus`: only the status changes; the lines are untouched. */
    method SetStatus(newStatus: PurchaseOrderStatus)
      modifies this
      ensures status == newStatus && items == old(items)
    {
      status := newStatus;
    }

    /**
      `getTotal`: the sum of quantity times unit price over the lines, from
      the seed 0, adding the last line last; never negative when no quantity
      or price is.
    */
    function GetTotal(): (total: int)
      reads this
      ensures items == [] ==> total == 0
      ensures |items| > 0 ==>
        var last := items[|items| - 1];
        total == LineTotal(items[..|items| - 1]) + last.quantity * last.unitPrice
      ensures (forall i | 0 <= i < |items| :: items[i].quantity >= 0 && items[i].unitPrice >= 0) ==> total >= 0
    {
      LineTotalNonNegative(items);
      LineTotal(items)
    }
  }
}

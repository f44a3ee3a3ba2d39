/**
  `PurchaseOrderRepository` (src/repository/PurchaseOrderRepository.ts):
  purchase order objects in a list, in the order they were saved.
*/
module PurchaseOrderRepositories {
  import Seqs
  import PurchaseOrders

  type PurchaseOrder = PurchaseOrders.PurchaseOrder

  /** The orders to one supplier, in save order. */
  function OfSupplier(orders: seq<PurchaseOrder>, supplierId: string): seq<PurchaseOrder>
  {
    Seqs.Filter(orders, (o: PurchaseOrder) => o.supplierId == supplierId)
  }

  /** The first position holding an order with this id, or -1. */
  function PositionOf(orders: seq<PurchaseOrder>, id: string): int
  {
    Seqs.FirstIndex(orders, (o: PurchaseOrder) => o.id == id)
  }

  class PurchaseOrderRepository {
    var orders: seq<PurchaseOrder>

    constructor ()
      ensures orders == []
    {
      orders := [];
    }

    /** `save`: the order goes to the end of the list. */
    method Save(order: PurchaseOrder)
      modifies this
      ensures orders == old(orders) + [order]
    {
      orders := orders + [order];
    }

    /** `getBySupplierId`: exactly the orders with that supplier id, in save order. */
    function GetBySupplierId(supplierId: string): (r: seq<PurchaseOrder>)
      reads this
      ensures forall o | o in r :: o in orders && o.supplierId == supplierId
      ensures forall o | o in orders && o.supplierId == supplierId :: o in r
    {
      OfSupplier(orders, supplierId)
    }

    /**
      `update`: the first order with the same id is replaced in place; the
      length and every other position stay. An unknown id changes nothing.
    */
    method Update(order: PurchaseOrder)
      modifies this
      ensures PositionOf(old(orders), order.id) == -1 ==> orders == old(orders)
      ensures PositionOf(old(orders), order.id) != -1 ==>
        && |orders| == |old(orders)|
        && orders[PositionOf(old(orders), order.id)] == order
        && forall j | 0 <= j < |orders| && j != PositionOf(old(orders), order.id) :: orders[j] == old(orders)[j]
    {
      var index := PositionOf(orders, order.id);
      if index != -1 {
        orders := orders[index := order];
      }
    }
  }

  /** Saving an order extends each supplier's query by that order exactly when it is theirs. */
  lemma SaveExtendsQuery(orders: seq<PurchaseOrder>, order: PurchaseOrder, supplierId: string)
    ensures OfSupplier(orders + [order], supplierId) ==
      OfSupplier(orders, supplierId) + if order.supplierId == supplierId then [order] else []
  {
    Seqs.FilterAppend(orders, order, (o: PurchaseOrder) => o.supplierId == supplierId);
  }
}

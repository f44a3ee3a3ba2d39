/**
  `OrderRepository` (src/repository/OrderRepository.ts): customer order
  records in a list, in the order they were saved.
*/
module OrderRepositories {
  import opened Types
  import Seqs

  /** The orders of one customer, in save order. */
  function OfCustomer(orders: seq<CustomerOrderRecord>, customerId: string): seq<CustomerOrderRecord>
  {
    Seqs.Filter(orders, (o: CustomerOrderRecord) => o.customerId == customerId)
  }

  /** The first position holding an order with this id, or -1. */
  function PositionOf(orders: seq<CustomerOrderRecord>, id: string): int
  {
    Seqs.FirstIndex(orders, (o: CustomerOrderRecord) => o.id == id)
  }

  class OrderRepository {
    var orders: seq<CustomerOrderRecord>

    constructor ()
      ensures orders == []
    {
      orders := [];
    }

    /** `save`: the order goes to the end of the list. */
    method Save(order: CustomerOrderRecord)
      modifies this
      ensures orders == old(orders) + [order]
    {
      orders := orders + [order];
    }

    /** `getByCustomerId`: exactly the orders with that customer id, in save order. */
    function GetByCustomerId(customerId: string): (r: seq<CustomerOrderRecord>)
      reads this
      ensures forall o | o in r :: o in orders && o.customerId == customerId
      ensures forall o | o in orders && o.customerId == customerId :: o in r
    {
      OfCustomer(orders, customerId)
    }

    /**
      `update`: the first order with the same id is replaced; the length and
      every other position stay. An unknown id changes nothing.
    */
    method Update(order: CustomerOrderRecord)
      modifies this
      ensures PositionOf(old(orders), order.id) == -1 ==> orders == old(orders)
      ensures PositionOf(old(orders), order.id) != -1 ==>
        && |orders| == |old(orders)|
        && orders[PositionOf(old(orders), order.id)] == order
        && forall j | 0 <= j < |orders| && j != PositionOf(old(orders), order.id) :: orders[j] == old(orders)[j]
    {
      var index := PositionOf(orders, order.id);
      if index != -1 {
        orders := orders[index := order];
      }
    }
  }

  /** Saving an order extends each customer's query by that order exactly when it is theirs. */
  lemma SaveExtendsQuery(orders: seq<CustomerOrderRecord>, order: CustomerOrderRecord, customerId: string)
    ensures OfCustomer(orders + [order], customerId) ==
      OfCustomer(orders, customerId) + if order.customerId == customerId then [order] else []
  {
    Seqs.FilterAppend(orders, order, (o: CustomerOrderRecord) => o.customerId == customerId);
  }

  /** The query over saved orders lists them in the order they were saved. */
  lemma {:induction false} QueryInSaveOrder(saved: seq<CustomerOrderRecord>, customerId: string)
    requires forall i | 0 <= i < |saved| :: saved[i].customerId == customerId
    ensures OfCustomer(saved, customerId) == saved
    decreases |saved|
  {
    if saved != [] {
      var n := |saved| - 1;
      QueryInSaveOrder(saved[..n], customerId);
      SaveExtendsQuery(saved[..n], saved[n], customerId);
      assert saved[..n] + [saved[n]] == saved;
    }
  }
}

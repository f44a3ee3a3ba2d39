/**
  `Product` (src/models/inventory/Product.ts): stock kept non-negative by
  `updateStock`, the reorder threshold test, and the list of supplier
  offers with unique supplier ids, price lookup and cost basis.

  The supplier list is the product's own array of `{ supplier, price }`
  records; suppliers are `Suppliers.Supplier` objects compared by id.
*/
module Inventory {
  import opened Wrappers
  import opened Types
  import Seqs
  import Suppliers

  /** One entry of the supplier list. */
  datatype SupplierOffer = SupplierOffer(supplier: Suppliers.Supplier, price: int)

  /** No two offers name the same supplier id. */
  predicate UniqueIds(offers: seq<SupplierOffer>)
  {
    forall i, j | 0 <= i < j < |offers| :: offers[i].supplier.id != offers[j].supplier.id
  }

  /** `findIndex` by supplier id: the first offer from supplier `id`, or -1. */
  function OfferIndex(offers: seq<SupplierOffer>, id: string): (i: int)
    ensures -1 <= i < |offers|
    ensures i == -1 <==> forall j | 0 <= j < |offers| :: offers[j].supplier.id != id
    ensures 0 <= i ==> offers[i].supplier.id == id && forall j | 0 <= j < i :: offers[j].supplier.id != id
  {
    Seqs.FirstIndex(offers, (o: SupplierOffer) => o.supplier.id == id)
  }

  /** The list after `addSupplier` succeeds. */
  function WithOffer(offers: seq<SupplierOffer>, supplier: Suppliers.Supplier, price: int): seq<SupplierOffer>
  {
    offers + [SupplierOffer(supplier, price)]
  }

  /**
    The list after `removeSupplier(id)` succeeds: the first offer from `id`
    spliced out, the offers before it and after it kept in their order.
  */
  function WithoutOffer(offers: seq<SupplierOffer>, id: string): (r: seq<SupplierOffer>)
    requires OfferIndex(offers, id) != -1
    ensures |r| == |offers| - 1
    ensures forall k | 0 <= k < |r| :: r[k] == if k < OfferIndex(offers, id) then offers[k] else offers[k + 1]
  {
    var i := OfferIndex(offers, id);
    offers[..i] + offers[i + 1..]
  }

  /** Appending an offer from a new supplier keeps the ids unique. */
  lemma WithOfferUnique(offers: seq<SupplierOffer>, supplier: Suppliers.Supplier, price: int)
    requires UniqueIds(offers) && OfferIndex(offers, supplier.id) == -1
    ensures UniqueIds(WithOffer(offers, supplier, price))
  {
  }

  /**
    Removing an offer keeps the ids unique, and with unique ids no offer
    from `id` remains.
  */
  lemma {:induction false} WithoutOfferUnique(offers: seq<SupplierOffer>, id: string)
    requires UniqueIds(offers) && OfferIndex(offers, id) != -1
    ensures UniqueIds(WithoutOffer(offers, id))
    ensures OfferIndex(WithoutOffer(offers, id), id) == -1
  {
    var i := OfferIndex(offers, id);
    var r := WithoutOffer(offers, id);
  }

  /** Removing the offer just added gives back the list it was added to. */
  lemma RemoveUndoesAdd(offers: seq<SupplierOffer>, supplier: Suppliers.Supplier, price: int)
    requires OfferIndex(offers, supplier.id) == -1
    ensures OfferIndex(WithOffer(offers, supplier, price), supplier.id) == |offers|
    ensures WithoutOffer(WithOffer(offers, supplier, price), supplier.id) == offers
  {
    var added := WithOffer(offers, supplier, price);
    assert added[|offers|].supplier.id == supplier.id;
    assert added[..|offers|] == offers;
  }

  /** `Math.min` over the offered prices of a non-empty list. */
  function MinPrice(offers: seq<SupplierOffer>): (m: int)
    requires |offers| > 0
    ensures exists i | 0 <= i < |offers| :: offers[i].price == m
    ensures forall i | 0 <= i < |offers| :: m <= offers[i].price
  {
    if |offers| == 1 then offers[0].price
    else
      var rest := MinPrice(offers[1..]);
      assert forall i | 1 <= i < |offers| :: offers[i] == offers[1..][i - 1];
      if offers[0].price <= rest then offers[0].price else rest
  }

  class Product {
    const id: string
    const name: string
    const description: string
    const category: string
    var basePrice: int
    var currentStock: int
    var minimumStockThreshold: int
    var suppliers: seq<SupplierOffer>

    /** Stores every field as given; nothing is checked. */
    constructor (id: string, name: string, description: string, category: string, basePrice: int,
                 currentStock: int, minimumStockThreshold: int, suppliers: seq<SupplierOffer>)
      ensures this.id == id && this.name == name && this.description == description && this.category == category
      ensures this.basePrice == basePrice && this.currentStock == currentStock
      ensures this.minimumStockThreshold == minimumStockThreshold && this.suppliers == suppliers
    {
      this.id := id;
      this.name := name;
      this.description := description;
      this.category := category;
      this.basePrice := basePrice;
      this.currentStock := currentStock;
      this.minimumStockThreshold := minimumStockThreshold;
      this.suppliers := suppliers;
    }

    /**
      `updateStock(amount)`: the stock moves by `amount` unless that would
      take it below zero, in which case it throws and the stock stays.
    */
    method UpdateStock(amount: int) returns (r: Outcome<Error>)
      modifies this
      ensures old(currentStock) + amount >= 0 ==> r == Pass && currentStock == old(currentStock) + amount
      ensures old(currentStock) + amount < 0 ==> r == Fail(DomainError("Stock cannot be negative")) && currentStock == old(currentStock)
      ensures old(currentStock) >= 0 ==> currentStock >= 0
      ensures basePrice == old(basePrice) && minimumStockThreshold == old(minimumStockThreshold) && suppliers == old(suppliers)
    {
      var newStock := currentStock + amount;
      if newStock < 0 {
        return Fail(DomainError("Stock cannot be negative"));
      }
      currentStock := newStock;
      r := Pass;
    }

    /**
      `applyDiscount(p)`: a percentage outside 0..100 throws and the price
      stays; otherwise the price drops by `p` percent, staying between 0 and
      the old price when it was not negative. The discount is rounded down,
      so the stored price is the exact one rounded up.
    */
    method ApplyDiscount(discountPercentage: int) returns (r: Outcome<Error>)
      modifies this
      ensures discountPercentage < 0 || discountPercentage > 100 ==>
        r == Fail(DomainError("Discount percentage must be between 0 and 100.")) && basePrice == old(basePrice)
      ensures 0 <= discountPercentage <= 100 ==>
        r == Pass && basePrice == old(basePrice) - (old(basePrice) * discountPercentage) / 100
      ensures 0 <= discountPercentage <= 100 && old(basePrice) >= 0 ==> 0 <= basePrice <= old(basePrice)
      ensures currentStock == old(currentStock) && minimumStockThreshold == old(minimumStockThreshold) && suppliers == old(suppliers)
    {
      if discountPercentage < 0 || discountPercentage > 100 {
        return Fail(DomainError("Discount percentage must be between 0 and 100."));
      }
      DiscountBounds(basePrice, discountPercentage);
      basePrice := basePrice - (basePrice * discountPercentage) / 100;
      r := Pass;
    }

    /** `isBelowThreshold`: time to reorder. */
    function IsBelowThreshold(): (below: bool)
      reads this
      ensures below <==> currentStock < minimumStockThreshold
    {
      currentStock < minimumStockThreshold
    }

    /**
      `getPrice(supplierId)`: with a truthy id, the price of the first offer
      from that supplier; the base price when there is no such offer or no id.
    */
    function GetPrice(supplierId: Option<string>): (price: int)
      reads this
      ensures supplierId.None? || supplierId.value == "" ==> price == basePrice
      ensures supplierId.Some? && (forall j | 0 <= j < |suppliers| :: suppliers[j].supplier.id != supplierId.value) ==> price == basePrice
      ensures supplierId.Some? && supplierId.value != "" && (exists j | 0 <= j < |suppliers| :: suppliers[j].supplier.id == supplierId.value) ==>
        exists i | 0 <= i < |suppliers| ::
          && suppliers[i].supplier.id == supplierId.value && price == suppliers[i].price
          && forall j | 0 <= j < i :: suppliers[j].supplier.id != supplierId.value
    {
      if supplierId.Some? && supplierId.value != "" then
        var i := OfferIndex(suppliers, supplierId.value);
        if i != -1 then suppliers[i].price else basePrice
      else basePrice
    }

    /**
      `addSupplier`: a supplier whose id is already listed throws and the list
      stays; otherwise the offer is appended, keeping the ids unique.
    */
    method AddSupplier(supplier: Suppliers.Supplier, price: int) returns (r: Outcome<Error>)
      modifies this
      ensures OfferIndex(old(suppliers), supplier.id) != -1 ==>
        r == Fail(DomainError("Supplier already exists for this product")) && suppliers == old(suppliers)
      ensures OfferIndex(old(suppliers), supplier.id) == -1 ==> r == Pass && suppliers == WithOffer(old(suppliers), supplier, price)
      ensures UniqueIds(old(suppliers)) ==> UniqueIds(suppliers)
      ensures basePrice == old(basePrice) && currentStock == old(currentStock) && minimumStockThreshold == old(minimumStockThreshold)
    {
      if OfferIndex(suppliers, supplier.id) != -1 {
        return Fail(DomainError("Supplier already exists for this product"));
      }
      if UniqueIds(suppliers) {
        WithOfferUnique(suppliers, supplier, price);
      }
      suppliers := suppliers + [SupplierOffer(supplier, price)];
      r := Pass;
    }

    /**
      `removeSupplier(id)`: splices out the first offer from `id`, keeping
      the order of the rest; throws when there is none.
    */
    method RemoveSupplier(supplierId: string) returns (r: Outcome<Error>)
      modifies this
      ensures OfferIndex(old(suppliers), supplierId) == -1 ==>
        r == Fail(DomainError("Supplier not found")) && suppliers == old(suppliers)
      ensures OfferIndex(old(suppliers), supplierId) != -1 ==> r == Pass && suppliers == WithoutOffer(old(suppliers), supplierId)
      ensures UniqueIds(old(suppliers)) ==> UniqueIds(suppliers) && OfferIndex(suppliers, supplierId) == -1
      ensures basePrice == old(basePrice) && currentStock == old(currentStock) && minimumStockThreshold == old(minimumStockThreshold)
    {
      var index := OfferIndex(suppliers, supplierId);
      if index == -1 {
        return Fail(DomainError("Supplier not found"));
      }
      if UniqueIds(suppliers) {
        WithoutOfferUnique(suppliers, supplierId);
      }
      suppliers := suppliers[..index] + suppliers[index + 1..];
      r := Pass;
    }

    /**
      `getCurrentCostBasis`: the stock valued at the cheapest offer, or at
      the base price when there are no offers.
    */
    function GetCurrentCostBasis(): (basis: int)
      reads this
      ensures |suppliers| == 0 ==> basis == basePrice * currentStock
      ensures |suppliers| > 0 ==> exists i | 0 <= i < |suppliers| ::
        && basis == suppliers[i].price * currentStock
        && forall j | 0 <= j < |suppliers| :: suppliers[i].price <= suppliers[j].price
    {
      var lowestPrice := if |suppliers| > 0 then MinPrice(suppliers) else basePrice;
      lowestPrice * currentStock
    }
  }

  /** A discount of 0..100 percent on a non-negative price keeps it between 0 and the old price. */
  lemma DiscountBounds(price: int, percentage: int)
    requires 0 <= percentage <= 100
    ensures price >= 0 ==> 0 <= price - (price * percentage) / 100 <= price
  {
    if price >= 0 {
      assert price * percentage <= price * 100;
      assert (price * percentage) / 100 <= price;
    }
  }

  /** With unique ids, `getPrice` of a listed supplier is that supplier's offer, wherever it sits. */
  lemma GetPriceOfListed(p: Product, i: int)
    requires 0 <= i < |p.suppliers| && UniqueIds(p.suppliers) && p.suppliers[i].supplier.id != ""
    ensures p.GetPrice(Some(p.suppliers[i].supplier.id)) == p.suppliers[i].price
  {
  }
}

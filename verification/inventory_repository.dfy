/**
  `InventoryRepository` (src/repository/InventoryRepository.ts): product
  lookup by id over an in-memory data source that hands out its own list,
  so every lookup sees the same product objects.
*/
module InventoryRepositories {
  import opened Wrappers
  import Seqs
  import Inventory

  type Product = Inventory.Product

  /** `InMemoryProductDataSource`: a list of products that `loadProducts` returns itself. */
  class ProductDataSource {
    var products: seq<Product>

    constructor (products: seq<Product>)
      ensures this.products == products
    {
      this.products := products;
    }
  }

  class InventoryRepository {
    const dataSource: ProductDataSource

    constructor (dataSource: ProductDataSource)
      ensures this.dataSource == dataSource
    {
      this.dataSource := dataSource;
    }

    /** `getById`: the first product with that id, or none; the list is not changed. */
    function GetById(productId: string): (r: Option<Product>)
      reads dataSource
      ensures r.None? <==> forall j | 0 <= j < |dataSource.products| :: dataSource.products[j].id != productId
      ensures r.Some? ==> exists i | 0 <= i < |dataSource.products| ::
        && dataSource.products[i] == r.value && r.value.id == productId
        && forall j | 0 <= j < i :: dataSource.products[j].id != productId
    {
      var i := Seqs.FirstIndex(dataSource.products, (p: Product) => p.id == productId);
      if i == -1 then None else Some(dataSource.products[i])
    }
  }

  /**
    Two lookups of the same id return the same object, so a stock change
    made through the first is what the second sees.
  */
  method LookupsShareProduct(repo: InventoryRepository, productId: string, amount: int) returns (first: Product, second: Product)
    requires repo.GetById(productId).Some?
    requires repo.GetById(productId).value.currentStock + amount >= 0
    modifies repo.GetById(productId).value
    ensures first == second
    ensures second.currentStock == old(repo.GetById(productId).value.currentStock) + amount
  {
    first := repo.GetById(productId).value;
    var _ := first.UpdateStock(amount);
    second := repo.GetById(productId).value;
  }
}

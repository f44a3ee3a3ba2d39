/**
  `SupplierRepository` (src/repository/SupplierRepository.ts): lookups and
  updates over the supplier list of an in-memory data source. The data
  source hands out its own array, so `update` writes into the data
  source's list.
*/
module SupplierRepositories {
  import opened Wrappers
  import opened Types
  import Seqs
  import Suppliers

  type Supplier = Suppliers.Supplier

  /** The first position holding a supplier with this id, or -1. */
  function PositionOf(suppliers: seq<Supplier>, id: string): int
  {
    Seqs.FirstIndex(suppliers, (s: Supplier) => s.id == id)
  }

  /** `InMemorySupplierDataSource`: a list of suppliers that `loadSuppliers` returns itself. */
  class SupplierDataSource {
    var suppliers: seq<Supplier>

    constructor (suppliers: seq<Supplier>)
      ensures this.suppliers == suppliers
    {
      this.suppliers := suppliers;
    }
  }

  class SupplierRepository {
    const dataSource: SupplierDataSource

    constructor (dataSource: SupplierDataSource)
      ensures this.dataSource == dataSource
    {
      this.dataSource := dataSource;
    }

    /** `getById`: the first supplier with that id, or none. */
    function GetById(supplierId: string): (r: Option<Supplier>)
      reads dataSource
      ensures r.None? <==> forall j | 0 <= j < |dataSource.suppliers| :: dataSource.suppliers[j].id != supplierId
      ensures r.Some? ==> exists i | 0 <= i < |dataSource.suppliers| ::
        && dataSource.suppliers[i] == r.value && r.value.id == supplierId
        && forall j | 0 <= j < i :: dataSource.suppliers[j].id != supplierId
    {
      var i := PositionOf(dataSource.suppliers, supplierId);
      if i == -1 then None else Some(dataSource.suppliers[i])
    }

    /**
      `update`: with no supplier of that id it throws and nothing changes;
      otherwise the first such slot of the data source's list is
      overwritten, the length and the other slots staying.
    */
    method Update(updated: Supplier) returns (r: Outcome<Error>)
      modifies dataSource
      ensures PositionOf(old(dataSource.suppliers), updated.id) == -1 ==>
        r == Fail(PlainError("Cannot update non-existent supplier")) && dataSource.suppliers == old(dataSource.suppliers)
      ensures PositionOf(old(dataSource.suppliers), updated.id) != -1 ==>
        && r == Pass
        && |dataSource.suppliers| == |old(dataSource.suppliers)|
        && dataSource.suppliers[PositionOf(old(dataSource.suppliers), updated.id)] == updated
        && forall j | 0 <= j < |dataSource.suppliers| && j != PositionOf(old(dataSource.suppliers), updated.id) ::
             dataSource.suppliers[j] == old(dataSource.suppliers)[j]
    {
      var suppliers := dataSource.suppliers;
      var index := PositionOf(suppliers, updated.id);
      if index == -1 {
        return Fail(PlainError("Cannot update non-existent supplier"));
      }
      dataSource.suppliers := suppliers[index := updated];
      r := Pass;
    }

    /**
      `updateSupplierPrice`: an unknown id throws "Supplier not found";
      otherwise the supplier found is the one whose price is to change.
    */
    method UpdateSupplierPrice(supplierId: string, newPrice: int) returns (r: Result<Supplier, Error>)
      ensures GetById(supplierId).None? ==> r == Failure(PlainError("Supplier not found"))
      ensures GetById(supplierId).Some? ==> r == Success(GetById(supplierId).value) && r.value.id == supplierId
    {
      var supplier := GetById(supplierId);
      if supplier.None? {
        return Failure(PlainError("Supplier not found"));
      }
      r := Success(supplier.value);
    }
  }

  /*
    The code as written: `getById` and `update` search with callbacks that
    call `getId()`, a method neither supplier class has (they expose the
    field `id`). The first supplier the search reaches throws a TypeError,
    so only an empty list lets the search finish. The repository's methods
    above match on `id`, as evidently intended.
  */

  /** `getById` as written: never finds a supplier, and throws on any non-empty list. */
  function GetByIdAsWritten(suppliers: seq<Supplier>, supplierId: string): (r: Result<Option<Supplier>, Error>)
    ensures !(r.Success? && r.value.Some?)
    ensures suppliers == [] ==> r == Success(None)
    ensures suppliers != [] ==> r.Failure? && r.error.TypeError?
  {
    if suppliers == [] then Success(None) else Failure(TypeError("supplier.getId is not a function"))
  }

  /** `update` as written: never updates; the "non-existent" error only on an empty list. */
  function UpdateAsWritten(suppliers: seq<Supplier>, updated: Supplier): (r: Outcome<Error>)
    ensures r.Fail?
    ensures r.error == PlainError("Cannot update non-existent supplier") <==> suppliers == []
    ensures suppliers != [] ==> r.error.TypeError?
  {
    if suppliers == [] then Fail(PlainError("Cannot update non-existent supplier"))
    else Fail(TypeError("existing.getId is not a function"))
  }

  /**
    `updateSupplierPrice` as written: its `getById` never finds a supplier,
    so it always throws, and "Supplier not found" only on an empty list.
  */
  function UpdateSupplierPriceAsWritten(suppliers: seq<Supplier>, supplierId: string): (r: Result<Supplier, Error>)
    ensures r.Failure?
    ensures r.error == PlainError("Supplier not found") <==> suppliers == []
  {
    var found := GetByIdAsWritten(suppliers, supplierId);
    if found.Failure? then Failure(found.error)
    else Failure(PlainError("Supplier not found"))
  }

  /**
    One supplier shows the gap: looked up by its own id, the code as written
    throws, while the search by `id` finds it first.
  */
  lemma GetByIdCounterexample(s: Supplier)
    ensures GetByIdAsWritten([s], s.id).Failure?
    ensures UpdateSupplierPriceAsWritten([s], s.id).error.TypeError?
    ensures PositionOf([s], s.id) == 0
  {
    assert [s][0].id == s.id;
  }

  /**
    The same supplier passed to `update`: the code as written throws, while
    the search by `id` finds the slot to overwrite.
  */
  lemma UpdateCounterexample(s: Supplier)
    ensures UpdateAsWritten([s], s).error.TypeError?
    ensures PositionOf([s], s.id) == 0
  {
    assert [s][0].id == s.id;
  }

  /** After a successful update, looking the id up finds the new supplier. */
  method UpdateThenGet(repo: SupplierRepository, updated: Supplier) returns (found: Option<Supplier>)
    requires PositionOf(repo.dataSource.suppliers, updated.id) != -1
    modifies repo.dataSource
    ensures found == Some(updated)
  {
    var _ := repo.Update(updated);
    found := repo.GetById(updated.id);
  }
}

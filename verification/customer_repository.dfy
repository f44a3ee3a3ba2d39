/**
  `CustomerRepository` (src/repository/CustomerRepository.ts): customers
  keyed by id in a `Map`, filled from an initial list.
*/
module CustomerRepositories {
  import opened Wrappers
  import opened Types
  import Customers

  type Customer = Customers.Customer

  /**
    `new Map(list.map(c => [c.id, c]))`: the entries set one after another,
    so with repeated ids the later customer wins.
  */
  function IndexById(list: seq<Customer>): map<string, Customer>
  {
    if list == [] then map[]
    else IndexById(list[..|list| - 1])[list[|list| - 1].id := list[|list| - 1]]
  }

  /** The position of the last customer with this id, or -1. */
  function LastIndexOf(list: seq<Customer>, id: string): (i: int)
    ensures -1 <= i < |list|
    ensures i == -1 ==> forall j | 0 <= j < |list| :: list[j].id != id
    ensures 0 <= i ==> list[i].id == id && forall j | i < j < |list| :: list[j].id != id
  {
    if list == [] then -1
    else if list[|list| - 1].id == id then |list| - 1
    else LastIndexOf(list[..|list| - 1], id)
  }

  /**
    An id is a key exactly when some customer in the list has it, and it
    maps to the last such customer.
  */
  lemma {:induction false} IndexLaterWins(list: seq<Customer>, id: string)
    ensures id in IndexById(list) <==> LastIndexOf(list, id) != -1
    ensures id in IndexById(list) ==> IndexById(list)[id] == list[LastIndexOf(list, id)]
    decreases |list|
  {
    if list != [] {
      var n := |list| - 1;
      IndexLaterWins(list[..n], id);
      if list[n].id != id && LastIndexOf(list, id) != -1 {
        assert list[..n][LastIndexOf(list, id)] == list[LastIndexOf(list, id)];
      }
    }
  }

  class CustomerRepository {
    var customers: map<string, Customer>

    /** Keys the initial customers by id, entry by entry. */
    constructor (initialCustomers: seq<Customer>)
      ensures customers == IndexById(initialCustomers)
    {
      var byId := map[];
      var i := 0;
      while i < |initialCustomers|
        invariant 0 <= i <= |initialCustomers|
        invariant byId == IndexById(initialCustomers[..i])
      {
        assert initialCustomers[..i + 1][..i] == initialCustomers[..i];
        byId := byId[initialCustomers[i].id := initialCustomers[i]];
        i := i + 1;
      }
      assert initialCustomers[..i] == initialCustomers;
      customers := byId;
    }

    /** `getById`: the customer stored under the id, or none. */
    function GetById(customerId: string): (r: Option<Customer>)
      reads this
      ensures r.Some? <==> customerId in customers
      ensures r.Some? ==> r.value == customers[customerId]
    {
      if customerId in customers then Some(customers[customerId]) else None
    }

    /** `save`: an id already present throws; otherwise exactly that entry is added. */
    method Save(customer: Customer) returns (r: Outcome<Error>)
      modifies this
      ensures customer.id in old(customers) ==> r == Fail(DomainError("Customer already exists")) && customers == old(customers)
      ensures customer.id !in old(customers) ==>
        r == Pass && customers == old(customers)[customer.id := customer] && customers.Keys == old(customers).Keys + {customer.id}
    {
      if customer.id in customers {
        return Fail(DomainError("Customer already exists"));
      }
      customers := customers[customer.id := customer];
      r := Pass;
    }

    /** `update`: an absent id throws; otherwise that entry is replaced and the keys stay. */
    method Update(customer: Customer) returns (r: Outcome<Error>)
      modifies this
      ensures customer.id !in old(customers) ==> r == Fail(DomainError("Cannot update non-existent customer")) && customers == old(customers)
      ensures customer.id in old(customers) ==>
        r == Pass && customers == old(customers)[customer.id := customer] && customers.Keys == old(customers).Keys
    {
      if customer.id !in customers {
        return Fail(DomainError("Cannot update non-existent customer"));
      }
      customers := customers[customer.id := customer];
      r := Pass;
    }
  }

  /** Saving a customer and reading it back by id gives that customer; saving it again fails. */
  method SaveThenGet(repo: CustomerRepository, customer: Customer) returns (found: Option<Customer>, again: Outcome<Error>)
    requires customer.id !in repo.customers
    modifies repo
    ensures found == Some(customer)
    ensures again == Fail(DomainError("Customer already exists"))
  {
    var _ := repo.Save(customer);
    found := repo.GetById(customer.id);
    again := repo.Save(customer);
  }
}

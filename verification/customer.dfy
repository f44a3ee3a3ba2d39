/**
  The validated `Customer` entity (src/models/Customer/Customer.ts): a
  readonly id and name and an e-mail address that only ever holds a value
  `validateEmail` accepts.
*/
module Customers {
  import opened Wrappers
  import opened Types
  import opened Validation

  class Customer {
    const id: string
    const name: string
    var email: string

    /** The entity invariant: the stored address passes `validateEmail`. */
    ghost predicate Valid()
      reads this
    {
      ValidateEmail(email)
    }

    /** The constructor on an address `setEmail` accepts; see `Create` for the other case. */
    constructor (id: string, name: string, email: string)
      requires ValidateEmail(email)
      ensures Valid() && this.id == id && this.name == name && this.email == email
    {
      this.id := id;
      this.name := name;
      this.email := email;
    }

    /**
      `new Customer(id, name, email)`: the constructor routes the address
      through `setEmail`, so an invalid one throws and no customer exists.
    */
    static method Create(id: string, name: string, email: string) returns (r: Result<Customer, Error>)
      ensures ValidateEmail(email) <==> r.Success?
      ensures r.Failure? ==> r.error == DomainError("Invalid email format.")
      ensures r.Success? ==> fresh(r.value) && r.value.Valid() && r.value.id == id && r.value.name == name && r.value.email == email
    {
      if !ValidateEmail(email) {
        return Failure(DomainError("Invalid email format."));
      }
      var c := new Customer(id, name, email);
      r := Success(c);
    }

    /** `setEmail`: an invalid address throws and changes nothing; a valid one is stored. */
    method SetEmail(newEmail: string) returns (r: Outcome<Error>)
      modifies this
      ensures ValidateEmail(newEmail) ==> r == Pass && email == newEmail
      ensures !ValidateEmail(newEmail) ==> r == Fail(DomainError("Invalid email format.")) && email == old(email)
      ensures old(Valid()) ==> Valid()
    {
      if !ValidateEmail(newEmail) {
        return Fail(DomainError("Invalid email format."));
      }
      email := newEmail;
      r := Pass;
    }

    /** `getEmail`: the stored address, which is always a valid one. */
    function GetEmail(): (e: string)
      reads this
      requires Valid()
      ensures ValidateEmail(e)
    {
      email
    }
  }
}

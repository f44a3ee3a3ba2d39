/**
  The draft `Customer` entity (src/models/Customer.ts), the one with
  shipping addresses and an order history. Its constructor stores the
  e-mail address unchecked; only `setEmail` validates.
*/
module DraftCustomers {
  import opened Wrappers
  import opened Types
  import opened Validation

  class Customer {
    const id: string
    const name: string
    var email: string
    var shippingAddresses: seq<ShippingAddress>
    var orderHistory: seq<OrderHistory>

    /** Stores the address without validating it; both lists start empty. */
    constructor (id: string, name: string, email: string)
      ensures this.id == id && this.name == name && this.email == email
      ensures shippingAddresses == [] && orderHistory == []
    {
      this.id := id;
      this.name := name;
      this.email := email;
      shippingAddresses := [];
      orderHistory := [];
    }

    /** `addShippingAddress`: appends exactly one address. */
    method AddShippingAddress(address: ShippingAddress)
      modifies this
      ensures shippingAddresses == old(shippingAddresses) + [address]
      ensures email == old(email) && orderHistory == old(orderHistory)
    {
      shippingAddresses := shippingAddresses + [address];
    }

    /** `setEmail`: an invalid address throws `InvalidEmailError` and changes nothing. */
    method SetEmail(newEmail: string) returns (r: Outcome<Error>)
      modifies this
      ensures ValidateEmail(newEmail) ==> r == Pass && email == newEmail
      ensures !ValidateEmail(newEmail) ==> r == Fail(InvalidEmailError("Invalid email format.")) && email == old(email)
      ensures shippingAddresses == old(shippingAddresses) && orderHistory == old(orderHistory)
    {
      if !ValidateEmail(newEmail) {
        return Fail(InvalidEmailError("Invalid email format."));
      }
      email := newEmail;
      r := Pass;
    }

    /** `placeOrder`: appends the order to the history, earlier entries untouched. */
    method PlaceOrder(order: OrderHistory)
      modifies this
      ensures orderHistory == old(orderHistory) + [order]
      ensures email == old(email) && shippingAddresses == old(shippingAddresses)
    {
      orderHistory := orderHistory + [order];
    }
  }

  /** A draft customer may hold an address `setEmail` would refuse: the constructor does not check. */
  method UncheckedConstruction() returns (stored: string, acceptedBySetter: bool)
    ensures stored == "not-an-email" && !acceptedBySetter
  {
    EmailRejectsNoAt("not-an-email");
    var c := new Customer("c1", "Ada", "not-an-email");
    stored := c.email;
    var r := c.SetEmail("not-an-email");
    acceptedBySetter := r.Pass?;
  }
}

/**
  The `Supplier` entity (src/models/Supplier/Supplier.ts): a readonly id and
  company name, a contact person, an e-mail address, a postal address that
  carries the phone number, and an order history.
*/
module Suppliers {
  import opened Wrappers
  import opened Types
  import opened Validation

  class Supplier {
    const id: string
    const name: string
    var contactPerson: string
    var email: string
    var address: PostalAddress
    var orderHistory: seq<OrderHistory>

    /** Stores every field as given, without validation; the history starts empty. */
    constructor (id: string, name: string, contactPerson: string, email: string, address: PostalAddress)
      ensures this.id == id && this.name == name && this.contactPerson == contactPerson
      ensures this.email == email && this.address == address && orderHistory == []
    {
      this.id := id;
      this.name := name;
      this.contactPerson := contactPerson;
      this.email := email;
      this.address := address;
      orderHistory := [];
    }

    /** `addOrderHistory`: appends exactly one entry. */
    method AddOrderHistory(order: OrderHistory)
      modifies this
      ensures orderHistory == old(orderHistory) + [order]
      ensures contactPerson == old(contactPerson) && email == old(email) && address == old(address)
    {
      orderHistory := orderHistory + [order];
    }

    /** `getPhoneNumber`: the phone number is the one inside the postal address. */
    function GetPhoneNumber(): (phone: string)
      reads this
      ensures phone == address.phoneNumber
    {
      address.phoneNumber
    }

    /** `setContactPerson`: overwritten without a check. */
    method SetContactPerson(newContactPerson: string)
      modifies this
      ensures contactPerson == newContactPerson
      ensures email == old(email) && address == old(address) && orderHistory == old(orderHistory)
    {
      contactPerson := newContactPerson;
    }

    /** `setEmail`: an invalid address throws `DomainError` and changes nothing. */
    method SetEmail(newEmail: string) returns (r: Outcome<Error>)
      modifies this
      ensures ValidateEmail(newEmail) ==> r == Pass && email == newEmail
      ensures !ValidateEmail(newEmail) ==> r == Fail(DomainError("Invalid email format.")) && email == old(email)
      ensures contactPerson == old(contactPerson) && address == old(address) && orderHistory == old(orderHistory)
    {
      if !ValidateEmail(newEmail) {
        return Fail(DomainError("Invalid email format."));
      }
      email := newEmail;
      r := Pass;
    }

    /**
      `setPhoneNumber`: an invalid number throws a plain `Error` and changes
      nothing; a valid one replaces the address by a copy whose phone number
      alone differs.
    */
    method SetPhoneNumber(newPhoneNumber: string) returns (r: Outcome<Error>)
      modifies this
      ensures ValidatePhoneNumber(newPhoneNumber) ==>
        && r == Pass
        && address.phoneNumber == newPhoneNumber
        && address.street == old(address.street) && address.city == old(address.city)
        && address.postalCode == old(address.postalCode) && address.country == old(address.country)
      ensures !ValidatePhoneNumber(newPhoneNumber) ==> r == Fail(PlainError("Invalid phone number format.")) && address == old(address)
      ensures contactPerson == old(contactPerson) && email == old(email) && orderHistory == old(orderHistory)
    {
      if !ValidatePhoneNumber(newPhoneNumber) {
        return Fail(PlainError("Invalid phone number format."));
      }
      address := address.(phoneNumber := newPhoneNumber);
      r := Pass;
    }

    /** `setAddress`: overwritten without a check, phone number included. */
    method SetAddress(newAddress: PostalAddress)
      modifies this
      ensures address == newAddress
      ensures contactPerson == old(contactPerson) && email == old(email) && orderHistory == old(orderHistory)
    {
      address := newAddress;
    }
  }

  /**
    A phone number set through `setPhoneNumber` is what `getPhoneNumber`
    reads back, and the rest of the address stays as it was.
  */
  method PhoneRoundTrip() returns (phone: string, street: string)
    ensures phone == "+44 1234-5678" && street == "1 High St"
  {
    var s := new Supplier("s1", "Acme", "Bob", "bob@acme.com", PostalAddress("1 High St", "Leeds", "LS1", "UK", "000"));
    Validation.PhoneAcceptsExample();
    var _ := s.SetPhoneNumber("+44 1234-5678");
    phone := s.GetPhoneNumber();
    street := s.address.street;
  }
}

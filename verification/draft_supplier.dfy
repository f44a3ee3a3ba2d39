/**
  The draft `Supplier` entity (src/models/Supplier.ts): like the other
  supplier, but with a phone number field of its own, and setters that
  throw `InvalidEmailError` for a bad e-mail address and for a bad phone
  number alike. Its private validators use the same two regular expressions
  as `ValidationUtils`, so they are `Validation.ValidateEmail` and
  `Validation.ValidatePhoneNumber` here.
*/
module DraftSuppliers {
  import opened Wrappers
  import opened Types
  import opened Validation

  class Supplier {
    const id: string
    const name: string
    var contactPerson: string
    var email: string
    var phoneNumber: string
    var address: PostalAddress
    var orderHistory: seq<OrderHistory>

    /** Stores every field as given, without validation; the history starts empty. */
    constructor (id: string, name: string, contactPerson: string, email: string, phoneNumber: string, address: PostalAddress)
      ensures this.id == id && this.name == name && this.contactPerson == contactPerson
      ensures this.email == email && this.phoneNumber == phoneNumber && this.address == address
      ensures orderHistory == []
    {
      this.id := id;
      this.name := name;
      this.contactPerson := contactPerson;
      this.email := email;
      this.phoneNumber := phoneNumber;
      this.address := address;
      orderHistory := [];
    }

    /** `addOrderHistory`: appends exactly one entry. */
    method AddOrderHistory(order: OrderHistory)
      modifies this
      ensures orderHistory == old(orderHistory) + [order]
      ensures contactPerson == old(contactPerson) && email == old(email) && phoneNumber == old(phoneNumber) && address == old(address)
    {
      orderHistory := orderHistory + [order];
    }

    /** `setContactPerson`: overwritten without a check. */
    method SetContactPerson(newContactPerson: string)
      modifies this
      ensures contactPerson == newContactPerson
      ensures email == old(email) && phoneNumber == old(phoneNumber) && address == old(address) && orderHistory == old(orderHistory)
    {
      contactPerson := newContactPerson;
    }

    /** `setEmail`: accepts exactly what the e-mail pattern matches; otherwise throws and changes nothing. */
    method SetEmail(newEmail: string) returns (r: Outcome<Error>)
      modifies this
      ensures EmailPattern(newEmail) ==> r == Pass && email == newEmail
      ensures !EmailPattern(newEmail) ==> r == Fail(InvalidEmailError("Invalid email format.")) && email == old(email)
      ensures contactPerson == old(contactPerson) && phoneNumber == old(phoneNumber) && address == old(address) && orderHistory == old(orderHistory)
    {
      ValidateEmailIsPattern(newEmail);
      if ValidateEmail(newEmail) {
        email := newEmail;
        r := Pass;
      } else {
        r := Fail(InvalidEmailError("Invalid email format."));
      }
    }

    /**
      `setPhoneNumber`: 8 to 20 digits, whitespace or `+-()` are stored;
      anything else throws, under the name `InvalidEmailError`, and changes
      nothing.
    */
    method SetPhoneNumber(newPhoneNumber: string) returns (r: Outcome<Error>)
      modifies this
      ensures (8 <= |newPhoneNumber| <= 20 && forall k | 0 <= k < |newPhoneNumber| :: IsPhoneChar(newPhoneNumber[k])) ==>
        r == Pass && phoneNumber == newPhoneNumber
      ensures !(8 <= |newPhoneNumber| <= 20 && forall k | 0 <= k < |newPhoneNumber| :: IsPhoneChar(newPhoneNumber[k])) ==>
        r == Fail(InvalidEmailError("Invalid phone number format.")) && phoneNumber == old(phoneNumber)
      ensures contactPerson == old(contactPerson) && email == old(email) && address == old(address) && orderHistory == old(orderHistory)
    {
      if ValidatePhoneNumber(newPhoneNumber) {
        phoneNumber := newPhoneNumber;
        r := Pass;
      } else {
        r := Fail(InvalidEmailError("Invalid phone number format."));
      }
    }

    /** `setAddress`: overwritten without a check; the separate phone number is untouched. */
    method SetAddress(newAddress: PostalAddress)
      modifies this
      ensures address == newAddress
      ensures contactPerson == old(contactPerson) && email == old(email) && phoneNumber == old(phoneNumber) && orderHistory == old(orderHistory)
    {
      address := newAddress;
    }
  }
}

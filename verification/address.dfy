/**
  `Address` (src/models/Supplier/Address.ts): street, city and country fixed
  at construction, an optional postal code that can be replaced, and the
  one-line rendering `getFullAddress`.
*/
module Addresses {
  import opened Wrappers

  /** The parts joined with ", " between neighbours, as a template literal writes them. */
  function Joined(parts: seq<string>): string
  {
    if |parts| == 0 then ""
    else if |parts| == 1 then parts[0]
    else Joined(parts[..|parts| - 1]) + ", " + parts[|parts| - 1]
  }

  /** A postal code is shown when it is truthy: present and not the empty string. */
  predicate Truthy(code: Option<string>)
  {
    code.Some? && code.value != ""
  }

  class Address {
    const street: string
    const city: string
    const country: string
    var postalCode: Option<string>

    constructor (street: string, city: string, country: string, postalCode: Option<string>)
      ensures this.street == street && this.city == city && this.country == country && this.postalCode == postalCode
    {
      this.street := street;
      this.city := city;
      this.country := country;
      this.postalCode := postalCode;
    }

    /** `setPostalCode`: only the postal code changes. */
    method SetPostalCode(code: Option<string>)
      modifies this
      ensures postalCode == code
    {
      postalCode := code;
    }

    /**
      `getFullAddress`: "street, city, country", followed by ", " and the
      postal code when the code is truthy.
    */
    function GetFullAddress(): (r: string)
      reads this
      ensures Truthy(postalCode) ==> r == Joined([street, city, country, postalCode.value])
      ensures !Truthy(postalCode) ==> r == Joined([street, city, country])
    {
      JoinedParts(street, city, country, if postalCode.Some? then postalCode.value else "");
      var base := street + ", " + city + ", " + country;
      if postalCode.Some? && postalCode.value != "" then base + ", " + postalCode.value else base
    }
  }

  /**
    Three and four parts joined: the rendering with a postal code extends
    the rendering without one by ", " and the code.
  */
  lemma JoinedParts(a: string, b: string, c: string, d: string)
    ensures Joined([a, b, c]) == a + ", " + b + ", " + c
    ensures Joined([a, b, c, d]) == Joined([a, b, c]) + ", " + d
  {
    assert [a, b, c, d][..3] == [a, b, c];
    assert [a, b, c][..2] == [a, b];
    assert [a, b][..1] == [a];
    assert Joined([a, b]) == a + ", " + b;
  }

  /** Setting the postal code to "LS1" adds it to the rendering; clearing it removes it again. */
  method PostalCodeRoundTrip() returns (withCode: string, without: string)
    ensures withCode == "1 High St, Leeds, UK, LS1" && without == "1 High St, Leeds, UK"
  {
    var a := new Address("1 High St", "Leeds", "UK", None);
    a.SetPostalCode(Some("LS1"));
    withCode := a.GetFullAddress();
    a.SetPostalCode(Some(""));
    without := a.GetFullAddress();
  }
}

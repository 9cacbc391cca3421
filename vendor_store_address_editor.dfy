/**
 * The editor twin of the address formatter (`formatAddress` in the
 * vendor-store-address block's script). It follows the PHP formatter's
 * order and grouping, but tests fields by JavaScript truthiness, where
 * "0" is a value, and answers "No address available" instead of "".
 */
module VendorStoreAddressEditor {
  import opened Wp
  import opened Dokan
  import opened BlockContext
  import VendorStoreAddress

  /** JavaScript truthiness of an optional string field: present and not "". */
  predicate Truthy(field: Option<string>) {
    field.Some? && field.value != ""
  }

  /** The text shown for a missing or field-less address. */
  const NoAddress: string := "No address available"

  /** The field as one part when it is truthy, else nothing. */
  function JsPart(field: Option<string>): (parts: seq<string>)
    ensures parts == [] <==> !Truthy(field)
    ensures parts != [] ==> parts == [field.value]
  {
    if Truthy(field) then [field.value] else []
  }

  /** The truthy street lines. */
  function JsStreetParts(a: Address): seq<string> {
    JsPart(a.street1) + JsPart(a.street2)
  }

  /** The truthy members of the city/state/zip group. */
  function JsCityStateZipParts(a: Address): seq<string> {
    JsPart(a.city) + JsPart(a.state) + JsPart(a.zip)
  }

  /** The truthy fields in the formatter's order: streets, city, state, zip, country. */
  function JsAddressParts(a: Address): seq<string> {
    JsStreetParts(a) + JsCityStateZipParts(a) + JsPart(a.country)
  }

  /** What `formatAddress` amounts to; None is a falsy address. */
  function FormattedAddressJs(address: Option<Address>): string {
    match address
    case None => NoAddress
    case Some(a) => if JsAddressParts(a) == [] then NoAddress else Join(", ", JsAddressParts(a))
  }

  /** `formatAddress`: the pushes into `parts` and `cityStateZip`, then the joins. */
  method FormatAddressJs(address: Option<Address>) returns (formatted: string)
    ensures formatted == FormattedAddressJs(address)
  {
    if address.None? {
      return NoAddress;
    }
    var a := address.value;
    var parts: seq<string> := [];
    if Truthy(a.street1) {
      parts := parts + [a.street1.value];
    }
    assert parts == JsPart(a.street1);
    if Truthy(a.street2) {
      parts := parts + [a.street2.value];
    }
    assert parts == JsStreetParts(a);
    var cityStateZip: seq<string> := [];
    if Truthy(a.city) {
      cityStateZip := cityStateZip + [a.city.value];
    }
    assert cityStateZip == JsPart(a.city);
    if Truthy(a.state) {
      cityStateZip := cityStateZip + [a.state.value];
    }
    assert cityStateZip == JsPart(a.city) + JsPart(a.state);
    if Truthy(a.zip) {
      cityStateZip := cityStateZip + [a.zip.value];
    }
    assert cityStateZip == JsCityStateZipParts(a);
    if |cityStateZip| > 0 {
      parts := parts + [Join(", ", cityStateZip)];
    }
    if Truthy(a.country) {
      parts := parts + [a.country.value];
    }
    assert parts == JsStreetParts(a) + (if |JsCityStateZipParts(a)| > 0 then [Join(", ", JsCityStateZipParts(a))] else [])
                    + JsPart(a.country);
    JsGroupsFlatten(a);
    formatted := if |parts| > 0 then Join(", ", parts) else NoAddress;
  }

  /** Joining the streets, the joined group and the country is joining the truthy fields. */
  lemma JsGroupsFlatten(a: Address)
    ensures var group := if |JsCityStateZipParts(a)| > 0 then [Join(", ", JsCityStateZipParts(a))] else [];
            var parts := JsStreetParts(a) + group + JsPart(a.country);
            (|parts| > 0 <==> JsAddressParts(a) != []) && Join(", ", parts) == Join(", ", JsAddressParts(a))
  {
    if |JsCityStateZipParts(a)| > 0 {
      JoinFlatten(", ", JsStreetParts(a), JsCityStateZipParts(a), JsPart(a.country));
    } else {
      assert JsStreetParts(a) + [] + JsPart(a.country) == JsAddressParts(a);
    }
  }

  /** A field no value of which is the string "0" is set for PHP exactly when it is truthy for JavaScript. */
  lemma PartsAgree(field: Option<string>)
    requires field != Some("0")
    ensures JsPart(field) == VendorStoreAddress.Part(field)
  {
  }

  /**
   * Without a "0" field the two formatters agree whenever some field is set:
   * the same parts, in the same order, joined the same way.
   */
  lemma EditorAgreesWithServer(a: Address)
    requires a.street1 != Some("0") && a.street2 != Some("0") && a.city != Some("0")
    requires a.state != Some("0") && a.zip != Some("0") && a.country != Some("0")
    ensures JsAddressParts(a) == VendorStoreAddress.AddressParts(a)
    ensures VendorStoreAddress.AddressParts(a) != [] ==>
              FormattedAddressJs(Some(a)) == VendorStoreAddress.FormattedAddress(a)
    ensures VendorStoreAddress.AddressParts(a) == [] ==>
              FormattedAddressJs(Some(a)) == NoAddress && VendorStoreAddress.FormattedAddress(a) == ""
  {
    PartsAgree(a.street1);
    PartsAgree(a.street2);
    PartsAgree(a.city);
    PartsAgree(a.state);
    PartsAgree(a.zip);
    PartsAgree(a.country);
  }

  /** Where they part: a zip of "0" is shown by the editor and dropped by the server. */
  lemma ZeroZipDiffers()
    ensures var a := Address(None, None, None, None, Some("0"), None);
            FormattedAddressJs(Some(a)) == "0" && VendorStoreAddress.FormattedAddress(a) == ""
  {
    var a := Address(None, None, None, None, Some("0"), None);
    assert JsAddressParts(a) == ["0"];
    assert VendorStoreAddress.AddressParts(a) == [];
  }

  /** The editor never shows an empty address: its text is always a non-empty string. */
  lemma FormattedAddressJsNonEmpty(address: Option<Address>)
    ensures FormattedAddressJs(address) != ""
  {
    if address.Some? && JsAddressParts(address.value) != [] {
      var parts := JsAddressParts(address.value);
      assert parts[0] != "";
      assert Join(", ", parts)[0] == parts[0][0];
    }
  }

  /**
   * The object `Edit` passes (`vendor.address || {}`): the address fields of
   * an array address, and an object without those fields for anything else.
   */
  function EditAddress(vendor: Option<ContextVendor>): Address {
    if vendor.Some? && vendor.value.address.Some? && vendor.value.address.value.AddressFields?
    then vendor.value.address.value.fields
    else Address(None, None, None, None, None, None)
  }

  /**
   * What `Edit` shows: `formatAddress` always receives an object, so the
   * falsy-address branch is never taken; the text is never empty, and a
   * vendor without an array address reads "No address available".
   */
  function EditText(vendor: Option<ContextVendor>): (text: string)
    ensures text != ""
    ensures !(vendor.Some? && vendor.value.address.Some? && vendor.value.address.value.AddressFields?) ==>
              text == NoAddress
    ensures vendor.Some? && vendor.value.address.Some? && vendor.value.address.value.AddressFields? ==>
              text == FormattedAddressJs(Some(vendor.value.address.value.fields))
  {
    FormattedAddressJsNonEmpty(Some(EditAddress(vendor)));
    FormattedAddressJs(Some(EditAddress(vendor)))
  }
}

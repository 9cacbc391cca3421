/**
 * The vendor-store-address block: `dokan_blocks_format_address` and the
 * render that picks the vendor and dispatches on the type of its address.
 */
module VendorStoreAddress {
  import opened Wp
  import opened Dokan
  import opened VendorRenderer
  import opened BlockContext

  /** The field as one part when PHP `empty()` says it is set, else nothing. */
  function Part(field: Option<string>): (parts: seq<string>)
    ensures |parts| <= 1
    ensures parts == [] <==> EmptyOpt(field)
    ensures parts != [] ==> parts[0] == field.value && !Empty(parts[0])
  {
    if EmptyOpt(field) then [] else [field.value]
  }

  /** The set street lines. */
  function StreetParts(a: Address): seq<string> {
    Part(a.street1) + Part(a.street2)
  }

  /** The set members of the city/state/zip group. */
  function CityStateZipParts(a: Address): seq<string> {
    Part(a.city) + Part(a.state) + Part(a.zip)
  }

  /** The set fields in the formatter's order: streets, city, state, zip, country. */
  function AddressParts(a: Address): (parts: seq<string>)
    ensures forall i :: 0 <= i < |parts| ==> !Empty(parts[i])
    ensures parts == [] <==> EmptyOpt(a.street1) && EmptyOpt(a.street2) && EmptyOpt(a.city)
                             && EmptyOpt(a.state) && EmptyOpt(a.zip) && EmptyOpt(a.country)
  {
    StreetParts(a) + CityStateZipParts(a) + Part(a.country)
  }

  /** What the formatter amounts to: the set fields, in order, joined by ", ". */
  function FormattedAddress(a: Address): string {
    Join(", ", AddressParts(a))
  }

  /**
   * `dokan_blocks_format_address`: the streets, then the city/state/zip group
   * joined on its own, then the country. Because both joins use ", ", the
   * grouping leaves no trace in the result.
   */
  method FormatAddress(a: Address) returns (formatted: string)
    ensures formatted == FormattedAddress(a)
  {
    var parts: seq<string> := [];
    if !EmptyOpt(a.street1) {
      parts := parts + [a.street1.value];
    }
    assert parts == Part(a.street1);
    if !EmptyOpt(a.street2) {
      parts := parts + [a.street2.value];
    }
    assert parts == StreetParts(a);
    var cityStateZip: seq<string> := [];
    if !EmptyOpt(a.city) {
      cityStateZip := cityStateZip + [a.city.value];
    }
    assert cityStateZip == Part(a.city);
    if !EmptyOpt(a.state) {
      cityStateZip := cityStateZip + [a.state.value];
    }
    assert cityStateZip == Part(a.city) + Part(a.state);
    if !EmptyOpt(a.zip) {
      cityStateZip := cityStateZip + [a.zip.value];
    }
    assert cityStateZip == CityStateZipParts(a);
    if |cityStateZip| > 0 {
      parts := parts + [Join(", ", cityStateZip)];
    }
    if !EmptyOpt(a.country) {
      parts := parts + [a.country.value];
    }
    assert parts == StreetParts(a) + (if |CityStateZipParts(a)| > 0 then [Join(", ", CityStateZipParts(a))] else [])
                    + Part(a.country);
    FormatGroupsFlatten(a);
    formatted := if |parts| > 0 then Join(", ", parts) else "";
  }

  /** Joining the streets, the joined group and the country is joining the set fields. */
  lemma FormatGroupsFlatten(a: Address)
    ensures var group := if |CityStateZipParts(a)| > 0 then [Join(", ", CityStateZipParts(a))] else [];
            Join(", ", StreetParts(a) + group + Part(a.country)) == FormattedAddress(a)
  {
    if |CityStateZipParts(a)| > 0 {
      JoinFlatten(", ", StreetParts(a), CityStateZipParts(a), Part(a.country));
    } else {
      assert StreetParts(a) + [] + Part(a.country) == AddressParts(a);
    }
  }

  /** The formatted address is PHP-empty exactly when every field is. */
  lemma FormattedAddressEmpty(a: Address)
    ensures Empty(FormattedAddress(a)) <==>
              EmptyOpt(a.street1) && EmptyOpt(a.street2) && EmptyOpt(a.city)
              && EmptyOpt(a.state) && EmptyOpt(a.zip) && EmptyOpt(a.country)
  {
    var parts := AddressParts(a);
    if |parts| > 0 {
      JoinOfNonEmpty(", ", parts);
    }
  }

  /** A city with a state and nothing else reads "city, state". */
  lemma CityAndState(city: string, state: string)
    requires !Empty(city) && !Empty(state)
    ensures FormattedAddress(Address(None, None, Some(city), Some(state), None, None)) == city + ", " + state
  {
    var a := Address(None, None, Some(city), Some(state), None, None);
    assert StreetParts(a) == [] && Part(a.country) == [];
    assert CityStateZipParts(a) == [city] + [state] + [];
    assert AddressParts(a) == [city, state];
    assert [city, state][1..] == [state];
    assert Join(", ", [state]) == state;
    assert Join(", ", [city, state]) == city + ", " + Join(", ", [state]);
  }

  /** The fixed paragraph shown when no vendor resolves. */
  const PlaceholderText: string := "123 Main St, City, Country"

  /** What the block renders. */
  datatype AddressOutput =
    | Placeholder(text: string)
    | NoOutput
    | AddressParagraph(showIcon: bool, address: string)

  /** The detection fallback keeps `id` and the short address string. */
  function Project(d: VendorData): (v: ContextVendor)
    ensures v.id == Some(d.id)
  {
    NoKeys.(id := Some(d.id), address := Some(AddressText(d.address)))
  }

  /**
   * The address text of a vendor array: an array address is formatted, a
   * string is used as it is, anything else gives "" (a missing key is an
   * empty array).
   */
  function DisplayedAddress(v: ContextVendor): (text: string)
    ensures v.address.None? ==> text == ""
    ensures v.address.Some? && v.address.value.AddressFields? ==> text == FormattedAddress(v.address.value.fields)
    ensures v.address.Some? && v.address.value.AddressText? ==> text == v.address.value.text
    ensures v.address == Some(AddressOther) ==> text == ""
  {
    match v.address
    case None => ""
    case Some(AddressFields(a)) => FormattedAddress(a)
    case Some(AddressText(t)) => t
    case Some(AddressOther) => ""
  }

  /** `theabd_render_vendor_store_address_block`. */
  function Render(context: Option<ContextVendor>, m: Market, r: Request, showIcon: Option<bool>): (out: AddressOutput)
    ensures VendorFor(context, m, r, Project).None? <==> out == Placeholder(PlaceholderText)
    ensures out == NoOutput <==>
              VendorFor(context, m, r, Project).Some? && Empty(DisplayedAddress(VendorFor(context, m, r, Project).value))
    ensures out.AddressParagraph? ==>
              out.address == DisplayedAddress(VendorFor(context, m, r, Project).value)
              && (out.showIcon <==> showIcon.GetOr(true))
  {
    match VendorFor(context, m, r, Project)
    case None => Placeholder(PlaceholderText)
    case Some(v) =>
      var text := DisplayedAddress(v);
      if Empty(text) then NoOutput else AddressParagraph(showIcon.GetOr(true), text)
  }

  /** A vendor from the store query loop shows its address fields, or nothing when none is set. */
  lemma LoopVendorShowsFormattedAddress(v: VendorObject, m: Market, r: Request, showIcon: Option<bool>)
    requires v.id != 0
    ensures var out := Render(Some(ToArray(v)), m, r, showIcon);
            out == NoOutput || out == AddressParagraph(showIcon.GetOr(true), FormattedAddress(v.address))
    ensures Render(Some(ToArray(v)), m, r, showIcon) == NoOutput <==>
              EmptyOpt(v.address.street1) && EmptyOpt(v.address.street2) && EmptyOpt(v.address.city)
              && EmptyOpt(v.address.state) && EmptyOpt(v.address.zip) && EmptyOpt(v.address.country)
  {
    FormattedAddressEmpty(v.address);
  }
}

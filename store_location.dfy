/**
 * The store-location block: reading a vendor's location (a "lat,lng"
 * string or an array), the emptiness gate, the attribute defaults, and the
 * choice between Dokan's map template, a Mapbox or Google embed, and
 * nothing.
 */
module StoreLocation {
  import opened Wp
  import opened Dokan
  import opened ContextDetector

  /** PHP `empty()` of the address value; an array is empty without keys, any other non-string type is not. */
  predicate EmptyAddress(a: Option<AddressValue>) {
    match a
    case None => true
    case Some(AddressText(t)) => Empty(t)
    case Some(AddressFields(f)) => f == Address(None, None, None, None, None, None)
    case Some(AddressOther) => false
  }

  /** The coordinates and address the block works from. */
  datatype Place = Place(lat: string, lng: string, address: Option<AddressValue>)

  /**
   * The parsing step. A string holding a comma is split at its first comma
   * and both halves are trimmed; an array gives `lat ?? latitude`,
   * `lng ?? longitude` and an address overriding the shop's; anything else
   * leaves the coordinates empty.
   */
  function ParsePlace(location: LocationValue, shopAddress: Option<AddressValue>): (p: Place)
    ensures location.LocationText? && ',' in location.text ==>
              var parts := SplitOnce(',', location.text);
              p == Place(Trim(parts.0), Trim(parts.1), shopAddress)
    ensures location.LocationText? && ',' !in location.text ==> p == Place("", "", shopAddress)
    ensures location.LocationFields? ==>
              p.lat == (if location.lat.Some? then location.lat.value else location.latitude.GetOr(""))
              && p.lng == (if location.lng.Some? then location.lng.value else location.longitude.GetOr(""))
              && p.address == (if location.address.Some? then location.address else shopAddress)
  {
    match location
    case LocationText(text) =>
      ContainsChar(text, ',');
      if Contains(text, [',']) then
        var parts := SplitOnce(',', text);
        Place(Trim(parts.0), Trim(parts.1), shopAddress)
      else Place("", "", shopAddress)
    case LocationFields(lat, latitude, lng, longitude, address) =>
      Place(if lat.Some? then lat.value else latitude.GetOr(""),
            if lng.Some? then lng.value else longitude.GetOr(""),
            if address.Some? then address else shopAddress)
  }

  /** "lat,lng" reads back as the two trimmed coordinates, whatever the second one holds. */
  lemma ParseCoordinates(lat: string, lng: string, shopAddress: Option<AddressValue>)
    requires ',' !in lat
    ensures ParsePlace(LocationText(lat + "," + lng), shopAddress) == Place(Trim(lat), Trim(lng), shopAddress)
  {
    SplitOnceUnique(',', lat, lng);
    assert lat + "," + lng == lat + [','] + lng;
  }

  /** A place with nothing to show. */
  predicate EmptyPlace(p: Place) {
    EmptyAddress(p.address) && Empty(p.lat) && Empty(p.lng)
  }

  /** The block's attributes. */
  datatype LocationAttributes = LocationAttributes(
    vendorId: Option<int>, mapProvider: Option<string>, height: Option<int>, zoom: Option<int>)

  /** The provider, height and zoom after defaults: google, 400 and 10. */
  function Provider(a: LocationAttributes): string { a.mapProvider.GetOr("google") }
  function Height(a: LocationAttributes): nat { if a.height.Some? then Absint(a.height.value) else 400 }
  function Zoom(a: LocationAttributes): nat { if a.zoom.Some? then Absint(a.zoom.value) else 10 }

  /** What the block renders. */
  datatype LocationOutput =
    | NoOutput
    /** Dokan's `widgets/store-map` template part, given the raw location. */
    | DokanMap(wrapperClass: string, wrapperStyle: string, location: LocationValue, provider: string,
               height: nat, zoom: nat)
    | MapboxEmbed(wrapperClass: string, wrapperStyle: string, lat: string, lng: string, zoom: nat,
                  height: nat, token: string)
    | GoogleEmbed(wrapperClass: string, wrapperStyle: string, apiKey: string, address: Option<AddressValue>,
                  zoom: nat, height: nat)

  /** The vendor whose location is shown: the non-empty `vendorId` attribute, else the detected vendor; 0 is none. */
  function LocationVendorId(m: Market, r: Request, vendorIdAttr: Option<int>): (id: int)
    ensures vendorIdAttr.Some? && vendorIdAttr.value != 0 ==> id == Absint(vendorIdAttr.value)
    ensures (vendorIdAttr.None? || vendorIdAttr.value == 0) ==> id == GetVendorId(m, r).GetOr(0)
  {
    if vendorIdAttr.Some? && vendorIdAttr.value != 0 then Absint(vendorIdAttr.value)
    else GetVendorId(m, r).GetOr(0)
  }

  /** The vendor object, when the id is a seller with one, and its location is non-empty. */
  function LocatedVendor(m: Market, r: Request, vendorIdAttr: Option<int>): (v: Option<VendorObject>)
    ensures var id := LocationVendorId(m, r, vendorIdAttr);
            v.Some? <==> id != 0 && m.IsSeller(id) && id in m.vendors && !EmptyLocation(m.vendors[id].location)
    ensures v.Some? ==> v.value == m.vendors[LocationVendorId(m, r, vendorIdAttr)]
  {
    var id := LocationVendorId(m, r, vendorIdAttr);
    if id == 0 || !m.IsSeller(id) || id !in m.vendors then None
    else if EmptyLocation(m.vendors[id].location) then None
    else Some(m.vendors[id])
  }

  /** `dokan_render_store_location_block`. */
  function Render(m: Market, r: Request, a: LocationAttributes): (out: LocationOutput)
    ensures LocatedVendor(m, r, a.vendorId).None? ==> out == NoOutput
    ensures var v := LocatedVendor(m, r, a.vendorId);
            v.Some? && EmptyPlace(ParsePlace(v.value.location, v.value.shopInfo.address)) ==> out == NoOutput
    ensures out.DokanMap? <==> LocatedVendor(m, r, a.vendorId).Some?
                               && !EmptyPlace(ParsePlace(LocatedVendor(m, r, a.vendorId).value.location,
                                                         LocatedVendor(m, r, a.vendorId).value.shopInfo.address))
                               && "dokan_get_template_part" in m.functions
    ensures out.DokanMap? ==>
              out.location == LocatedVendor(m, r, a.vendorId).value.location
              && out.provider == Provider(a) && out.height == Height(a) && out.zoom == Zoom(a)
    ensures var v := LocatedVendor(m, r, a.vendorId);
            out.MapboxEmbed? <==>
              v.Some? && "dokan_get_template_part" !in m.functions && Provider(a) == "mapbox"
              && (var p := ParsePlace(v.value.location, v.value.shopInfo.address);
                  !EmptyPlace(p) && !Empty(p.lat) && !Empty(p.lng)) && !Empty(m.mapboxToken)
    ensures out.MapboxEmbed? ==>
              var v := LocatedVendor(m, r, a.vendorId).value;
              var p := ParsePlace(v.location, v.shopInfo.address);
              out.lat == p.lat && out.lng == p.lng && out.token == m.mapboxToken
              && out.zoom == Zoom(a) && out.height == Height(a)
    ensures var v := LocatedVendor(m, r, a.vendorId);
            out.GoogleEmbed? <==>
              v.Some? && "dokan_get_template_part" !in m.functions && Provider(a) == "google"
              && !EmptyPlace(ParsePlace(v.value.location, v.value.shopInfo.address))
    ensures out.GoogleEmbed? ==>
              var v := LocatedVendor(m, r, a.vendorId).value;
              out.apiKey == m.googleApiKey && out.address == ParsePlace(v.location, v.shopInfo.address).address
              && out.zoom == Zoom(a) && out.height == Height(a)
    ensures !out.NoOutput? ==>
              out.wrapperClass == "dokan-store-location dokan-store-location-" + Provider(a)
              && out.wrapperStyle == "height: " + DecimalString(Height(a)) + "px;"
  {
    match LocatedVendor(m, r, a.vendorId)
    case None => NoOutput
    case Some(v) =>
      var p := ParsePlace(v.location, v.shopInfo.address);
      if EmptyPlace(p) then NoOutput
      else
        var provider := Provider(a);
        var wrapperClass := "dokan-store-location dokan-store-location-" + provider;
        var wrapperStyle := "height: " + DecimalString(Height(a)) + "px;";
        if "dokan_get_template_part" in m.functions then
          DokanMap(wrapperClass, wrapperStyle, v.location, provider, Height(a), Zoom(a))
        else if provider == "mapbox" && !Empty(p.lat) && !Empty(p.lng) then
          if !Empty(m.mapboxToken) then MapboxEmbed(wrapperClass, wrapperStyle, p.lat, p.lng, Zoom(a), Height(a), m.mapboxToken)
          else NoOutput
        else if provider == "google" then
          GoogleEmbed(wrapperClass, wrapperStyle, m.googleApiKey, p.address, Zoom(a), Height(a))
        else NoOutput
  }

  /** Without Dokan's template the Google embed is shown for any non-empty place, API key or not. */
  lemma GoogleAlwaysRenders(m: Market, r: Request, a: LocationAttributes)
    requires "dokan_get_template_part" !in m.functions && Provider(a) == "google"
    requires LocatedVendor(m, r, a.vendorId).Some?
    requires var v := LocatedVendor(m, r, a.vendorId).value;
             !EmptyPlace(ParsePlace(v.location, v.shopInfo.address))
    ensures Render(m, r, a).GoogleEmbed?
  {
  }

  /** Without Dokan's template, Mapbox with no token renders nothing, even with coordinates. */
  lemma MapboxNeedsToken(m: Market, r: Request, a: LocationAttributes)
    requires "dokan_get_template_part" !in m.functions && Provider(a) == "mapbox" && Empty(m.mapboxToken)
    ensures Render(m, r, a) == NoOutput
  {
  }

  /** A seller whose location is "lat,lng" with both halves blank around the comma shows nothing without an address. */
  lemma BlankCoordinatesHide(m: Market, r: Request, a: LocationAttributes)
    requires LocatedVendor(m, r, a.vendorId).Some?
    requires var v := LocatedVendor(m, r, a.vendorId).value;
             v.location == LocationText(" , ") && EmptyAddress(v.shopInfo.address)
    ensures Render(m, r, a) == NoOutput
  {
    var v := LocatedVendor(m, r, a.vendorId).value;
    ParseCoordinates(" ", " ", v.shopInfo.address);
    assert " " + "," + " " == " , ";
    TrimOfSpace();
    assert EmptyPlace(ParsePlace(v.location, v.shopInfo.address));
  }
}

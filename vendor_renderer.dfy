/**
 * The bridge from a vendor id to the record the blocks render from.
 * Every accessor fails closed: id 0, a non-seller or a missing vendor
 * object give no record (or an empty string).
 */
module VendorRenderer {
  import opened Wp
  import opened Dokan

  /** The record `Vendor_Renderer::get_vendor_data` returns: exactly these twelve keys. */
  datatype VendorData = VendorData(
    id: int,
    shopName: string,
    shopUrl: string,
    avatar: string,
    banner: string,
    phone: string,
    email: string,
    address: string,
    rating: Rating,
    socialProfiles: map<string, string>,
    storeInfo: ShopInfo,
    isFeatured: bool)

  /** `Vendor_Renderer::get_vendor_data`. */
  function GetVendorData(m: Market, vendorId: int): (d: Option<VendorData>)
    ensures d.Some? <==> vendorId != 0 && m.IsSeller(vendorId) && vendorId in m.vendors
    ensures d.Some? ==> d.value.id == vendorId
    ensures d.Some? ==> d.value.email == (if m.vendors[vendorId].showEmail then m.vendors[vendorId].email else "")
    ensures d.Some? ==> d.value.shopName == m.vendors[vendorId].shopName
                        && d.value.storeInfo == m.vendors[vendorId].shopInfo
  {
    if vendorId == 0 || !m.IsSeller(vendorId) then None
    else if vendorId !in m.vendors then None
    else
      var v := m.vendors[vendorId];
      Some(VendorData(
        vendorId, v.shopName, v.shopUrl, v.avatar, v.banner, v.phone,
        if v.showEmail then v.email else "",
        v.shortAddress, v.rating, v.socialProfiles, v.shopInfo, v.featured))
  }

  /** The email is withheld whenever the vendor hides it, whatever address is on file. */
  lemma HiddenEmailNeverLeaks(m: Market, vendorId: int, email: string)
    requires vendorId in m.vendors && !m.vendors[vendorId].showEmail
    ensures var m2 := m.(vendors := m.vendors[vendorId := m.vendors[vendorId].(email := email)]);
            GetVendorData(m2, vendorId).Some? ==> GetVendorData(m2, vendorId).value.email == ""
  {
  }

  /** `Vendor_Renderer::get_store_url` (URL escaping is the identity here). */
  function GetStoreUrl(m: Market, vendorId: int): (url: string)
    ensures vendorId == 0 || !m.IsSeller(vendorId) || vendorId !in m.vendors ==> url == ""
    ensures GetVendorData(m, vendorId).Some? ==> url == GetVendorData(m, vendorId).value.shopUrl
  {
    if vendorId == 0 || !m.IsSeller(vendorId) then ""
    else if vendorId !in m.vendors then ""
    else m.vendors[vendorId].shopUrl
  }

  /** `Vendor_Renderer::is_vendor_info_hidden`. */
  predicate IsVendorInfoHidden(m: Market, field: string): (hidden: bool)
    ensures hidden <==> field in m.hiddenInfo
  {
    field in m.hiddenInfo
  }

  /** `Vendor_Renderer::get_seller_rating_html`; the readable rating is "" where Dokan has none. */
  function GetSellerRatingHtml(m: Market, vendorId: int): (html: string)
    ensures vendorId == 0 || !m.IsSeller(vendorId) ==> html == ""
    ensures vendorId != 0 && m.IsSeller(vendorId) && vendorId in m.readableRating ==>
              html == m.readableRating[vendorId]
  {
    if vendorId == 0 || !m.IsSeller(vendorId) then ""
    else if vendorId in m.readableRating then m.readableRating[vendorId]
    else ""
  }

  /** `Vendor_Renderer::is_store_open`: open unless Dokan's check exists and says closed. */
  function IsStoreOpen(m: Market, vendorId: int): (open: bool)
    ensures m.storeOpen.None? ==> open
    ensures m.storeOpen.Some? ==> (open <==> vendorId in m.storeOpen.value)
  {
    match m.storeOpen
    case None => true
    case Some(openIds) => vendorId in openIds
  }
}

/**
 * The vendor-store-header block. It shows the same sections as the store
 * renderer's header, but resolves its vendor differently (a non-empty
 * `vendorId` is taken as given and only then checked) and leaves out the
 * social list when Dokan has no social profile fields.
 */
module VendorStoreHeader {
  import opened Wp
  import opened Dokan
  import opened ContextDetector
  import opened VendorRenderer
  import opened StoreRenderer

  /** The non-empty `vendorId` attribute, else the detected vendor; 0 is none. */
  function BlockVendorId(m: Market, r: Request, vendorIdAttr: Option<int>): (id: int)
    ensures vendorIdAttr.Some? && vendorIdAttr.value != 0 ==> id == Absint(vendorIdAttr.value)
    ensures (vendorIdAttr.None? || vendorIdAttr.value == 0) ==> id == GetVendorId(m, r).GetOr(0)
  {
    if vendorIdAttr.Some? && vendorIdAttr.value != 0 then Absint(vendorIdAttr.value)
    else GetVendorId(m, r).GetOr(0)
  }

  /** `theabd_render_vendor_store_header_block`; None is the empty string. */
  function Render(m: Market, r: Request, a: HeaderAttributes): (h: Option<Header>)
    ensures var id := BlockVendorId(m, r, a.vendorId);
            h.Some? <==> id != 0 && m.IsSeller(id) && GetVendorData(m, id).Some?
    ensures h.Some? ==>
              var id := BlockVendorId(m, r, a.vendorId);
              var d := GetVendorData(m, id).value;
              var s := Settings(a);
              h.value.layout == s.layout
              && h.value.name == d.shopName
              && (h.value.banner.Some? <==> s.showBanner && !Empty(d.banner))
              && (h.value.banner.Some? ==> h.value.banner.value == d.banner)
              && h.value.avatar == (if !Empty(d.avatar) then Some(d.avatar) else None)
              && (h.value.contact.Some? <==> s.showContactInfo)
              && (h.value.contact.Some? ==>
                    h.value.contact.value.items == ContactItems(m, d)
                    && h.value.contact.value.ratingHtml == GetSellerRatingHtml(m, id)
                    && (h.value.contact.value.storeOpen.Some? <==> s.showStoreHours)
                    && (h.value.contact.value.storeOpen.Some? ==> h.value.contact.value.storeOpen.value == IsStoreOpen(m, id)))
              && (h.value.social.Some? <==> s.showSocialLinks && |d.socialProfiles| > 0 && |m.socialFields| > 0)
              && (h.value.social.Some? ==> h.value.social.value == SocialLinks(m.socialFields, d.socialProfiles))
  {
    var id := BlockVendorId(m, r, a.vendorId);
    if id == 0 || !m.IsSeller(id) then None
    else
      match GetVendorData(m, id)
      case None => None
      case Some(d) =>
        var s := Settings(a);
        Some(Header(
          s.layout,
          if s.showBanner && !Empty(d.banner) then Some(d.banner) else None,
          if !Empty(d.avatar) then Some(d.avatar) else None,
          d.shopName,
          if s.showContactInfo then
            Some(Contact(ContactItems(m, d), GetSellerRatingHtml(m, id),
                         if s.showStoreHours then Some(IsStoreOpen(m, id)) else None))
          else None,
          if s.showSocialLinks && |d.socialProfiles| > 0 && |m.socialFields| > 0
          then Some(SocialLinks(m.socialFields, d.socialProfiles))
          else None))
  }

  /** For a seller named by the attribute, and with social fields defined, the block shows the renderer's header. */
  lemma AgreesWithRenderer(m: Market, r: Request, a: HeaderAttributes)
    requires a.vendorId.Some? && a.vendorId.value > 0 && m.IsSeller(a.vendorId.value)
    requires |m.socialFields| > 0
    ensures Render(m, r, a) == RenderStoreHeader(m, r, a)
  {
    assert VendorIdFromAttributes(m, r, a.vendorId) == Some(BlockVendorId(m, r, a.vendorId));
  }

  /**
   * Where they part: an attribute naming a non-seller hides the block, while
   * the renderer falls back to the detected vendor.
   */
  lemma NonSellerAttributeHidesBlock(m: Market, r: Request, a: HeaderAttributes)
    requires a.vendorId.Some? && a.vendorId.value > 0 && !m.IsSeller(a.vendorId.value)
    requires GetVendorId(m, r).Some? && GetVendorId(m, r).value != 0
    requires GetVendorData(m, GetVendorId(m, r).value).Some?
    ensures Render(m, r, a).None?
    ensures RenderStoreHeader(m, r, a).Some?
  {
  }
}

/**
 * The store header shared by the store renderer and the vendor-store-header
 * block: which vendor it shows, and which of its sections appear.
 */
module StoreRenderer {
  import opened Wp
  import opened Dokan
  import opened ContextDetector
  import opened VendorRenderer

  /** One entry of the social-links list. */
  datatype SocialLink = SocialLink(key: string, url: string, title: string)

  /** Whether a profile field has a non-empty link in the vendor's profiles. */
  predicate HasProfile(profiles: map<string, string>, key: string) {
    key in profiles && !Empty(profiles[key])
  }

  function LinkFor(f: SocialField, profiles: map<string, string>): SocialLink
    requires f.key in profiles
  {
    SocialLink(f.key, profiles[f.key], f.title.GetOr(f.key))
  }

  /**
   * The links a `foreach` over the social profile fields emits: the fields
   * whose profile is non-empty, in the order of the fields, each labelled by
   * its title or, failing that, its key.
   */
  function SocialLinks(fields: seq<SocialField>, profiles: map<string, string>): (links: seq<SocialLink>)
    ensures |links| <= |fields|
    ensures forall l :: l in links ==> HasProfile(profiles, l.key) && l.url == profiles[l.key]
    ensures forall f :: f in fields && HasProfile(profiles, f.key) ==> LinkFor(f, profiles) in links
    ensures forall l :: l in links ==> exists f :: f in fields && f.key in profiles && l == LinkFor(f, profiles)
  {
    if |fields| == 0 then []
    else
      var f := fields[|fields| - 1];
      var rest := SocialLinks(fields[..|fields| - 1], profiles);
      assert forall g :: g in fields ==> g in fields[..|fields| - 1] || g == f;
      if HasProfile(profiles, f.key) then rest + [LinkFor(f, profiles)] else rest
  }

  /** Links keep the order of the fields: the links of a prefix are a prefix of the links. */
  lemma {:induction false} SocialLinksFollowFieldOrder(fields: seq<SocialField>, k: nat, profiles: map<string, string>)
    requires k <= |fields|
    ensures SocialLinks(fields[..k], profiles) <= SocialLinks(fields, profiles)
    decreases |fields|
  {
    if k < |fields| {
      assert fields[..|fields| - 1][..k] == fields[..k];
      SocialLinksFollowFieldOrder(fields[..|fields| - 1], k, profiles);
    } else {
      assert fields[..k] == fields;
    }
  }

  /** The `foreach` over `dokan_get_social_profile_fields()`. */
  method CollectSocialLinks(fields: seq<SocialField>, profiles: map<string, string>) returns (links: seq<SocialLink>)
    ensures links == SocialLinks(fields, profiles)
  {
    links := [];
    var i := 0;
    while i < |fields|
      invariant 0 <= i <= |fields|
      invariant links == SocialLinks(fields[..i], profiles)
    {
      assert fields[..i + 1][..i] == fields[..i];
      if HasProfile(profiles, fields[i].key) {
        links := links + [LinkFor(fields[i], profiles)];
      }
      i := i + 1;
    }
    assert fields[..i] == fields;
  }

  /** The block attributes the header reads. */
  datatype HeaderAttributes = HeaderAttributes(
    vendorId: Option<int>,
    showBanner: Option<bool>,
    showContactInfo: Option<bool>,
    showSocialLinks: Option<bool>,
    showStoreHours: Option<bool>,
    layout: Option<string>)

  /** The header's settings after defaults: every section on, layout "default". */
  datatype HeaderSettings = HeaderSettings(
    showBanner: bool, showContactInfo: bool, showSocialLinks: bool, showStoreHours: bool, layout: string)

  function Settings(a: HeaderAttributes): (s: HeaderSettings)
    ensures a.showBanner.None? ==> s.showBanner
    ensures a.showContactInfo.None? ==> s.showContactInfo
    ensures a.showSocialLinks.None? ==> s.showSocialLinks
    ensures a.showStoreHours.None? ==> s.showStoreHours
    ensures a.layout.None? ==> s.layout == "default"
    ensures a.showBanner.Some? ==> s.showBanner == a.showBanner.value
    ensures a.layout.Some? ==> s.layout == a.layout.value
  {
    HeaderSettings(
      a.showBanner.GetOr(true), a.showContactInfo.GetOr(true), a.showSocialLinks.GetOr(true),
      a.showStoreHours.GetOr(true), a.layout.GetOr("default"))
  }

  /** One line of the contact list. */
  datatype ContactItem = AddressItem(address: string) | PhoneItem(phone: string) | EmailItem(email: string)

  /** The contact list: shown items, the readable rating, and the open/closed line when hours are shown. */
  datatype Contact = Contact(items: seq<ContactItem>, ratingHtml: string, storeOpen: Option<bool>)

  /** What the header shows. */
  datatype Header = Header(
    layout: string,
    banner: Option<string>,
    avatar: Option<string>,
    name: string,
    contact: Option<Contact>,
    social: Option<seq<SocialLink>>)

  /** `get_vendor_id_from_attributes`: a seller named by `vendorId`, else the detected vendor. */
  function VendorIdFromAttributes(m: Market, r: Request, vendorIdAttr: Option<int>): (id: Option<int>)
    ensures vendorIdAttr.Some? && vendorIdAttr.value > 0 && m.IsSeller(vendorIdAttr.value) ==>
              id == vendorIdAttr
    ensures id.Some? ==> id.value != 0
    ensures id.Some? && id != GetVendorId(m, r) ==>
              vendorIdAttr.Some? && id.value == Absint(vendorIdAttr.value) && m.IsSeller(id.value)
    ensures id.None? ==> GetVendorId(m, r) in {None, Some(0)}
  {
    if vendorIdAttr.Some? && vendorIdAttr.value != 0 && Absint(vendorIdAttr.value) > 0
       && m.IsSeller(Absint(vendorIdAttr.value))
    then Some(Absint(vendorIdAttr.value) as int)
    else
      var detected := GetVendorId(m, r);
      if detected.Some? && detected.value != 0 then detected else None
  }

  /** The address, phone and email lines: each only if not hidden and non-empty. */
  function ContactItems(m: Market, d: VendorData): (items: seq<ContactItem>)
    ensures AddressItem(d.address) in items <==> !IsVendorInfoHidden(m, "address") && !Empty(d.address)
    ensures PhoneItem(d.phone) in items <==> !IsVendorInfoHidden(m, "phone") && !Empty(d.phone)
    ensures EmailItem(d.email) in items <==> !IsVendorInfoHidden(m, "email") && !Empty(d.email)
    ensures |items| <= 3
  {
    (if !IsVendorInfoHidden(m, "address") && !Empty(d.address) then [AddressItem(d.address)] else [])
    + (if !IsVendorInfoHidden(m, "phone") && !Empty(d.phone) then [PhoneItem(d.phone)] else [])
    + (if !IsVendorInfoHidden(m, "email") && !Empty(d.email) then [EmailItem(d.email)] else [])
  }

  /** `Store_Renderer::render_store_header`; None is the empty string. */
  function RenderStoreHeader(m: Market, r: Request, a: HeaderAttributes): (h: Option<Header>)
    ensures h.Some? ==> VendorIdFromAttributes(m, r, a.vendorId).Some?
    ensures h.Some? <==> (var id := VendorIdFromAttributes(m, r, a.vendorId);
                          id.Some? && GetVendorData(m, id.value).Some?)
    ensures h.Some? ==>
              (h.value.banner.Some? <==>
                 (Settings(a).showBanner
                  && !Empty(GetVendorData(m, VendorIdFromAttributes(m, r, a.vendorId).value).value.banner)))
    ensures h.Some? ==>
              var id := VendorIdFromAttributes(m, r, a.vendorId).value;
              var d := GetVendorData(m, id).value;
              var s := Settings(a);
              h.value.layout == s.layout
              && h.value.name == d.shopName
              && (h.value.banner.Some? ==> h.value.banner.value == d.banner)
              && (h.value.avatar.Some? <==> !Empty(d.avatar))
              && (h.value.avatar.Some? ==> h.value.avatar.value == d.avatar)
              && (h.value.contact.Some? <==> s.showContactInfo)
              && (h.value.contact.Some? ==>
                    h.value.contact.value.items == ContactItems(m, d)
                    && h.value.contact.value.ratingHtml == GetSellerRatingHtml(m, id)
                    && (h.value.contact.value.storeOpen.Some? <==> s.showStoreHours)
                    && (h.value.contact.value.storeOpen.Some? ==> h.value.contact.value.storeOpen.value == IsStoreOpen(m, id)))
              && (h.value.social.Some? <==> s.showSocialLinks && |d.socialProfiles| > 0)
              && (h.value.social.Some? ==> h.value.social.value == SocialLinks(m.socialFields, d.socialProfiles))
  {
    var id := VendorIdFromAttributes(m, r, a.vendorId);
    if id.None? then None
    else
      var data := GetVendorData(m, id.value);
      if data.None? then None
      else
        var d := data.value;
        var s := Settings(a);
        Some(Header(
          s.layout,
          if s.showBanner && !Empty(d.banner) then Some(d.banner) else None,
          if !Empty(d.avatar) then Some(d.avatar) else None,
          d.shopName,
          if s.showContactInfo then
            Some(Contact(ContactItems(m, d), GetSellerRatingHtml(m, id.value),
                         if s.showStoreHours then Some(IsStoreOpen(m, id.value)) else None))
          else None,
          if s.showSocialLinks && |d.socialProfiles| > 0 then Some(SocialLinks(m.socialFields, d.socialProfiles))
          else None))
  }
}

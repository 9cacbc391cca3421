/**
 * The become-vendor call to action: hidden from sellers, with default
 * texts, and a button link that falls back to the account-migration page.
 */
module BecomeVendorCta {
  import opened Wp
  import opened Dokan

  const DefaultHeading: string := "Become a Vendor"
  const DefaultDescription: string := "Vendors can sell products and manage a store with a vendor dashboard."
  const DefaultButtonText: string := "Become a Vendor"

  /** The block's attributes. */
  datatype CtaAttributes = CtaAttributes(
    heading: Option<string>, description: Option<string>, buttonText: Option<string>, buttonLink: Option<string>)

  /** The button link: the non-empty attribute, else the account-migration page URL. */
  function ButtonLink(m: Market, buttonLink: Option<string>): (link: string)
    ensures !EmptyOpt(buttonLink) ==> link == buttonLink.value
    ensures EmptyOpt(buttonLink) ==> link == m.accountMigrationUrl
  {
    var link := buttonLink.GetOr("");
    if Empty(link) then m.accountMigrationUrl else link
  }

  /** What the block renders. */
  datatype CtaOutput = NoOutput | Cta(heading: string, description: string, buttonText: string, link: string)

  /** `dokan_render_become_vendor_cta_block`. */
  function Render(m: Market, r: Request, a: CtaAttributes): (out: CtaOutput)
    ensures out.Cta? <==> !m.IsSeller(r.currentUser) && !Empty(ButtonLink(m, a.buttonLink))
    ensures out.Cta? ==>
              out.heading == a.heading.GetOr(DefaultHeading)
              && out.description == a.description.GetOr(DefaultDescription)
              && out.buttonText == a.buttonText.GetOr(DefaultButtonText)
              && out.link == ButtonLink(m, a.buttonLink)
              && !Empty(out.link)
  {
    if m.IsSeller(r.currentUser) then NoOutput
    else
      var link := ButtonLink(m, a.buttonLink);
      if Empty(link) then NoOutput
      else Cta(a.heading.GetOr(DefaultHeading), a.description.GetOr(DefaultDescription),
               a.buttonText.GetOr(DefaultButtonText), link)
  }

  /** Sellers never see the call to action, whatever its attributes. */
  lemma SellersNeverSeeIt(m: Market, r: Request, a: CtaAttributes)
    requires m.IsSeller(r.currentUser)
    ensures Render(m, r, a) == NoOutput
  {
  }

  /** An explicit link is used as given, even when the migration page is unknown. */
  lemma ExplicitLinkWins(m: Market, r: Request, a: CtaAttributes)
    requires !m.IsSeller(r.currentUser) && !EmptyOpt(a.buttonLink)
    ensures Render(m, r, a).Cta? && Render(m, r, a).link == a.buttonLink.value
  {
  }
}

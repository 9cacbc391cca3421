/**
 * The vendor-store-name block: which vendor it names, the heading tag it
 * may use, the inline styles it assembles and when the name is a link.
 */
module VendorStoreName {
  import opened Wp
  import opened Dokan
  import opened VendorRenderer
  import opened BlockContext
  import opened InlineStyles

  /** The output when no vendor resolves. */
  const PlaceholderHtml: string := "<p>Store Name</p>"

  /** The tags the heading may use. */
  const AllowedTags: set<string> := {"h1", "h2", "h3", "h4", "h5", "h6", "p", "div", "span"}

  /** The `tagName` attribute after validation: an allowed tag, else `h2` (also the default). */
  function TagName(tagName: Option<string>): (tag: string)
    ensures tag in AllowedTags
    ensures tagName.Some? && tagName.value in AllowedTags ==> tag == tagName.value
    ensures tagName.None? || tagName.value !in AllowedTags ==> tag == "h2"
  {
    if tagName.Some? && tagName.value in AllowedTags then tagName.value else "h2"
  }

  /** The parts of the `style` attribute the block reads. */
  datatype NameStyle = NameStyle(
    fontSize: Option<string>,
    fontWeight: Option<string>,
    lineHeight: Option<string>,
    textColor: Option<string>,
    backgroundColor: Option<string>,
    margin: Box,
    padding: Box)

  /** The typography and colour declarations, in the block's order. */
  function TypographyDecls(st: NameStyle): (ds: seq<Decl>)
    ensures |ds| == 5
  {
    [Decl("font-size", st.fontSize), Decl("font-weight", st.fontWeight), Decl("line-height", st.lineHeight),
     Decl("color", st.textColor), Decl("background-color", st.backgroundColor)]
  }

  /** Every declaration the block may emit: typography and colours, then margin, then padding. */
  function NameDecls(st: NameStyle): (ds: seq<Decl>)
    ensures |ds| == 13
  {
    TypographyDecls(st) + BoxDecls("margin", st.margin) + BoxDecls("padding", st.padding)
  }

  /** Five consecutive `if (...) { $inline_styles[] = ...; }` appends. */
  method AppendFive(styles: seq<string>, ds: seq<Decl>) returns (out: seq<string>)
    requires |ds| == 5
    ensures out == styles + Declarations(ds)
  {
    assert ds[..0] == [];
    out := styles;
    DeclarationsSnoc(ds, 0);
    out := AppendIfSet(out, ds[0]);
    assert out == styles + Declarations(ds[..1]);
    DeclarationsSnoc(ds, 1);
    out := AppendIfSet(out, ds[1]);
    assert out == styles + Declarations(ds[..2]);
    DeclarationsSnoc(ds, 2);
    out := AppendIfSet(out, ds[2]);
    assert out == styles + Declarations(ds[..3]);
    DeclarationsSnoc(ds, 3);
    out := AppendIfSet(out, ds[3]);
    assert out == styles + Declarations(ds[..4]);
    DeclarationsSnoc(ds, 4);
    out := AppendIfSet(out, ds[4]);
    assert out == styles + Declarations(ds[..5]);
    assert ds[..5] == ds;
  }

  /** The `$inline_styles` appends of the block, in source order. */
  method InlineStylesOf(st: NameStyle) returns (styles: seq<string>)
    ensures styles == Declarations(NameDecls(st))
  {
    var ds := TypographyDecls(st);
    styles := AppendFive([], ds);
    assert [] + Declarations(ds) == Declarations(ds);
    styles := AppendBox(styles, "margin", st.margin);
    styles := AppendBox(styles, "padding", st.padding);
    DeclarationsAppend(ds, BoxDecls("margin", st.margin));
    DeclarationsAppend(ds + BoxDecls("margin", st.margin), BoxDecls("padding", st.padding));
  }

  /**
   * The emitted rules are exactly the rules of the set declarations, and the
   * `style` attribute is left off exactly when none is set.
   */
  lemma NameStylesExact(st: NameStyle)
    ensures var ds := NameDecls(st);
            (forall i :: 0 <= i < |ds| && IsSet(ds[i]) ==> Rule(ds[i]) in Declarations(ds))
            && (forall s :: s in Declarations(ds) ==> exists i :: 0 <= i < |ds| && IsSet(ds[i]) && s == Rule(ds[i]))
            && (StyleAttribute(Declarations(ds)) == "" <==> forall i :: 0 <= i < |ds| ==> !IsSet(ds[i]))
  {
    DeclarationsMembers(NameDecls(st));
    DeclarationsEmpty(NameDecls(st));
  }

  /** Margin rules always come before padding rules, and after the typography and colours. */
  lemma MarginBeforePadding(st: NameStyle)
    ensures Declarations(NameDecls(st)) ==
              Declarations(TypographyDecls(st)) + Declarations(BoxDecls("margin", st.margin))
              + Declarations(BoxDecls("padding", st.padding))
  {
    DeclarationsAppend(TypographyDecls(st), BoxDecls("margin", st.margin));
    DeclarationsAppend(TypographyDecls(st) + BoxDecls("margin", st.margin), BoxDecls("padding", st.padding));
  }

  /** The block's attributes. */
  datatype NameAttributes = NameAttributes(tagName: Option<string>, isLink: Option<bool>, style: NameStyle)

  /** What the block renders. */
  datatype NameOutput =
    | Placeholder(html: string)
    | Heading(tag: string, styleAttr: string, link: Option<string>, name: string)

  /** The detection fallback keeps `id`, `store_name` and `shop_url`. */
  function Project(d: VendorData): (v: ContextVendor)
    ensures v.id == Some(d.id) && v.storeName == Some(d.shopName) && v.shopUrl == Some(d.shopUrl)
  {
    NoKeys.(id := Some(d.id), storeName := Some(d.shopName), shopUrl := Some(d.shopUrl))
  }

  /** `store_name ?? shop_name ?? ''`: a present key wins even when it is empty. */
  function ShopName(v: ContextVendor): (name: string)
    ensures v.storeName.Some? ==> name == v.storeName.value
    ensures v.storeName.None? && v.shopName.Some? ==> name == v.shopName.value
    ensures v.storeName.None? && v.shopName.None? ==> name == ""
  {
    v.storeName.GetOr(v.shopName.GetOr(""))
  }

  /** `theabd_render_vendor_store_name_block`. */
  function Render(context: Option<ContextVendor>, m: Market, r: Request, a: NameAttributes): (out: NameOutput)
    ensures out.Placeholder? <==> VendorFor(context, m, r, Project).None?
    ensures out.Placeholder? ==> out.html == PlaceholderHtml
    ensures out.Heading? ==>
              var v := VendorFor(context, m, r, Project).value;
              out.tag == TagName(a.tagName)
              && out.name == ShopName(v)
              && out.styleAttr == StyleAttribute(Declarations(NameDecls(a.style)))
              && (out.link.Some? <==> a.isLink.GetOr(true) && !Empty(OrEmpty(v.shopUrl)))
              && (out.link.Some? ==> out.link.value == v.shopUrl.value)
  {
    match VendorFor(context, m, r, Project)
    case None => Placeholder(PlaceholderHtml)
    case Some(v) =>
      var url := OrEmpty(v.shopUrl);
      Heading(TagName(a.tagName), StyleAttribute(Declarations(NameDecls(a.style))),
              if a.isLink.GetOr(true) && !Empty(url) then Some(url) else None,
              ShopName(v))
  }

  /** A detected vendor is named by its shop name and linked to its shop URL when linking is on. */
  lemma DetectedVendorShowsShopName(m: Market, r: Request, a: NameAttributes)
    requires DetectedVendorData(m, r).Some?
    ensures var d := DetectedVendorData(m, r).value;
            var out := Render(None, m, r, a);
            out.Heading? && out.name == d.shopName
            && (out.link.Some? <==> a.isLink.GetOr(true) && !Empty(d.shopUrl))
  {
    DetectedVendorIsFound(m, r, Project);
  }

  /** A vendor from the store query loop is named by its `store_name`; one from a store card by its `shop_name`. */
  lemma ContextNames(v: VendorObject, d: VendorData, m: Market, r: Request, a: NameAttributes)
    requires v.id != 0 && d.id != 0
    ensures Render(Some(ToArray(v)), m, r, a) == Heading(TagName(a.tagName),
              StyleAttribute(Declarations(NameDecls(a.style))),
              if a.isLink.GetOr(true) && !Empty(v.shopUrl) then Some(v.shopUrl) else None, v.shopName)
    ensures Render(Some(OfVendorData(d)), m, r, a).Heading?
            && Render(Some(OfVendorData(d)), m, r, a).name == d.shopName
  {
  }
}

/**
 * The store-card block: where its vendor comes from (the `dokan/vendor`
 * context, else the `vendorId` attribute), the banner background and
 * spacing styles, the layout-class fix, and the choice between the card,
 * the editor placeholder and no output.
 */
module StoreCard {
  import opened Wp
  import opened Dokan
  import opened VendorRenderer
  import opened BlockContext
  import opened InlineStyles

  /** The block's attributes. */
  datatype CardAttributes = CardAttributes(
    useBannerAsBackground: Option<bool>,
    backgroundOverlay: Option<string>,
    vendorId: Option<int>,
    padding: Box,
    margin: Box,
    layout: Layout)

  /** The vendor the card resolves: an id (0 for none) and the vendor array, if any. */
  datatype CardVendor = CardVendor(id: nat, data: Option<ContextVendor>)

  /**
   * A non-empty context array supplies both the data and the id (0 when it
   * has no `id`). Otherwise the `vendorId` attribute is used, and the data is
   * fetched only for a seller.
   */
  function ResolveVendor(m: Market, context: Option<ContextVendor>, vendorIdAttr: Option<int>): (cv: CardVendor)
    ensures context.Some? && !EmptyVendor(context.value) ==>
              cv.data == context && cv.id == (if HasId(context.value) then Absint(context.value.id.value) else 0)
    ensures !(context.Some? && !EmptyVendor(context.value)) ==>
              cv.id == (if vendorIdAttr.Some? then Absint(vendorIdAttr.value) else 0)
              && (cv.data.Some? <==> cv.id != 0 && m.IsSeller(cv.id) && GetVendorData(m, cv.id).Some?)
              && (cv.data.Some? ==> cv.data.value == OfVendorData(GetVendorData(m, cv.id).value))
  {
    if context.Some? && !EmptyVendor(context.value) then
      CardVendor(if HasId(context.value) then Absint(context.value.id.value) else 0, context)
    else
      var id := if vendorIdAttr.Some? && vendorIdAttr.value != 0 then Absint(vendorIdAttr.value) else 0;
      var data := if id != 0 && m.IsSeller(id) then GetVendorData(m, id) else None;
      CardVendor(id, if data.Some? then Some(OfVendorData(data.value)) else None)
  }

  /** The wrapper classes: the card class, then `has-banner-background` when the banner is the background. */
  function CardClasses(useBanner: bool): (classes: seq<string>)
    ensures |classes| == (if useBanner then 2 else 1)
    ensures classes[0] == "dokan-store-card"
    ensures useBanner ==> classes[1] == "has-banner-background"
  {
    ["dokan-store-card"] + (if useBanner then ["has-banner-background"] else [])
  }

  /** The four background entries when the banner is used and present, else none. */
  function BannerBackground(useBanner: bool, data: Option<ContextVendor>, overlay: string): (styles: seq<string>)
    ensures styles != [] <==> useBanner && data.Some? && !EmptyOpt(data.value.banner)
    ensures styles != [] ==> |styles| == 4 && styles[1..] == ["background-size: cover", "background-position: center",
                                                              "background-repeat: no-repeat"]
  {
    if useBanner && data.Some? && !EmptyOpt(data.value.banner) then
      ["background-image: linear-gradient(rgba(0, 0, 0, " + overlay + "), rgba(0, 0, 0, " + overlay + ")), url("
         + data.value.banner.value + ")",
       "background-size: cover", "background-position: center", "background-repeat: no-repeat"]
    else []
  }

  /** The card's inline styles: the banner background, then padding, then margin. */
  function CardStyles(a: CardAttributes, data: Option<ContextVendor>): seq<string> {
    BannerBackground(a.useBannerAsBackground.GetOr(false), data, a.backgroundOverlay.GetOr("0.5"))
    + Declarations(SpacingDecls(a.padding, a.margin))
  }

  /** The `$inline_styles` appends of the card, in source order. */
  method BuildCardStyles(a: CardAttributes, data: Option<ContextVendor>) returns (styles: seq<string>)
    ensures styles == CardStyles(a, data)
  {
    styles := [];
    var useBanner := a.useBannerAsBackground.GetOr(false);
    var overlay := a.backgroundOverlay.GetOr("0.5");
    if useBanner && data.Some? && !EmptyOpt(data.value.banner) {
      styles := styles + ["background-image: linear-gradient(rgba(0, 0, 0, " + overlay + "), rgba(0, 0, 0, "
                          + overlay + ")), url(" + data.value.banner.value + ")"];
      styles := styles + ["background-size: cover"];
      styles := styles + ["background-position: center"];
      styles := styles + ["background-repeat: no-repeat"];
    }
    assert styles == BannerBackground(useBanner, data, overlay);
    styles := AppendBox(styles, "padding", a.padding);
    styles := AppendBox(styles, "margin", a.margin);
    SpacingRules(a.padding, a.margin);
  }

  /** The two placeholder notices: no id at all, or an id that names no seller. */
  datatype Notice = MissingVendorId | VendorNotFound

  /** What the card holds. */
  datatype CardBody = InnerBlocks(rendered: seq<Rendered>) | Content(html: string) | NoBody

  /** What the block renders. */
  datatype CardOutput =
    | NoOutput
    | Placeholder(wrapper: string, styleAttr: string, notice: Notice, body: CardBody)
    | Card(wrapper: string, styleAttr: string, body: CardBody)

  /**
   * `dokan_render_store_card_block`. `wrapperOf` stands for WordPress's
   * `get_block_wrapper_attributes`, given the card classes.
   */
  function Render(m: Market, r: Request, a: CardAttributes, context: Option<ContextVendor>,
                  blocks: seq<InnerBlock>, content: string, wrapperOf: seq<string> -> string): (out: CardOutput)
    ensures !r.canRead ==> out == NoOutput
    ensures var cv := ResolveVendor(m, context, a.vendorId);
            out.Card? <==> r.canRead && cv.id != 0 && cv.data.Some?
    ensures var cv := ResolveVendor(m, context, a.vendorId);
            out.Placeholder? <==> r.canRead && (cv.id == 0 || cv.data.None?) && r.editorRequest
    ensures out.Placeholder? ==> (out.notice == MissingVendorId <==> ResolveVendor(m, context, a.vendorId).id == 0)
    ensures out.Placeholder? ==>
              (|blocks| > 0 ==> out.body == InnerBlocks(RenderAll(blocks, EmptyContext)))
              && (|blocks| == 0 ==> out.body == (if Empty(content) then NoBody else Content(content)))
    ensures out.Card? ==>
              var data := ResolveVendor(m, context, a.vendorId).data.value;
              out.body == (if |blocks| > 0 then InnerBlocks(RenderAll(blocks, VendorContext(data))) else Content(content))
    ensures !out.NoOutput? ==>
              out.wrapper == InjectLayout(wrapperOf(CardClasses(a.useBannerAsBackground.GetOr(false))), a.layout)
              && out.styleAttr == StyleAttribute(CardStyles(a, ResolveVendor(m, context, a.vendorId).data))
  {
    if !r.canRead then NoOutput
    else
      var cv := ResolveVendor(m, context, a.vendorId);
      var styleAttr := StyleAttribute(CardStyles(a, cv.data));
      var w := InjectLayout(wrapperOf(CardClasses(a.useBannerAsBackground.GetOr(false))), a.layout);
      if cv.id == 0 || cv.data.None? then
        if r.editorRequest then
          Placeholder(w, styleAttr, if cv.id == 0 then MissingVendorId else VendorNotFound,
                      if |blocks| > 0 then InnerBlocks(RenderAll(blocks, EmptyContext))
                      else if !Empty(content) then Content(content) else NoBody)
        else NoOutput
      else
        Card(w, styleAttr, if |blocks| > 0 then InnerBlocks(RenderAll(blocks, VendorContext(cv.data.value)))
                           else Content(content))
  }

  /** Inside the store query loop every card shows its vendor, whatever `vendorId` says, and hands it on unchanged. */
  lemma LoopCardShowsItsVendor(v: VendorObject, m: Market, r: Request, a: CardAttributes,
                               blocks: seq<InnerBlock>, content: string, wrapperOf: seq<string> -> string)
    requires r.canRead && v.id != 0 && |blocks| > 0
    ensures var out := Render(m, r, a, Some(ToArray(v)), blocks, content, wrapperOf);
            out.Card? && out.body.InnerBlocks?
            && forall i :: 0 <= i < |blocks| ==> out.body.rendered[i].context.vendor == Some(ToArray(v))
  {
    assert !EmptyVendor(ToArray(v)) by {
      assert ToArray(v).id != NoKeys.id;
    }
  }

  /** Outside the editor a card without a vendor renders nothing; the editor gets a placeholder instead. */
  lemma PlaceholderOnlyInEditor(m: Market, r: Request, a: CardAttributes, blocks: seq<InnerBlock>,
                                content: string, wrapperOf: seq<string> -> string)
    requires r.canRead && (a.vendorId.None? || a.vendorId == Some(0))
    ensures Render(m, r, a, None, blocks, content, wrapperOf) == NoOutput <==> !r.editorRequest
    ensures r.editorRequest ==> Render(m, r, a, None, blocks, content, wrapperOf).notice == MissingVendorId
  {
  }

  /** The banner background is only ever the first four styles, before any spacing rule. */
  lemma BackgroundBeforeSpacing(a: CardAttributes, data: Option<ContextVendor>)
    requires a.useBannerAsBackground == Some(true) && data.Some? && !EmptyOpt(data.value.banner)
    ensures var styles := CardStyles(a, data);
            |styles| >= 4 && styles[1] == "background-size: cover"
            && styles[4..] == Declarations(SpacingDecls(a.padding, a.margin))
  {
  }
}

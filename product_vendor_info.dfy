/**
 * The product-vendor-info block: the chain from product to author to
 * vendor, its spacing styles and layout-class fix, and the order in which
 * it falls back from inner blocks to saved content to a default heading.
 */
module ProductVendorInfo {
  import opened Wp
  import opened Dokan
  import opened ContextDetector
  import opened VendorRenderer
  import opened BlockContext
  import opened InlineStyles

  /** The block's attributes. */
  datatype InfoAttributes = InfoAttributes(productId: Option<int>, padding: Box, margin: Box, layout: Layout)

  /** The vendor of a product: its author, when the product exists and the author is a seller with data. */
  function ProductVendor(m: Market, productId: nat): (d: Option<VendorData>)
    ensures d.Some? <==> productId in m.products && Absint(m.products[productId]) != 0
                         && m.IsSeller(Absint(m.products[productId]))
                         && GetVendorData(m, Absint(m.products[productId])).Some?
    ensures d.Some? ==> d.value.id == Absint(m.products[productId])
  {
    if productId !in m.products then None
    else
      var vendorId := Absint(m.products[productId]);
      if vendorId == 0 || !m.IsSeller(vendorId) then None
      else GetVendorData(m, vendorId)
  }

  /** The `$inline_styles` appends: padding, then margin. */
  method BuildInfoStyles(padding: Box, margin: Box) returns (styles: seq<string>)
    ensures styles == Declarations(SpacingDecls(padding, margin))
  {
    styles := [];
    styles := AppendBox(styles, "padding", padding);
    styles := AppendBox(styles, "margin", margin);
    SpacingRules(padding, margin);
  }

  /** What the block holds. */
  datatype InfoBody =
    | InnerBlocks(rendered: seq<Rendered>)
    | Content(html: string)
    /** The default block: a heading linking to the shop, present only for a non-empty shop name. */
    | DefaultBody(heading: Option<(string, string)>)

  /** What the block renders. */
  datatype InfoOutput =
    | NoOutput
    /** The editor's hint to add the block to a product page. */
    | Placeholder
    | Info(wrapper: string, styleAttr: string, body: InfoBody)

  /** Inner blocks with the vendor, else the saved content, else the default heading. */
  function Body(d: VendorData, blocks: seq<InnerBlock>, content: string): (b: InfoBody)
    ensures |blocks| > 0 ==> b == InnerBlocks(RenderAll(blocks, VendorContext(OfVendorData(d))))
    ensures |blocks| == 0 && !Empty(content) ==> b == Content(content)
    ensures |blocks| == 0 && Empty(content) ==>
              b.DefaultBody? && (b.heading.Some? <==> !Empty(d.shopName))
              && (b.heading.Some? ==> b.heading.value == (d.shopUrl, d.shopName))
  {
    if |blocks| > 0 then InnerBlocks(RenderAll(blocks, VendorContext(OfVendorData(d))))
    else if !Empty(content) then Content(content)
    else DefaultBody(if !Empty(d.shopName) then Some((d.shopUrl, d.shopName)) else None)
  }

  /** `theabd_render_product_vendor_info_block`; `wrapper` is WordPress's wrapper attributes. */
  function Render(m: Market, r: Request, a: InfoAttributes, blocks: seq<InnerBlock>, content: string,
                  wrapper: string): (out: InfoOutput)
    ensures out == Placeholder <==> AttributeProductId(r, a.productId) == 0 && r.editorRequest
    ensures out.Info? <==> AttributeProductId(r, a.productId) != 0 && ProductVendor(m, AttributeProductId(r, a.productId)).Some?
    ensures out.Info? ==>
              out.wrapper == InjectLayout(wrapper, a.layout)
              && out.styleAttr == StyleAttribute(Declarations(SpacingDecls(a.padding, a.margin)))
              && out.body == Body(ProductVendor(m, AttributeProductId(r, a.productId)).value, blocks, content)
  {
    var pid := AttributeProductId(r, a.productId);
    if pid == 0 then (if r.editorRequest then Placeholder else NoOutput)
    else
      match ProductVendor(m, pid)
      case None => NoOutput
      case Some(d) =>
        Info(InjectLayout(wrapper, a.layout), StyleAttribute(Declarations(SpacingDecls(a.padding, a.margin))),
             Body(d, blocks, content))
  }

  /** On a product page the block shows the product author's store, with the author as the inner blocks' vendor. */
  lemma ProductPageShowsAuthor(m: Market, r: Request, a: InfoAttributes, blocks: seq<InnerBlock>,
                               content: string, wrapper: string)
    requires a.productId.None? && r.post.Some? && r.post.value.postType == "product" && r.post.value.id > 0
    requires r.post.value.id in m.products && |blocks| > 0
    requires GetVendorData(m, Absint(m.products[r.post.value.id])).Some?
    ensures var out := Render(m, r, a, blocks, content, wrapper);
            out.Info? && out.body.InnerBlocks?
            && forall i :: 0 <= i < |blocks| ==>
                 out.body.rendered[i].context.vendor.value.id == Some(Absint(m.products[r.post.value.id]) as int)
  {
    assert GetProductId(r) == Some(r.post.value.id as nat);
  }
}

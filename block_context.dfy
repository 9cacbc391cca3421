/**
 * The `dokan/vendor` block context and how the per-vendor blocks pick their
 * vendor: the context array when it carries a non-empty `id`, else the
 * vendor the request names, reduced to the keys the block reads.
 */
module BlockContext {
  import opened Wp
  import opened Dokan
  import opened ContextDetector
  import opened VendorRenderer

  /**
   * A `dokan/vendor` array: every key may be missing. The array comes from
   * Dokan's `to_array()` (in the store query loop), from `get_vendor_data`
   * (in the store card and the product vendor info), or from a block's own
   * detection fallback.
   */
  datatype ContextVendor = ContextVendor(
    id: Option<int>,
    storeName: Option<string>,
    shopName: Option<string>,
    shopUrl: Option<string>,
    gravatar: Option<string>,
    avatar: Option<string>,
    banner: Option<string>,
    phone: Option<string>,
    email: Option<string>,
    address: Option<AddressValue>,
    rating: Option<Rating>,
    storeOpenClose: Option<OpenClose>,
    storeInfo: Option<ShopInfo>)

  /** The array with no keys. */
  const NoKeys: ContextVendor :=
    ContextVendor(None, None, None, None, None, None, None, None, None, None, None, None, None)

  /** PHP `!empty($vendor['id'])`. */
  predicate HasId(v: ContextVendor) {
    v.id.Some? && v.id.value != 0
  }

  /** The array Dokan's vendor `to_array()` gives, restricted to the keys the blocks read. */
  function ToArray(v: VendorObject): (c: ContextVendor)
    ensures c.id == Some(v.id) && c.storeName == Some(v.shopName) && c.gravatar == Some(v.avatar)
    ensures c.shopName.None? && c.avatar.None? && c.storeInfo.None?
    ensures c.address == Some(AddressFields(v.address))
  {
    NoKeys.(id := Some(v.id), storeName := Some(v.shopName), shopUrl := Some(v.shopUrl),
            gravatar := Some(v.avatar), banner := Some(v.banner), phone := Some(v.phone),
            email := Some(v.email), address := Some(AddressFields(v.address)), rating := Some(v.rating),
            storeOpenClose := v.shopInfo.openClose)
  }

  /** The record of `get_vendor_data`, passed on as a `dokan/vendor` array (its own key names). */
  function OfVendorData(d: VendorData): (c: ContextVendor)
    ensures c.id == Some(d.id) && c.shopName == Some(d.shopName) && c.avatar == Some(d.avatar)
    ensures c.storeName.None? && c.gravatar.None? && c.storeOpenClose.None?
    ensures c.address == Some(AddressText(d.address)) && c.storeInfo == Some(d.storeInfo)
  {
    NoKeys.(id := Some(d.id), shopName := Some(d.shopName), shopUrl := Some(d.shopUrl),
            avatar := Some(d.avatar), banner := Some(d.banner), phone := Some(d.phone),
            email := Some(d.email), address := Some(AddressText(d.address)), rating := Some(d.rating),
            storeInfo := Some(d.storeInfo))
  }

  /** `get_vendor_id()` followed, when it is positive, by `get_vendor_data()`. */
  function DetectedVendorData(m: Market, r: Request): (d: Option<VendorData>)
    ensures d.Some? <==> GetVendorId(m, r).Some? && GetVendorId(m, r).value > 0
                         && GetVendorData(m, GetVendorId(m, r).value).Some?
    ensures d.Some? ==> d.value.id == GetVendorId(m, r).value && d.value.id > 0 && m.IsSeller(d.value.id)
  {
    var id := GetVendorId(m, r);
    if id.Some? && id.value > 0 then GetVendorData(m, id.value) else None
  }

  /**
   * The vendor a per-vendor block renders: the context array when it has an
   * `id`, else the detected vendor reduced by the block's own `project`, else
   * none (the block's placeholder).
   */
  function VendorFor(context: Option<ContextVendor>, m: Market, r: Request,
                     project: VendorData -> ContextVendor): (v: Option<ContextVendor>)
    ensures context.Some? && HasId(context.value) ==> v == context
    ensures v.Some? ==> HasId(v.value)
    ensures v.Some? && !(context.Some? && HasId(context.value)) ==>
              DetectedVendorData(m, r).Some? && v.value == project(DetectedVendorData(m, r).value)
    ensures v.None? ==> !(context.Some? && HasId(context.value))
                        && (DetectedVendorData(m, r).None? || !HasId(project(DetectedVendorData(m, r).value)))
  {
    if context.Some? && HasId(context.value) then context
    else
      match DetectedVendorData(m, r)
      case None => None
      case Some(d) => if HasId(project(d)) then Some(project(d)) else None
  }

  /**
   * A context vendor with an `id` decides the block alone: neither the
   * marketplace nor the request can change the vendor it renders.
   */
  lemma ContextVendorWins(context: ContextVendor, m: Market, r: Request, m2: Market, r2: Request,
                          project: VendorData -> ContextVendor)
    requires HasId(context)
    ensures VendorFor(Some(context), m, r, project) == VendorFor(Some(context), m2, r2, project) == Some(context)
  {
  }

  /** A projection that keeps the vendor's id always finds the detected vendor. */
  lemma DetectedVendorIsFound(m: Market, r: Request, project: VendorData -> ContextVendor)
    requires forall d: VendorData :: project(d).id == Some(d.id)
    requires DetectedVendorData(m, r).Some?
    ensures VendorFor(None, m, r, project) == Some(project(DetectedVendorData(m, r).value))
  {
    var d := DetectedVendorData(m, r).value;
    assert project(d).id == Some(d.id);
  }

  /**
   * The product a product block is about: a non-empty `productId` attribute
   * through `absint`, otherwise the detected product; 0 is none.
   */
  function AttributeProductId(r: Request, productIdAttr: Option<int>): (id: nat)
    ensures productIdAttr.Some? && productIdAttr.value != 0 ==> id == Absint(productIdAttr.value) && id != 0
    ensures (productIdAttr.None? || productIdAttr.value == 0) ==> id == GetProductId(r).GetOr(0)
  {
    if productIdAttr.Some? && productIdAttr.value != 0 then Absint(productIdAttr.value)
    else GetProductId(r).GetOr(0)
  }

  /** A parent's query information (`dokan/query`); each key may be missing. */
  datatype QueryInfo = QueryInfo(totalPages: Option<int>, currentPage: Option<int>, total: Option<int>, perPage: Option<int>)

  /** The context a block is rendered with. */
  datatype Context = Context(vendor: Option<ContextVendor>, queryId: Option<string>, query: Option<QueryInfo>)

  const EmptyContext: Context := Context(None, None, None)

  /** A parsed inner block: its name and the rest of its parse, which the plugin passes on unchanged. */
  datatype InnerBlock = InnerBlock(name: string, parsed: string)

  /** An inner block handed to WordPress to render with a given context. */
  datatype Rendered = Rendered(block: InnerBlock, context: Context)

  /** Each inner block, in order, rendered with the same context. */
  function RenderAll(blocks: seq<InnerBlock>, c: Context): (out: seq<Rendered>)
    ensures |out| == |blocks|
    ensures forall i :: 0 <= i < |blocks| ==> out[i] == Rendered(blocks[i], c)
  {
    if |blocks| == 0 then [] else RenderAll(blocks[..|blocks| - 1], c) + [Rendered(blocks[|blocks| - 1], c)]
  }

  /** The `foreach` over `$block->inner_blocks` that renders each with a new context. */
  method RenderInnerBlocks(blocks: seq<InnerBlock>, c: Context) returns (out: seq<Rendered>)
    ensures out == RenderAll(blocks, c)
  {
    out := [];
    var i := 0;
    while i < |blocks|
      invariant 0 <= i <= |blocks|
      invariant out == RenderAll(blocks[..i], c)
    {
      assert blocks[..i + 1][..i] == blocks[..i];
      out := out + [Rendered(blocks[i], c)];
      i := i + 1;
    }
    assert blocks[..i] == blocks;
  }

  /** PHP `empty()` of a `dokan/vendor` array: it has no keys at all. */
  predicate EmptyVendor(v: ContextVendor) {
    v == NoKeys
  }

  /** The context holding only `dokan/vendor`. */
  function VendorContext(v: ContextVendor): (c: Context)
    ensures c.vendor == Some(v) && c.queryId.None? && c.query.None?
  {
    EmptyContext.(vendor := Some(v))
  }
}

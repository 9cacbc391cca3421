/**
 * The more-from-seller block: the gating chain from product to seller,
 * the attribute defaults, and the product query it builds, with the
 * `orderBy` switch as a mapping onto query arguments.
 */
module MoreFromSeller {
  import opened Wp
  import opened Dokan
  import opened ContextDetector
  import opened VendorRenderer
  import opened BlockContext

  /** The `WP_Query` arguments the block builds. */
  datatype ProductQuery = ProductQuery(
    postType: string,
    postsPerPage: nat,
    postNotIn: seq<int>,
    author: int,
    postStatus: string,
    orderby: string,
    metaKey: Option<string>,
    order: Option<string>)

  /** The arguments before the `orderBy` switch. */
  function BaseQuery(perPage: nat, productId: nat, vendorId: nat): (q: ProductQuery)
    ensures q.postNotIn == [productId as int] && q.author == vendorId && q.postStatus == "publish"
    ensures q.postType == "product" && q.postsPerPage == perPage
  {
    ProductQuery("product", perPage, [productId], vendorId, "publish", "", None, None)
  }

  /** The `orderBy` switch: title, price, popularity and date have their own arguments; anything else is random. */
  function ApplyOrder(q: ProductQuery, orderBy: string): (q2: ProductQuery)
    ensures orderBy == "title" ==> q2 == q.(orderby := "title", order := Some("ASC"))
    ensures orderBy == "price" ==> q2 == q.(orderby := "meta_value_num", metaKey := Some("_price"), order := Some("ASC"))
    ensures orderBy == "popularity" ==>
              q2 == q.(orderby := "meta_value_num", metaKey := Some("total_sales"), order := Some("DESC"))
    ensures orderBy == "date" ==> q2 == q.(orderby := "date", order := Some("DESC"))
    ensures orderBy !in {"title", "price", "popularity", "date"} ==> q2 == q.(orderby := "rand")
  {
    match orderBy
    case "title" => q.(orderby := "title", order := Some("ASC"))
    case "price" => q.(orderby := "meta_value_num", metaKey := Some("_price"), order := Some("ASC"))
    case "popularity" => q.(orderby := "meta_value_num", metaKey := Some("total_sales"), order := Some("DESC"))
    case "date" => q.(orderby := "date", order := Some("DESC"))
    case _ => q.(orderby := "rand")
  }

  /** The query for a product of a vendor: attribute defaults 6 per page and random order. */
  function ProductsQuery(perPageAttr: Option<int>, orderByAttr: Option<string>, productId: nat, vendorId: nat): ProductQuery {
    var perPage := if perPageAttr.Some? then Absint(perPageAttr.value) else 6;
    ApplyOrder(BaseQuery(perPage, productId, vendorId), orderByAttr.GetOr("rand"))
  }

  /** Whatever the ordering, the query excludes the product, is restricted to its vendor and to published products. */
  lemma QueryStaysOnVendor(perPageAttr: Option<int>, orderByAttr: Option<string>, productId: nat, vendorId: nat)
    ensures var q := ProductsQuery(perPageAttr, orderByAttr, productId, vendorId);
            q.postNotIn == [productId as int] && q.author == vendorId && q.postStatus == "publish"
            && q.postType == "product"
            && q.postsPerPage == (if perPageAttr.Some? then Absint(perPageAttr.value) else 6)
  {
  }

  /** Without an `orderBy` the products are random, and only the named orders set an `order`. */
  lemma DefaultIsRandom(perPageAttr: Option<int>, productId: nat, vendorId: nat)
    ensures var q := ProductsQuery(perPageAttr, None, productId, vendorId);
            q.orderby == "rand" && q.order.None? && q.metaKey.None?
  {
  }

  /** The four named orders give four different queries, and none of them is the random one. */
  lemma NamedOrdersDiffer(q: ProductQuery, a: string, b: string)
    requires q.metaKey.None? && q.order.None?
    requires a in {"title", "price", "popularity", "date"} && b in {"title", "price", "popularity", "date"}
    requires a != b
    ensures ApplyOrder(q, a) != ApplyOrder(q, b)
    ensures ApplyOrder(q, a) != ApplyOrder(q, "rand")
  {
  }

  /** The block's attributes. */
  datatype MoreAttributes = MoreAttributes(
    productId: Option<int>, perPage: Option<int>, columns: Option<int>, orderBy: Option<string>)

  /** What the block renders. */
  datatype MoreOutput =
    | NoOutput
    /** The grid of the query's products, and a footer link to the shop with its label. */
    | Products(wrapperClass: string, columns: nat, query: ProductQuery, footer: Option<(string, string)>)
    | NoProducts(wrapperClass: string)

  /**
   * `dokan_render_more_from_seller_block`. `filter` stands for the
   * `dokan_blocks_more_from_seller_query_args` filter and `hasPosts` for
   * running the filtered query and asking whether it found anything.
   */
  function Render(m: Market, r: Request, a: MoreAttributes, filter: ProductQuery -> ProductQuery,
                  hasPosts: ProductQuery -> bool): (out: MoreOutput)
    ensures !r.canRead ==> out == NoOutput
    ensures var pid := AttributeProductId(r, a.productId);
            !out.NoOutput? <==> r.canRead && pid != 0 && pid in m.products
                                && Absint(m.products[pid]) != 0 && m.IsSeller(Absint(m.products[pid]))
    ensures out.Products? ==>
              var pid := AttributeProductId(r, a.productId);
              var vendorId := Absint(m.products[pid]);
              var d := GetVendorData(m, vendorId);
              out.query == filter(ProductsQuery(a.perPage, a.orderBy, pid, vendorId))
              && hasPosts(out.query)
              && (out.footer.Some? <==> d.Some? && !Empty(d.value.shopUrl))
              && (out.footer.Some? ==>
                    out.footer.value == (d.value.shopUrl, "View all products from " + d.value.shopName))
    ensures out.NoProducts? ==>
              var pid := AttributeProductId(r, a.productId);
              !hasPosts(filter(ProductsQuery(a.perPage, a.orderBy, pid, Absint(m.products[pid]))))
  {
    if !r.canRead then NoOutput
    else
      var pid := AttributeProductId(r, a.productId);
      if pid == 0 || pid !in m.products then NoOutput
      else
        var vendorId := Absint(m.products[pid]);
        if vendorId == 0 || !m.IsSeller(vendorId) then NoOutput
        else
          var columns := if a.columns.Some? then Absint(a.columns.value) else 4;
          var query := filter(ProductsQuery(a.perPage, a.orderBy, pid, vendorId));
          var d := GetVendorData(m, vendorId);
          var wrapperClass := "dokan-more-from-seller dokan-more-from-seller-columns-" + DecimalString(columns);
          if hasPosts(query) then
            Products(wrapperClass, columns, query,
                     if d.Some? && !Empty(d.value.shopUrl)
                     then Some((d.value.shopUrl, "View all products from " + d.value.shopName)) else None)
          else NoProducts(wrapperClass)
  }
}

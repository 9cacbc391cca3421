/**
 * The store query loop: its settings and the URL parameters that override
 * them, the `WP_User_Query` arguments it builds step by step, the page
 * count, the split of its inner blocks into search, pagination and card
 * blocks, the per-seller cards, and the default pagination.
 */
module StoreQueryLoop {
  import opened Wp
  import opened Dokan
  import opened BlockContext

  const SearchBlockName: string := "the-another/dokan-store-search"
  const PaginationBlockName: string := "the-another/dokan-store-query-pagination"
  const CardBlockName: string := "the-another/dokan-store-card"

  /** The block's attributes. */
  datatype LoopAttributes = LoopAttributes(
    perPage: Option<int>,
    columns: Option<int>,
    displayLayout: Option<string>,
    orderBy: Option<string>,
    showFeaturedOnly: Option<bool>,
    queryId: Option<string>)

  /** The settings after defaults and URL overrides. */
  datatype LoopSettings = LoopSettings(
    perPage: nat, columns: nat, layout: string, orderBy: string, featuredOnly: bool, search: string, paged: nat)

  /**
   * Defaults 12 per page, 3 columns, grid, by name; a non-empty
   * `stores_orderby` parameter replaces the order; a truthy `paged` query
   * variable gives the page, else 1.
   */
  function Settings(r: Request, a: LoopAttributes): (s: LoopSettings)
    ensures s.perPage == (if a.perPage.Some? then Absint(a.perPage.value) else 12)
    ensures s.columns == (if a.columns.Some? then Absint(a.columns.value) else 3)
    ensures s.layout == a.displayLayout.GetOr("grid")
    ensures !EmptyOpt(r.GetParam("stores_orderby")) ==> s.orderBy == r.GetParam("stores_orderby").value
    ensures EmptyOpt(r.GetParam("stores_orderby")) ==> s.orderBy == a.orderBy.GetOr("name")
    ensures s.featuredOnly <==> a.showFeaturedOnly == Some(true)
    ensures s.search == r.GetParam("dokan_seller_search").GetOr("")
    ensures Empty(r.QueryVar("paged", "")) ==> s.paged == 1
    ensures !Empty(r.QueryVar("paged", "")) ==> s.paged == Absint(Intval(r.QueryVar("paged", "")))
  {
    var storesOrderby := r.GetParam("stores_orderby").GetOr("");
    var paged := r.QueryVar("paged", "");
    LoopSettings(
      if a.perPage.Some? then Absint(a.perPage.value) else 12,
      if a.columns.Some? then Absint(a.columns.value) else 3,
      a.displayLayout.GetOr("grid"),
      if !Empty(storesOrderby) then storesOrderby else a.orderBy.GetOr("name"),
      a.showFeaturedOnly.GetOr(false),
      r.GetParam("dokan_seller_search").GetOr(""),
      if !Empty(paged) then Absint(Intval(paged)) else 1)
  }

  /** `WP_User_Query`'s `orderby`: dates become `most_recent`, names `display_name`, anything else passes. */
  function WpOrderby(orderBy: string): (o: string)
    ensures o == "most_recent" <==> orderBy in {"date", "most_recent"}
    ensures o == "display_name" <==> orderBy in {"name", "display_name"}
    ensures orderBy !in {"date", "most_recent", "name"} ==> o == orderBy
  {
    if orderBy == "date" || orderBy == "most_recent" then "most_recent"
    else if orderBy == "name" then "display_name"
    else orderBy
  }

  /** The orders handled by the plugin's own `pre_user_query` hook. */
  predicate UsesCustomOrder(wpOrderby: string) {
    wpOrderby in {"most_recent", "total_orders", "random"}
  }

  /** The column lists the random order picks from. */
  const RandomOrderOptions: seq<string> := ["ID", "user_login, ID", "user_email", "user_registered, ID", "user_nicename, ID"]

  /**
   * The `ORDER BY` the hook installs; `cached` is the transient holding the
   * random choice and `pick` the index `array_rand` would draw.
   */
  function CustomOrderClause(wpOrderby: string, cached: Option<string>, pick: nat): (clause: Option<string>)
    ensures clause.Some? <==> UsesCustomOrder(wpOrderby)
    ensures wpOrderby == "total_orders" ==> clause == Some("ORDER BY orders_count DESC")
    ensures wpOrderby == "most_recent" ==> clause == Some("ORDER BY ID DESC")
    ensures wpOrderby == "random" && cached.Some? ==> clause == Some("ORDER BY " + cached.value)
    ensures wpOrderby == "random" && cached.None? ==>
              exists k :: 0 <= k < |RandomOrderOptions| && clause == Some("ORDER BY " + RandomOrderOptions[k])
  {
    if wpOrderby == "total_orders" then Some("ORDER BY orders_count DESC")
    else if wpOrderby == "most_recent" then Some("ORDER BY ID DESC")
    else if wpOrderby == "random" then
      var k := pick % |RandomOrderOptions|;
      Some("ORDER BY " + (if cached.Some? then cached.value else RandomOrderOptions[k]))
    else None
  }

  /** One clause of a `meta_query`. */
  datatype MetaClause = MetaClause(key: string, value: string, compare: string)

  function SearchClause(search: string): MetaClause { MetaClause("dokan_store_name", search, "LIKE") }
  const FeaturedClause: MetaClause := MetaClause("dokan_feature_seller", "yes", "=")

  /** The `WP_User_Query` arguments; an absent key is None or an empty list. */
  datatype UserQuery = UserQuery(
    role: string,
    number: nat,
    paged: nat,
    orderby: string,
    metaQuery: seq<MetaClause>,
    relation: Option<string>,
    metaKey: Option<string>,
    metaValue: Option<string>)

  /** The arguments the steps of the render build. */
  function UserArgs(s: LoopSettings): UserQuery {
    var base := UserQuery("seller", s.perPage, s.paged, WpOrderby(s.orderBy), [], None, None, None);
    var withSearch := if !Empty(s.search) then base.(metaQuery := [SearchClause(s.search)]) else base;
    if !s.featuredOnly then withSearch
    else if |withSearch.metaQuery| > 0 then
      withSearch.(relation := Some("AND"), metaQuery := withSearch.metaQuery + [FeaturedClause])
    else withSearch.(metaKey := Some("dokan_feature_seller"), metaValue := Some("yes"))
  }

  /** The assignments to `$user_args`, in source order. */
  method BuildUserArgs(s: LoopSettings) returns (args: UserQuery)
    ensures args == UserArgs(s)
  {
    var wpOrderby := s.orderBy;
    if s.orderBy == "date" || s.orderBy == "most_recent" {
      wpOrderby := "most_recent";
    } else if s.orderBy == "name" {
      wpOrderby := "display_name";
    } else if s.orderBy == "total_orders" || s.orderBy == "random" {
      wpOrderby := s.orderBy;
    }
    args := UserQuery("seller", s.perPage, s.paged, wpOrderby, [], None, None, None);
    if !Empty(s.search) {
      args := args.(metaQuery := [SearchClause(s.search)]);
    }
    if s.featuredOnly {
      if |args.metaQuery| > 0 {
        args := args.(relation := Some("AND"));
        args := args.(metaQuery := args.metaQuery + [FeaturedClause]);
      } else {
        args := args.(metaKey := Some("dokan_feature_seller"));
        args := args.(metaValue := Some("yes"));
      }
    }
  }

  /**
   * The search and featured filters combine as the four cases below: a
   * search is a LIKE clause; featured-only joins it with AND, or, without a
   * search, becomes a plain meta key and value.
   */
  lemma MetaQueryCases(s: LoopSettings)
    ensures var q := UserArgs(s);
            q.role == "seller" && q.number == s.perPage && q.paged == s.paged && q.orderby == WpOrderby(s.orderBy)
    ensures var q := UserArgs(s);
            !Empty(s.search) && s.featuredOnly ==>
              q.metaQuery == [SearchClause(s.search), FeaturedClause] && q.relation == Some("AND") && q.metaKey.None?
    ensures var q := UserArgs(s);
            !Empty(s.search) && !s.featuredOnly ==>
              q.metaQuery == [SearchClause(s.search)] && q.relation.None? && q.metaKey.None?
    ensures var q := UserArgs(s);
            Empty(s.search) && s.featuredOnly ==>
              q.metaQuery == [] && q.metaKey == Some("dokan_feature_seller") && q.metaValue == Some("yes")
    ensures var q := UserArgs(s);
            Empty(s.search) && !s.featuredOnly ==>
              q.metaQuery == [] && q.relation.None? && q.metaKey.None? && q.metaValue.None?
  {
  }

  /** `ceil(total / per_page)` as written: PHP 8 throws `DivisionByZeroError` for a zero `per_page`. */
  function TotalPagesAsWritten(total: nat, perPage: nat): (pages: Option<nat>)
    ensures pages.None? <==> perPage == 0
    ensures pages.Some? ==> pages.value * perPage >= total
    ensures pages.Some? && pages.value > 0 ==> (pages.value - 1) * perPage < total
  {
    if perPage == 0 then None else Some(CeilDiv(total, perPage))
  }

  /** The least page count whose pages hold `total` items of `perPage` each. */
  function CeilDiv(total: nat, perPage: nat): (pages: nat)
    requires perPage > 0
    ensures pages * perPage >= total
    ensures pages > 0 ==> (pages - 1) * perPage < total
    ensures total == 0 ==> pages == 0
    ensures pages <= total
  {
    CeilDivBounds(total, perPage);
    (total + perPage - 1) / perPage
  }

  /** The bounds of `(total + perPage - 1) / perPage`, from the quotient and remainder. */
  lemma CeilDivBounds(total: nat, perPage: nat)
    requires perPage > 0
    ensures var q := (total + perPage - 1) / perPage;
            q * perPage >= total && (q > 0 ==> (q - 1) * perPage < total) && q <= total
  {
    var n := total + perPage - 1;
    assert n == (n / perPage) * perPage + n % perPage && 0 <= n % perPage < perPage;
    QuotientBounds(total, perPage, n / perPage, n % perPage);
  }

  /** A quotient `q` and remainder `rem` of `total + perPage - 1` bound `total` from both sides. */
  lemma QuotientBounds(total: nat, perPage: nat, q: int, rem: int)
    requires perPage > 0 && 0 <= rem < perPage
    requires total + perPage - 1 == q * perPage + rem
    ensures q * perPage >= total && (q > 0 ==> (q - 1) * perPage < total) && q <= total
  {
    assert (q - 1) * perPage == q * perPage - perPage;
    MulMono(1, perPage, total);
    assert q * perPage < (total + 1) * perPage;
    if q > total {
      MulMono(total + 1, q, perPage);
    }
  }

  lemma MulMono(a: int, b: int, c: nat)
    requires a <= b
    ensures a * c <= b * c
  {
  }

  lemma MulCancel(a: int, b: int, c: int)
    requires c > 0 && a * c <= b * c
    ensures a <= b
  {
    if a > b {
      MulMono(b + 1, a, c);
    }
  }


  /**
   * The page count the loop should report: with `per_page` 0 the user query
   * has no limit, so every store sits on one page.
   */
  function TotalPages(total: nat, perPage: nat): (pages: nat)
    ensures perPage > 0 ==> Some(pages) == TotalPagesAsWritten(total, perPage)
    ensures perPage == 0 ==> pages == (if total > 0 then 1 else 0)
    ensures pages <= total
  {
    if perPage == 0 then (if total > 0 then 1 else 0) else CeilDiv(total, perPage)
  }

  /** More than one page exactly when there are more stores than fit on one. */
  lemma SeveralPagesIffOverflow(total: nat, perPage: nat)
    requires perPage > 0
    ensures TotalPages(total, perPage) > 1 <==> total > perPage
  {
    var p := TotalPages(total, perPage);
    if total > perPage {
      assert p * perPage > perPage;
      if p <= 1 {
        MulMono(p, 1, perPage);
      }
    } else if p > 1 {
      MulMono(1, p - 1, perPage);
    }
  }

  /** The inner blocks of one name, in their order. */
  function Named(blocks: seq<InnerBlock>, name: string): (named: seq<InnerBlock>)
    ensures |named| <= |blocks|
  {
    if blocks == [] then []
    else
      var b := blocks[|blocks| - 1];
      var rest := Named(blocks[..|blocks| - 1], name);
      if b.name == name then rest + [b] else rest
  }

  /** Exactly the blocks of that name are selected. */
  lemma {:induction false} NamedMembers(blocks: seq<InnerBlock>, name: string)
    ensures forall b :: b in Named(blocks, name) <==> b in blocks && b.name == name
  {
    if blocks != [] {
      var init := blocks[..|blocks| - 1];
      NamedMembers(init, name);
      assert forall c :: c in blocks <==> c in init || c == blocks[|blocks| - 1];
    }
  }

  /** Selection keeps order: the blocks of a concatenation are the blocks of each part, in turn. */
  lemma {:induction false} NamedAppend(a: seq<InnerBlock>, b: seq<InnerBlock>, name: string)
    ensures Named(a + b, name) == Named(a, name) + Named(b, name)
    decreases |b|
  {
    if b == [] {
      assert a + b == a;
    } else {
      var init := b[..|b| - 1];
      var last := b[|b| - 1];
      NamedAppend(a, init, name);
      var ab := a + b;
      assert ab[..|ab| - 1] == a + init && ab[|ab| - 1] == last;
      if last.name == name {
        assert Named(ab, name) == Named(a + init, name) + [last];
        assert Named(b, name) == Named(init, name) + [last];
      } else {
        assert Named(ab, name) == Named(a + init, name);
        assert Named(b, name) == Named(init, name);
      }
    }
  }

  /** The `foreach` that sorts the inner blocks into search, pagination and card blocks; others are dropped. */
  method PartitionInnerBlocks(blocks: seq<InnerBlock>)
    returns (search: seq<InnerBlock>, pagination: seq<InnerBlock>, cards: seq<InnerBlock>)
    ensures search == Named(blocks, SearchBlockName)
    ensures pagination == Named(blocks, PaginationBlockName)
    ensures cards == Named(blocks, CardBlockName)
  {
    search, pagination, cards := [], [], [];
    var i := 0;
    while i < |blocks|
      invariant 0 <= i <= |blocks|
      invariant search == Named(blocks[..i], SearchBlockName)
      invariant pagination == Named(blocks[..i], PaginationBlockName)
      invariant cards == Named(blocks[..i], CardBlockName)
    {
      assert blocks[..i + 1][..i] == blocks[..i];
      var b := blocks[i];
      if b.name == SearchBlockName {
        search := search + [b];
      } else if b.name == PaginationBlockName {
        pagination := pagination + [b];
      } else if b.name == CardBlockName {
        cards := cards + [b];
      }
      i := i + 1;
    }
    assert blocks[..i] == blocks;
  }

  /** The three lists together are at most the inner blocks: no block lands in two of them. */
  lemma {:induction false} PartitionSizes(blocks: seq<InnerBlock>)
    ensures |Named(blocks, SearchBlockName)| + |Named(blocks, PaginationBlockName)| + |Named(blocks, CardBlockName)|
            <= |blocks|
  {
    if blocks != [] {
      PartitionSizes(blocks[..|blocks| - 1]);
    }
  }

  /** What is rendered for one seller. */
  datatype SellerItem =
    | CardItems(rendered: seq<Rendered>)
    /** The default card: the avatar and name blocks, each when its render function exists. */
    | DefaultCard(vendor: ContextVendor, avatar: bool, name: bool)

  /** The sellers of the query result that are shown: each id that names a seller with a vendor object. */
  function ShownSellers(m: Market, ids: seq<int>): (shown: seq<nat>)
    ensures |shown| <= |ids|
    ensures forall i :: 0 <= i < |shown| ==> shown[i] in m.vendors && m.IsSeller(shown[i])
    ensures forall k :: 0 <= k < |ids| && Absint(ids[k]) in m.vendors && m.IsSeller(Absint(ids[k])) ==>
              Absint(ids[k]) in shown
  {
    if ids == [] then []
    else
      var id := Absint(ids[|ids| - 1]);
      var rest := ShownSellers(m, ids[..|ids| - 1]);
      assert forall k :: 0 <= k < |ids| - 1 ==> ids[..|ids| - 1][k] == ids[k];
      if id in m.vendors && m.IsSeller(id) then rest + [id] else rest
  }

  /** One id is shown exactly when it names a seller with a vendor object. */
  lemma ShownSellersOne(m: Market, id: int)
    ensures ShownSellers(m, [id]) == (if Absint(id) in m.vendors && m.IsSeller(Absint(id)) then [Absint(id)] else [])
  {
    assert [id][..0] == [];
  }

  /** The shown sellers of a non-empty result are those of all but its last id, then that id if it is shown. */
  lemma ShownSellersLast(m: Market, ids: seq<int>)
    requires |ids| > 0
    ensures ShownSellers(m, ids) == ShownSellers(m, ids[..|ids| - 1])
              + (if Absint(ids[|ids| - 1]) in m.vendors && m.IsSeller(Absint(ids[|ids| - 1]))
                 then [Absint(ids[|ids| - 1])] else [])
  {
  }

  /** The shown sellers of two runs of ids are the first run's, then the second's: result order is kept. */
  lemma {:induction false} ShownSellersAppend(m: Market, ids1: seq<int>, ids2: seq<int>)
    ensures ShownSellers(m, ids1 + ids2) == ShownSellers(m, ids1) + ShownSellers(m, ids2)
    decreases |ids2|
  {
    if |ids2| == 0 {
      assert ids1 + ids2 == ids1;
    } else {
      var front := ids2[..|ids2| - 1];
      assert (ids1 + ids2)[..|ids1 + ids2| - 1] == ids1 + front;
      assert (ids1 + ids2)[|ids1 + ids2| - 1] == ids2[|ids2| - 1];
      ShownSellersLast(m, ids1 + ids2);
      ShownSellersLast(m, ids2);
      ShownSellersAppend(m, ids1, front);
    }
  }

  /** The item for one seller; cards see the loop's context with `dokan/vendor` set to the seller. */
  function Item(m: Market, v: VendorObject, cards: seq<InnerBlock>, loop: Context): (item: SellerItem)
    ensures |cards| > 0 ==> item.CardItems? && |item.rendered| == |cards|
    ensures item.CardItems? ==> forall i :: 0 <= i < |cards| ==>
              item.rendered[i].block == cards[i]
              && item.rendered[i].context == loop.(vendor := Some(ToArray(v)))
    ensures |cards| == 0 ==> item == DefaultCard(ToArray(v), "dokan_render_store_avatar_block" in m.functions,
                                                 "dokan_render_store_name_block" in m.functions)
  {
    if |cards| > 0 then CardItems(RenderAll(cards, loop.(vendor := Some(ToArray(v)))))
    else DefaultCard(ToArray(v), "dokan_render_store_avatar_block" in m.functions,
                     "dokan_render_store_name_block" in m.functions)
  }

  /** The items for the shown sellers, in result order. */
  function SellerItems(m: Market, ids: seq<int>, cards: seq<InnerBlock>, loop: Context): (items: seq<SellerItem>)
    ensures |items| == |ShownSellers(m, ids)|
    ensures forall i :: 0 <= i < |items| ==> items[i] == Item(m, m.vendors[ShownSellers(m, ids)[i]], cards, loop)
  {
    if ids == [] then []
    else
      var id := Absint(ids[|ids| - 1]);
      var rest := SellerItems(m, ids[..|ids| - 1], cards, loop);
      if id in m.vendors && m.IsSeller(id) then rest + [Item(m, m.vendors[id], cards, loop)] else rest
  }

  /** The `foreach` over the query's sellers, skipping those without a vendor object or seller role. */
  method CollectSellerItems(m: Market, ids: seq<int>, cards: seq<InnerBlock>, loop: Context)
    returns (items: seq<SellerItem>)
    ensures items == SellerItems(m, ids, cards, loop)
  {
    items := [];
    var i := 0;
    while i < |ids|
      invariant 0 <= i <= |ids|
      invariant items == SellerItems(m, ids[..i], cards, loop)
    {
      assert ids[..i + 1][..i] == ids[..i];
      var vendorId := Absint(ids[i]);
      if vendorId in m.vendors && m.IsSeller(vendorId) {
        var item := Item(m, m.vendors[vendorId], cards, loop);
        items := items + [item];
      }
      i := i + 1;
    }
    assert ids[..i] == ids;
  }

  /** The pagination under the list. */
  datatype PaginationPart =
    | PaginationBlock(rendered: Rendered)
    | DefaultPagination(total: nat, current: nat)
    | NoPagination

  /** Only the first pagination block is rendered; without one, the default links appear beyond one page. */
  function Pagination(blocks: seq<InnerBlock>, loop: Context, totalPages: nat, paged: nat): (p: PaginationPart)
    ensures p.PaginationBlock? <==> |blocks| > 0
    ensures p.PaginationBlock? ==> p.rendered == Rendered(blocks[0], loop)
    ensures p.DefaultPagination? <==> |blocks| == 0 && totalPages > 1
    ensures p.DefaultPagination? ==> p.total == totalPages && p.current == paged
  {
    if |blocks| > 0 then PaginationBlock(Rendered(blocks[0], loop))
    else if totalPages > 1 then DefaultPagination(totalPages, paged)
    else NoPagination
  }

  /** The pagination `foreach` that stops after its first block, then the fallback. */
  method RenderPagination(blocks: seq<InnerBlock>, loop: Context, totalPages: nat, paged: nat)
    returns (p: PaginationPart)
    ensures p == Pagination(blocks, loop, totalPages, paged)
  {
    var rendered := false;
    p := NoPagination;
    var i := 0;
    // the `break` after the first block: the loop stops as soon as one is rendered
    while i < |blocks| && !rendered
      invariant 0 <= i <= |blocks| && i <= 1
      invariant rendered <==> i == 1
      invariant rendered ==> p == PaginationBlock(Rendered(blocks[0], loop))
      invariant !rendered ==> p == NoPagination
    {
      p := PaginationBlock(Rendered(blocks[i], loop));
      rendered := true;
      i := i + 1;
    }
    if !rendered && totalPages > 1 {
      p := DefaultPagination(totalPages, paged);
    }
  }

  /** The `ul` classes: grid adds the column count, list its own class, any other layout nothing. */
  function GridClasses(layout: string, columns: nat): (classes: string)
    ensures layout == "grid" ==> classes == "dokan-store-list-wrap dokan-store-list-grid dokan-store-list-columns-"
                                             + DecimalString(columns)
    ensures layout == "list" ==> classes == "dokan-store-list-wrap dokan-store-list-list"
    ensures layout !in {"grid", "list"} ==> classes == "dokan-store-list-wrap"
  {
    if layout == "grid" then "dokan-store-list-wrap dokan-store-list-grid dokan-store-list-columns-" + DecimalString(columns)
    else if layout == "list" then "dokan-store-list-wrap dokan-store-list-list"
    else "dokan-store-list-wrap"
  }

  /** What the block renders; `count` is what the store-count filter answers meanwhile. */
  datatype LoopOutput =
    | NoOutput
    | Listing(wrapperClass: string, search: seq<Rendered>, gridClasses: string, items: seq<SellerItem>,
              pagination: PaginationPart, count: nat)
    | EmptyListing(wrapperClass: string, search: seq<Rendered>, count: nat)

  /** The context the loop passes down: the parent's, with `dokan/queryId` and `dokan/query` set. */
  function LoopContext(parent: Context, s: LoopSettings, queryId: string, total: nat): (c: Context)
    ensures c.vendor == parent.vendor
    ensures c.queryId == Some(queryId)
    ensures c.query == Some(QueryInfo(Some(TotalPages(total, s.perPage)), Some(s.paged), Some(total), Some(s.perPage)))
  {
    parent.(queryId := Some(queryId), query := Some(QueryInfo(Some(TotalPages(total, s.perPage)), Some(s.paged), Some(total), Some(s.perPage))))
  }

  /**
   * `dokan_render_store_list_block`. The user query itself is not run
   * here: `sellerIds` and `total` are its results for the filtered
   * arguments, and `uniqueId` is what `wp_unique_id` gives.
   */
  function Render(m: Market, r: Request, a: LoopAttributes, parent: Context, blocks: seq<InnerBlock>,
                  sellerIds: seq<int>, total: nat, uniqueId: string): (out: LoopOutput)
    ensures !r.canRead <==> out == NoOutput
    ensures out.EmptyListing? <==> r.canRead && sellerIds == []
    ensures !out.NoOutput? ==>
              var s := Settings(r, a);
              out.wrapperClass == "dokan-store-list dokan-store-list-" + s.layout + " dokan-store-list-columns-"
                                  + DecimalString(s.columns)
              && out.count == total
              && out.search == RenderAll(Named(blocks, SearchBlockName),
                                         LoopContext(parent, s, "store-query-" + a.queryId.GetOr(uniqueId), total))
    ensures out.Listing? ==>
              var s := Settings(r, a);
              var loop := LoopContext(parent, s, "store-query-" + a.queryId.GetOr(uniqueId), total);
              out.gridClasses == GridClasses(s.layout, s.columns)
              && out.items == SellerItems(m, sellerIds, Named(blocks, CardBlockName), loop)
              && out.pagination == Pagination(Named(blocks, PaginationBlockName), loop, TotalPages(total, s.perPage), s.paged)
  {
    if !r.canRead then NoOutput
    else
      var s := Settings(r, a);
      var loop := LoopContext(parent, s, "store-query-" + a.queryId.GetOr(uniqueId), total);
      var wrapperClass := "dokan-store-list dokan-store-list-" + s.layout + " dokan-store-list-columns-"
                          + DecimalString(s.columns);
      var search := RenderAll(Named(blocks, SearchBlockName), loop);
      if sellerIds == [] then EmptyListing(wrapperClass, search, total)
      else
        Listing(wrapperClass, search, GridClasses(s.layout, s.columns),
                SellerItems(m, sellerIds, Named(blocks, CardBlockName), loop),
                Pagination(Named(blocks, PaginationBlockName), loop, TotalPages(total, s.perPage), s.paged), total)
  }

  /**
   * `dokan_render_store_list_block` as written: None is the
   * `DivisionByZeroError` that `ceil($total_users / $per_page)` throws for a
   * zero `per_page`, for every reader, before anything is rendered; otherwise
   * the output of the corrected `Render`, whose page count is then the same.
   */
  function RenderAsWritten(m: Market, r: Request, a: LoopAttributes, parent: Context, blocks: seq<InnerBlock>,
                           sellerIds: seq<int>, total: nat, uniqueId: string): (out: Option<LoopOutput>)
    ensures out.None? <==> r.canRead && Settings(r, a).perPage == 0
    ensures out.Some? ==> out.value == Render(m, r, a, parent, blocks, sellerIds, total, uniqueId)
    ensures out.Some? && r.canRead ==>
              Some(TotalPages(total, Settings(r, a).perPage)) == TotalPagesAsWritten(total, Settings(r, a).perPage)
  {
    if r.canRead && TotalPagesAsWritten(total, Settings(r, a).perPage).None? then None
    else Some(Render(m, r, a, parent, blocks, sellerIds, total, uniqueId))
  }

  /** A block whose `perPage` attribute is 0 throws for every reader, whatever the query finds. */
  lemma ZeroPerPageThrows(m: Market, r: Request, a: LoopAttributes, parent: Context, blocks: seq<InnerBlock>,
                          sellerIds: seq<int>, total: nat, uniqueId: string)
    requires r.canRead && a.perPage == Some(0)
    ensures Settings(r, a).perPage == 0
    ensures TotalPagesAsWritten(total, Settings(r, a).perPage).None?
    ensures RenderAsWritten(m, r, a, parent, blocks, sellerIds, total, uniqueId).None?
    ensures Render(m, r, a, parent, blocks, sellerIds, total, uniqueId) != NoOutput
  {
  }

  /** A `stores_orderby` parameter beats the block's own order. */
  lemma UrlOrderWins(r: Request, a: LoopAttributes, order: string)
    requires r.GetParam("stores_orderby") == Some(order) && !Empty(order)
    ensures UserArgs(Settings(r, a)).orderby == WpOrderby(order)
  {
  }

  /** Every card of the listing is handed its seller as `dokan/vendor`, along with the loop's query. */
  lemma CardsSeeTheirSeller(m: Market, r: Request, a: LoopAttributes, parent: Context, blocks: seq<InnerBlock>,
                            sellerIds: seq<int>, total: nat, uniqueId: string, i: nat, j: nat)
    requires Render(m, r, a, parent, blocks, sellerIds, total, uniqueId).Listing?
    requires i < |ShownSellers(m, sellerIds)| && j < |Named(blocks, CardBlockName)|
    ensures var out := Render(m, r, a, parent, blocks, sellerIds, total, uniqueId);
            var v := m.vendors[ShownSellers(m, sellerIds)[i]];
            out.items[i].CardItems?
            && out.items[i].rendered[j].context.vendor == Some(ToArray(v))
            && out.items[i].rendered[j].context.queryId.Some?
            && out.items[i].rendered[j].context.query.Some?
  {
  }
}

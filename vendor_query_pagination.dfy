/**
 * The vendor-query-pagination block: it shows only inside a query loop that
 * has more than one page, and composes the arguments it hands to
 * WordPress's `paginate_links`.
 */
module VendorQueryPagination {
  import opened Wp
  import opened BlockContext

  /** The arguments passed to `paginate_links`. */
  datatype PaginateArgs = PaginateArgs(
    base: string, format: string, current: int, total: int, midSize: nat, prevText: string, nextText: string)

  /** The page-number placeholder format: appended with '&' when the base URL already has a query string. */
  function Format(baseUrl: string): (format: string)
    ensures Contains(baseUrl, "?") ==> format == "&paged=%#%"
    ensures !Contains(baseUrl, "?") ==> format == "?paged=%#%"
  {
    if Contains(baseUrl, "?") then "&paged=%#%" else "?paged=%#%"
  }

  /** The "previous" link text: an optional arrow, then an optional label. */
  function PrevText(arrow: string, showLabel: bool): (text: string)
    ensures |text| == (if arrow == "arrow" then 7 else 0) + (if showLabel then 8 else 0)
    ensures arrow == "arrow" ==> text[..7] == "&larr; "
    ensures showLabel ==> text[|text| - 8..] == "Previous"
  {
    (if arrow == "arrow" then "&larr; " else "") + (if showLabel then "Previous" else "")
  }

  /** The "next" link text: an optional label, then an optional arrow. */
  function NextText(arrow: string, showLabel: bool): (text: string)
    ensures |text| == (if showLabel then 4 else 0) + (if arrow == "arrow" then 7 else 0)
    ensures showLabel ==> text[..4] == "Next"
    ensures arrow == "arrow" ==> text[|text| - 7..] == " &rarr;"
  {
    (if showLabel then "Next" else "") + (if arrow == "arrow" then " &rarr;" else "")
  }

  /** The arrow leads the previous text and trails the next text; without arrow and label both are empty. */
  lemma LinkTextsMirror(arrow: string, showLabel: bool)
    ensures arrow == "arrow" ==> StartsWith(PrevText(arrow, showLabel), "&larr; ")
                                 && NextText(arrow, showLabel)[|NextText(arrow, showLabel)| - 7..] == " &rarr;"
    ensures showLabel ==> Contains(PrevText(arrow, showLabel), "Previous") && StartsWith(NextText(arrow, showLabel), "Next")
    ensures arrow != "arrow" && !showLabel ==> PrevText(arrow, showLabel) == "" && NextText(arrow, showLabel) == ""
  {
    var prev := PrevText(arrow, showLabel);
    if arrow == "arrow" {
      assert prev[..|"&larr; "|] == "&larr; ";
    }
    if showLabel {
      ContainsOfSuffix(prev, |prev| - 8, "Previous");
      var next := NextText(arrow, showLabel);
      assert next[..4] == "Next";
    }
  }

  /** PHP truthiness of `dokan/queryId`. */
  predicate HasQueryId(c: Context) {
    c.queryId.Some? && !Empty(c.queryId.value)
  }

  /** PHP truthiness of `dokan/query`: an array with at least one key. */
  predicate HasQuery(c: Context) {
    c.query.Some? && c.query.value != QueryInfo(None, None, None, None)
  }

  /** The block's attributes. */
  datatype PaginationAttributes = PaginationAttributes(
    paginationArrow: Option<string>, showLabel: Option<bool>, midSize: Option<int>)

  /**
   * `theabd_render_vendor_query_pagination_block`; None is the empty
   * string. `pagenumLink` stands for `get_pagenum_link`.
   */
  function Render(c: Context, a: PaginationAttributes, pagenumLink: nat -> string): (args: Option<PaginateArgs>)
    ensures !HasQueryId(c) || !HasQuery(c) ==> args.None?
    ensures HasQueryId(c) && HasQuery(c) ==> (args.Some? <==> c.query.value.totalPages.GetOr(0) > 1)
    ensures args.Some? ==>
              args.value.total == c.query.value.totalPages.value
              && args.value.current == c.query.value.currentPage.GetOr(1)
              && args.value.midSize == (if a.midSize.Some? then Absint(a.midSize.value) else 2)
              && args.value.format == Format(pagenumLink(1))
              && args.value.base == ReplaceAll(pagenumLink(999999999), "999999999", "%#%")
              && args.value.prevText == PrevText(a.paginationArrow.GetOr("none"), a.showLabel == Some(true))
              && args.value.nextText == NextText(a.paginationArrow.GetOr("none"), a.showLabel == Some(true))
  {
    if !HasQueryId(c) || !HasQuery(c) then None
    else
      var q := c.query.value;
      var totalPages := q.totalPages.GetOr(0);
      if totalPages <= 1 then None
      else
        var arrow := a.paginationArrow.GetOr("none");
        var showLabel := a.showLabel.GetOr(false);
        Some(PaginateArgs(
          ReplaceAll(pagenumLink(999999999), "999999999", "%#%"),
          Format(pagenumLink(1)),
          q.currentPage.GetOr(1),
          totalPages,
          if a.midSize.Some? then Absint(a.midSize.value) else 2,
          PrevText(arrow, showLabel),
          NextText(arrow, showLabel)))
  }

  /** Whenever the page link carries the marker page number, the base carries the `%#%` placeholder. */
  lemma BaseHasPlaceholder(c: Context, a: PaginationAttributes, pagenumLink: nat -> string)
    requires Render(c, a, pagenumLink).Some? && Contains(pagenumLink(999999999), "999999999")
    ensures Contains(Render(c, a, pagenumLink).value.base, "%#%")
  {
    ReplaceAllIntroduces(pagenumLink(999999999), "999999999", "%#%");
  }

  /** The store query loop's own context always lets its pagination block through when it has several pages. */
  lemma LoopContextShowsPagination(c: Context, a: PaginationAttributes, pagenumLink: nat -> string,
                                   queryId: string, pages: nat, paged: nat, total: nat, perPage: nat)
    requires c.queryId == Some(queryId) && c.query == Some(QueryInfo(Some(pages), Some(paged), Some(total), Some(perPage)))
    requires !Empty(queryId) && pages > 1
    ensures Render(c, a, pagenumLink).Some?
    ensures Render(c, a, pagenumLink).value.current == paged
  {
  }
}

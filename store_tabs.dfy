/**
 * The store-tabs block: which tab is current (in this block's own
 * vocabulary), when a tab counts as active, and the list of tab items.
 */
module StoreTabs {
  import opened Wp
  import opened Dokan
  import opened ContextDetector
  import StoreTemplate

  /** `dokan_blocks_get_current_store_tab`: terms first, then reviews, else products. */
  function CurrentTab(r: Request): (tab: string)
    ensures tab in {"terms_and_conditions", "reviews", "products"}
    ensures tab == "terms_and_conditions" <==> StoreTemplate.QueryVarSet(r, "toc")
    ensures tab == "reviews" <==> !StoreTemplate.QueryVarSet(r, "toc") && StoreTemplate.QueryVarSet(r, "store_review")
  {
    if StoreTemplate.QueryVarSet(r, "toc") then "terms_and_conditions"
    else if StoreTemplate.QueryVarSet(r, "store_review") then "reviews"
    else "products"
  }

  /** The template's tab names translated into this block's names. */
  function TabName(templateTab: string): string {
    if templateTab == StoreTemplate.TabToc then "terms_and_conditions"
    else if templateTab == StoreTemplate.TabReview then "reviews"
    else "products"
  }

  /** The two detections read the same variables in the same order; only their names differ. */
  lemma SameTabAsTemplate(r: Request)
    ensures CurrentTab(r) == TabName(StoreTemplate.CurrentStoreTab(r))
  {
  }

  /** PHP `strtok(url, '?')` on a fresh string: leading '?' are skipped, then the text up to the next '?'; None is false. */
  function Strtok(url: string): (token: Option<string>)
    ensures token.Some? ==> |token.value| > 0 && '?' !in token.value
    ensures token.None? <==> forall i :: 0 <= i < |url| ==> url[i] == '?'
    decreases |url|
  {
    if url == [] then None
    else if url[0] == '?' then Strtok(url[1..])
    else
      if '?' in url[1..] then Some([url[0]] + UpTo(url[1..])) else Some(url)
  }

  /** The text before the first '?'. */
  function UpTo(s: string): (p: string)
    ensures '?' !in p && p <= s
    ensures |p| < |s| ==> s[|p|] == '?'
  {
    if s == [] || s[0] == '?' then [] else [s[0]] + UpTo(s[1..])
  }

  /** The characters `trailingslashit` strips before appending '/'. */
  function TrimSlashes(s: string): (r: string)
    ensures r <= s
    ensures |r| > 0 ==> r[|r| - 1] != '/' && r[|r| - 1] != '\\'
  {
    if |s| > 0 && (s[|s| - 1] == '/' || s[|s| - 1] == '\\') then TrimSlashes(s[..|s| - 1]) else s
  }

  /** WordPress's `trailingslashit`; PHP's false reads as "". */
  function TrailingSlashIt(s: Option<string>): (r: string)
    ensures |r| > 0 && r[|r| - 1] == '/'
  {
    TrimSlashes(s.GetOr("")) + "/"
  }

  /** A URL as the tabs compare it: without its query string, with exactly one trailing slash. */
  function Normalize(url: string): string {
    TrailingSlashIt(Strtok(url))
  }

  /** A query string does not change the normalised URL. */
  lemma QueryStringIgnored(path: string, query: string)
    requires |path| > 0 && '?' !in path
    ensures Normalize(path + "?" + query) == Normalize(path)
  {
    StrtokOfPath(path, "?" + query);
    StrtokOfPath(path, "");
    assert path + "?" + query == path + ("?" + query);
    assert path + "" == path;
  }

  /** `strtok` of a path followed by nothing or by a query string is the path. */
  lemma StrtokOfPath(path: string, suffix: string)
    requires |path| > 0 && '?' !in path
    requires suffix == "" || suffix[0] == '?'
    ensures Strtok(path + suffix) == Some(path)
  {
    var s := path + suffix;
    assert s[0] == path[0] != '?';
    if suffix == "" {
      assert s == path;
      assert '?' !in s[1..];
    } else {
      assert s[1..] == path[1..] + suffix;
      UpToOfPath(path[1..], suffix);
      assert s[1..][|path| - 1] == '?';
      assert [path[0]] + path[1..] == path;
    }
  }

  /** `UpTo` of a '?'-free text followed by nothing or by a query string is that text. */
  lemma {:induction false} UpToOfPath(p: string, suffix: string)
    requires '?' !in p
    requires suffix == "" || suffix[0] == '?'
    ensures UpTo(p + suffix) == p
  {
    var s := p + suffix;
    if p != [] {
      assert s[0] == p[0];
      assert s[1..] == p[1..] + suffix;
      UpToOfPath(p[1..], suffix);
      assert [p[0]] + p[1..] == p;
    } else if suffix != "" {
      assert s[0] == '?';
    } else {
      assert s == [];
    }
  }

  /** A trailing slash does not change the normalised URL. */
  lemma TrailingSlashIgnored(path: string)
    requires |path| > 0 && '?' !in path
    ensures Normalize(path + "/") == Normalize(path)
  {
    StrtokOfPath(path, "");
    StrtokOfPath(path + "/", "");
    assert path + "" == path;
    assert (path + "/") + "" == path + "/";
    assert '?' !in path + "/";
    assert (path + "/")[..|path + "/"| - 1] == path;
  }

  /** `dokan_blocks_is_tab_active`: the key names the current tab, or the URLs agree once normalised. */
  predicate IsTabActive(r: Request, key: string, url: string) {
    CurrentTab(r) == key || Normalize(r.currentUrl) == Normalize(url)
  }

  /** `x/?a=1` is the page `x`. */
  lemma TabUrlWithQueryIsActive(r: Request, key: string, path: string, query: string)
    requires |path| > 0 && '?' !in path && r.currentUrl == path + "/"
    ensures IsTabActive(r, key, path + "?" + query)
  {
    QueryStringIgnored(path, query);
    TrailingSlashIgnored(path);
  }

  /** One `<li>` of the tab list. */
  datatype TabItem = TabItem(url: string, title: string, active: bool)

  /** The item a tab with a URL shows: titled by its title or else its key, active when it is the current tab. */
  function ItemOf(r: Request, t: StoreTab): TabItem
    requires t.url.Some?
  {
    TabItem(t.url.value, t.title.GetOr(t.key), IsTabActive(r, t.key, t.url.value))
  }

  /** The items for `tabs`: those with a non-empty URL, in order, titled by their title or else their key. */
  function TabItems(r: Request, tabs: seq<StoreTab>): (items: seq<TabItem>)
    ensures |items| <= |tabs|
    ensures forall i :: 0 <= i < |items| ==> !Empty(items[i].url)
    ensures (forall t :: t in tabs ==> EmptyOpt(t.url)) ==> items == []
  {
    if tabs == [] then []
    else
      var t := tabs[|tabs| - 1];
      var rest := TabItems(r, tabs[..|tabs| - 1]);
      assert forall u :: u in tabs ==> u in tabs[..|tabs| - 1] || u == t;
      if EmptyOpt(t.url) then rest
      else rest + [ItemOf(r, t)]
  }

  /** Every tab with a URL shows its item, and every item shown is the item of such a tab. */
  lemma {:induction false} TabItemsMembers(r: Request, tabs: seq<StoreTab>)
    ensures forall t :: t in tabs && !EmptyOpt(t.url) ==> ItemOf(r, t) in TabItems(r, tabs)
    ensures forall it :: it in TabItems(r, tabs) ==> exists t :: t in tabs && !EmptyOpt(t.url) && it == ItemOf(r, t)
  {
    if tabs != [] {
      var front := tabs[..|tabs| - 1];
      var t := tabs[|tabs| - 1];
      TabItemsMembers(r, front);
      assert tabs == front + [t];
      TabItemsLast(r, tabs);
    }
  }

  /** One tab gives its item when its URL is non-empty, and nothing otherwise. */
  lemma TabItemsOne(r: Request, t: StoreTab)
    ensures TabItems(r, [t]) == (if EmptyOpt(t.url) then [] else [ItemOf(r, t)])
  {
    assert [t][..0] == [];
  }

  /** The items of a non-empty run are those of all but its last tab, then the last tab's item if it has a URL. */
  lemma TabItemsLast(r: Request, ts: seq<StoreTab>)
    requires |ts| > 0
    ensures TabItems(r, ts) == TabItems(r, ts[..|ts| - 1])
              + (if EmptyOpt(ts[|ts| - 1].url) then [] else [ItemOf(r, ts[|ts| - 1])])
  {
  }

  /** The items of two runs of tabs are the first run's items, then the second's: tab order is kept. */
  lemma {:induction false} TabItemsAppend(r: Request, ts1: seq<StoreTab>, ts2: seq<StoreTab>)
    ensures TabItems(r, ts1 + ts2) == TabItems(r, ts1) + TabItems(r, ts2)
    decreases |ts2|
  {
    if |ts2| == 0 {
      assert ts1 + ts2 == ts1;
    } else {
      var front := ts2[..|ts2| - 1];
      var last := ts2[|ts2| - 1];
      assert (ts1 + ts2)[..|ts1 + ts2| - 1] == ts1 + front;
      assert (ts1 + ts2)[|ts1 + ts2| - 1] == last;
      TabItemsLast(r, ts1 + ts2);
      TabItemsLast(r, ts2);
      TabItemsAppend(r, ts1, front);
    }
  }

  /** The `foreach` over `dokan_get_store_tabs()`. */
  method CollectTabItems(r: Request, tabs: seq<StoreTab>) returns (items: seq<TabItem>)
    ensures items == TabItems(r, tabs)
  {
    items := [];
    var i := 0;
    while i < |tabs|
      invariant 0 <= i <= |tabs|
      invariant items == TabItems(r, tabs[..i])
    {
      assert tabs[..i + 1][..i] == tabs[..i];
      var t := tabs[i];
      if !EmptyOpt(t.url) {
        var active := IsTabActive(r, t.key, t.url.value);
        items := items + [TabItem(t.url.value, t.title.GetOr(t.key), active)];
      }
      i := i + 1;
    }
    assert tabs[..i] == tabs;
  }

  /** The non-empty `vendorId` attribute, else the detected vendor; 0 is none. */
  function TabsVendorId(m: Market, r: Request, vendorIdAttr: Option<int>): (id: int)
    ensures vendorIdAttr.Some? && vendorIdAttr.value != 0 ==> id == Absint(vendorIdAttr.value)
    ensures (vendorIdAttr.None? || vendorIdAttr.value == 0) ==> id == GetVendorId(m, r).GetOr(0)
  {
    if vendorIdAttr.Some? && vendorIdAttr.value != 0 then Absint(vendorIdAttr.value)
    else GetVendorId(m, r).GetOr(0)
  }

  /** `dokan_render_store_tabs_block`; None is the empty string. A store without tabs has none on record. */
  function Render(m: Market, r: Request, vendorIdAttr: Option<int>): (list: Option<seq<TabItem>>)
    ensures var id := TabsVendorId(m, r, vendorIdAttr);
            list.Some? <==> id != 0 && m.IsSeller(id) && id in m.storeTabs && |m.storeTabs[id]| > 0
    ensures list.Some? ==> list.value == TabItems(r, m.storeTabs[TabsVendorId(m, r, vendorIdAttr)])
  {
    var id := TabsVendorId(m, r, vendorIdAttr);
    if id == 0 || !m.IsSeller(id) then None
    else if id !in m.storeTabs || |m.storeTabs[id]| == 0 then None
    else Some(TabItems(r, m.storeTabs[id]))
  }

  /** The tab of the current page is active, whatever its URL. */
  lemma {:induction false} CurrentTabIsActive(r: Request, tabs: seq<StoreTab>, t: StoreTab)
    requires t in tabs && !EmptyOpt(t.url) && t.key == CurrentTab(r)
    ensures TabItem(t.url.value, t.title.GetOr(t.key), true) in TabItems(r, tabs)
  {
    TabItemsMembers(r, tabs);
  }
}

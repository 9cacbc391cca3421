/**
 * The store-listing page template (`Store_List_Template`): on the listing
 * page its slug is put first in the page template hierarchy.
 */
module StoreListTemplate {
  import opened Wp
  import opened Dokan
  import opened ContextDetector
  import opened DokanTemplate
  import StoreTemplate

  const Slug: string := "dokan-store-list"

  /**
   * `add_template_to_hierarchy` (the `page_template_hierarchy` filter): on the
   * listing page the slug is prepended, elsewhere the list is returned as is.
   */
  function AddTemplateToHierarchy(m: Market, r: Request, templates: seq<string>): (result: seq<string>)
    ensures !IsStoreListPage(m, r) ==> result == templates
    ensures IsStoreListPage(m, r) ==> |result| == |templates| + 1 && result[0] == Slug && result[1..] == templates
  {
    if !IsStoreListPage(m, r) then templates else [Slug] + templates
  }

  /** Every template that was in the hierarchy stays, in the same relative order. */
  lemma HierarchyKeepsOriginalOrder(m: Market, r: Request, templates: seq<string>, i: nat, j: nat)
    requires i < j < |templates|
    ensures var result := AddTemplateToHierarchy(m, r, templates);
            exists i2, j2 :: 0 <= i2 < j2 < |result| && result[i2] == templates[i] && result[j2] == templates[j]
  {
    var result := AddTemplateToHierarchy(m, r, templates);
    if IsStoreListPage(m, r) {
      assert result[i + 1] == templates[i] && result[j + 1] == templates[j];
    } else {
      assert result[i] == templates[i] && result[j] == templates[j];
    }
  }

  /** `should_render_template`. */
  function ShouldRenderTemplate(m: Market, r: Request): (b: bool)
    ensures b <==> IsStoreListPage(m, r)
    ensures b ==> AddTemplateToHierarchy(m, r, []) == [Slug]
  {
    IsStoreListPage(m, r)
  }

  /** `add_template_to_hierarchy` as written, on the unguarded listing-page test. */
  function AddTemplateToHierarchyAsWritten(m: Market, r: Request, templates: seq<string>): (result: seq<string>)
    ensures !IsStoreListPageAsWritten(m, r) ==> result == templates
    ensures IsStoreListPageAsWritten(m, r) ==> result == [Slug] + templates
  {
    if !IsStoreListPageAsWritten(m, r) then templates else [Slug] + templates
  }

  /** `should_render_template` as written. */
  function ShouldRenderTemplateAsWritten(m: Market, r: Request): (b: bool)
    ensures b <==> r.isPage && (m.storeListingPage.GetOr(0) == 0 || r.pageId == m.storeListingPage.value)
  {
    IsStoreListPageAsWritten(m, r)
  }

  /**
   * As written, a site with no listing page configured puts the listing
   * template first on every page; the corrected filter leaves those pages alone.
   */
  lemma MissingListingPageHijacksEveryPage(m: Market, r: Request, templates: seq<string>)
    requires m.storeListingPage.None? && r.isPage
    ensures AddTemplateToHierarchyAsWritten(m, r, templates) == [Slug] + templates
    ensures ShouldRenderTemplateAsWritten(m, r)
    ensures AddTemplateToHierarchy(m, r, templates) == templates
    ensures !ShouldRenderTemplate(m, r)
  {
    MissingListingPageMatchesEveryPage(m, r);
  }

  /** With a listing page configured, the corrected filter and the one as written agree. */
  lemma ConfiguredListingPageAgrees(m: Market, r: Request, templates: seq<string>)
    requires m.storeListingPage.Some? && m.storeListingPage.value != 0
    ensures AddTemplateToHierarchy(m, r, templates) == AddTemplateToHierarchyAsWritten(m, r, templates)
    ensures ShouldRenderTemplate(m, r) == ShouldRenderTemplateAsWritten(m, r)
  {
  }

  /** `get_template_title`: distinct from every title the store template registers. */
  function TemplateTitle(): (title: string)
    ensures forall slug :: StoreTemplate.TitleForSlug(slug) != title
  {
    "Vendor Listing"
  }

  /** `get_template_description`: distinct from every description the store template registers. */
  function TemplateDescription(): (description: string)
    ensures forall slug :: StoreTemplate.DescriptionForSlug(slug) != description
  {
    "Displays a listing of all vendor stores."
  }

  /** The `page_template_hierarchy` filter `init` adds, at priority 10. */
  const HierarchyFilter: Effect := AddFilter("page_template_hierarchy", "add_template_to_hierarchy", 10)

  /** `init`: the inherited registration, then the `page_template_hierarchy` filter. */
  function Init(site: Site): (effects: seq<Effect>)
    ensures |effects| >= 1 && effects[|effects| - 1] == HierarchyFilter
    ensures effects[..|effects| - 1] == RegisterTemplate(site, Slug, TemplateTitle(), TemplateDescription())
  {
    RegisterTemplate(site, Slug, TemplateTitle(), TemplateDescription())
      + [HierarchyFilter]
  }
}

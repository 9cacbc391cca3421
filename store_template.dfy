/**
 * The single-store page template (`Store_Template`): which store tab is
 * showing, which plugin template serves it, and the `template_include`
 * override that points WordPress at that template.
 */
module StoreTemplate {
  import opened Wp
  import opened Dokan
  import opened ContextDetector
  import opened DokanTemplate

  const Slug: string := "dokan-store"
  const TabProducts: string := "products"
  const TabToc: string := "toc"
  const TabReview: string := "store_review"

  /** The tabs the plugin has a block template for, and that template's slug. */
  const TabTemplateMap: map<string, string> := map[TabProducts := "dokan-store", TabToc := "dokan-store-toc"]

  /** A query variable is set when it is present and not PHP-empty. */
  predicate QueryVarSet(r: Request, name: string) {
    !Empty(r.QueryVar(name, ""))
  }

  /** `get_current_store_tab`: the terms tab wins over the reviews tab, products is the default. */
  function CurrentStoreTab(r: Request): (tab: string)
    ensures tab in {TabToc, TabReview, TabProducts}
    ensures tab == TabToc <==> QueryVarSet(r, "toc")
    ensures tab == TabReview <==> !QueryVarSet(r, "toc") && QueryVarSet(r, "store_review")
    ensures tab == TabProducts <==> !QueryVarSet(r, "toc") && !QueryVarSet(r, "store_review")
  {
    if QueryVarSet(r, "toc") then TabToc
    else if QueryVarSet(r, "store_review") then TabReview
    else TabProducts
  }

  /** `get_template_file_path_for_slug`: this class's own map, which lacks `dokan-store-list`. */
  function FilePathForSlug(pluginDir: string, slug: string): (path: string)
    ensures slug != "dokan-store-list" ==> path == TemplateFilePath(pluginDir, slug)
    ensures slug == "dokan-store-list" ==> path == pluginDir + "templates/dokan-store-list.html"
  {
    var fileMap := map["dokan-store" := "store.html", "dokan-store-toc" := "store-toc.html"];
    pluginDir + "templates/" + (if slug in fileMap then fileMap[slug] else slug + ".html")
  }

  /** `has_block_template_for_tab`: the tab is mapped and its template file exists. */
  function HasBlockTemplateForTab(site: Site, tab: string): (b: bool)
    ensures b <==> tab in TabTemplateMap && site.FileExists(FilePathForSlug(site.pluginDir, TabTemplateMap[tab]))
    ensures b ==> tab in {TabProducts, TabToc}
  {
    tab in TabTemplateMap && FilePathForSlug(site.pluginDir, TabTemplateMap[tab]) in site.files
  }

  /** The reviews tab (and any tab an extension adds) never has a plugin template. */
  lemma ReviewTabFallsThrough(site: Site)
    ensures !HasBlockTemplateForTab(site, TabReview)
  {
  }

  /** `get_template_title_for_slug`. */
  function TitleForSlug(slug: string): (title: string)
    ensures slug == "dokan-store" ==> title == "Single Vendor Store"
    ensures slug == "dokan-store-toc" ==> title == "Vendor Terms & Conditions"
    ensures slug !in {"dokan-store", "dokan-store-toc"} ==> title == "Vendor Store"
  {
    var titles := map["dokan-store" := "Single Vendor Store", "dokan-store-toc" := "Vendor Terms & Conditions"];
    if slug in titles then titles[slug] else "Vendor Store"
  }

  /** `get_template_description_for_slug`. */
  function DescriptionForSlug(slug: string): (description: string)
    ensures slug == "dokan-store" ==> description == "Displays a single vendor store page with products and information."
    ensures slug == "dokan-store-toc" ==> description == "Displays a vendor's terms and conditions page."
    ensures slug !in {"dokan-store", "dokan-store-toc"} ==> description == "Vendor store template."
  {
    var descriptions := map[
      "dokan-store" := "Displays a single vendor store page with products and information.",
      "dokan-store-toc" := "Displays a vendor's terms and conditions page."];
    if slug in descriptions then descriptions[slug] else "Vendor store template."
  }

  /** `get_template_title`: the per-slug title of the class's own slug. */
  function TemplateTitle(): (title: string)
    ensures title == TitleForSlug(Slug)
  {
    "Single Vendor Store"
  }

  /** `get_template_description`: the per-slug description of the class's own slug. */
  function TemplateDescription(): (description: string)
    ensures description == DescriptionForSlug(Slug)
  {
    "Displays a single vendor store page with products and information."
  }


  /**
   * `get_block_template_for_slug`: the theme's file template when WordPress
   * finds one, else an object built from the plugin's own file, else None.
   */
  function BlockTemplateForSlug(site: Site, slug: string): (t: Option<BlockTemplate>)
    ensures "get_block_file_template" in site.functions && "dokan-blocks//" + slug in site.blockFileTemplates ==>
              t == Some(site.blockFileTemplates["dokan-blocks//" + slug])
    ensures t.None? <==>
              ("get_block_file_template" !in site.functions || "dokan-blocks//" + slug !in site.blockFileTemplates)
              && (!site.FileExists(FilePathForSlug(site.pluginDir, slug))
                  || site.files[FilePathForSlug(site.pluginDir, slug)].None?)
    ensures t.Some? && ("get_block_file_template" !in site.functions || "dokan-blocks//" + slug !in site.blockFileTemplates) ==>
              t.value.id == "dokan-blocks//" + slug && t.value.slug == slug && t.value.source == "plugin"
              && t.value.templateType == "wp_template" && !t.value.isCustom
              && t.value.content == TemplateContent(site, FilePathForSlug(site.pluginDir, slug))
  {
    if "get_block_file_template" in site.functions && "dokan-blocks//" + slug in site.blockFileTemplates then
      Some(site.blockFileTemplates["dokan-blocks//" + slug])
    else
      var path := FilePathForSlug(site.pluginDir, slug);
      if path !in site.files then None
      else match site.files[path]
        case None => None
        case Some(content) =>
          Some(BlockTemplate(
            "dokan-blocks//" + slug, "another-dokan-blocks", content, slug,
            TitleForSlug(slug), DescriptionForSlug(slug),
            "plugin", "wp_template", "uncategorized", false, false))
  }

  /**
   * The template `override_store_template` switches to, or None when it
   * leaves the path alone. `overrideFilter` is the
   * `dokan_blocks_store_template_override` filter, given the slug and tab.
   */
  function ChosenTemplate(m: Market, r: Request, site: Site,
                          overrideFilter: (string, string) -> Option<BlockTemplate>): (t: Option<BlockTemplate>)
    ensures !IsStorePage(m, r) || !site.blockTheme ==> t.None?
    ensures !HasBlockTemplateForTab(site, CurrentStoreTab(r)) ==> t.None?
    ensures IsStorePage(m, r) && site.blockTheme && HasBlockTemplateForTab(site, CurrentStoreTab(r)) ==>
              var slug := TabTemplateMap[CurrentStoreTab(r)];
              t == (if overrideFilter(slug, CurrentStoreTab(r)).Some?
                    then overrideFilter(slug, CurrentStoreTab(r))
                    else BlockTemplateForSlug(site, slug))
    ensures t.Some? ==> CurrentStoreTab(r) in {TabProducts, TabToc}
    ensures t.Some? ==> var slug := TabTemplateMap[CurrentStoreTab(r)];
                        t == (if overrideFilter(slug, CurrentStoreTab(r)).Some?
                              then overrideFilter(slug, CurrentStoreTab(r))
                              else BlockTemplateForSlug(site, slug))
  {
    if !IsStorePage(m, r) || !site.blockTheme then None
    else
      var tab := CurrentStoreTab(r);
      if !HasBlockTemplateForTab(site, tab) then None
      else
        var slug := TabTemplateMap[tab];
        var fromFilter := overrideFilter(slug, tab);
        if fromFilter.Some? then fromFilter else BlockTemplateForSlug(site, slug)
  }

  /** A template from the override filter is used as is, whatever the plugin's own file holds. */
  lemma OverrideFilterWins(m: Market, r: Request, site: Site,
                           overrideFilter: (string, string) -> Option<BlockTemplate>, t: BlockTemplate)
    requires IsStorePage(m, r) && site.blockTheme && HasBlockTemplateForTab(site, CurrentStoreTab(r))
    requires overrideFilter(TabTemplateMap[CurrentStoreTab(r)], CurrentStoreTab(r)) == Some(t)
    ensures ChosenTemplate(m, r, site, overrideFilter) == Some(t)
  {
  }

  /** On a product page the store template is never switched in. */
  lemma ProductPageKeepsTemplate(m: Market, r: Request, site: Site,
                                 overrideFilter: (string, string) -> Option<BlockTemplate>)
    requires r.singularProduct
    ensures ChosenTemplate(m, r, site, overrideFilter).None?
  {
  }

  /** WordPress's current-template globals, which the override writes. */
  class TemplateGlobals {
    var currentTemplateId: Option<string>
    var currentTemplateContent: Option<string>

    constructor ()
      ensures currentTemplateId.None? && currentTemplateContent.None?
    {
      currentTemplateId := None;
      currentTemplateContent := None;
    }
  }

  /** `override_store_template` (the `template_include` filter). */
  method OverrideStoreTemplate(g: TemplateGlobals, m: Market, r: Request, site: Site,
                               overrideFilter: (string, string) -> Option<BlockTemplate>,
                               template: string) returns (path: string)
    modifies g
    ensures var t := ChosenTemplate(m, r, site, overrideFilter);
            t.None? ==> path == template
                        && g.currentTemplateId == old(g.currentTemplateId)
                        && g.currentTemplateContent == old(g.currentTemplateContent)
    ensures var t := ChosenTemplate(m, r, site, overrideFilter);
            t.Some? ==> g.currentTemplateId == Some(t.value.id)
                        && g.currentTemplateContent == Some(t.value.content)
                        && path == (if site.FileExists(site.canvasPath) then site.canvasPath else template)
  {
    var chosen := ChosenTemplate(m, r, site, overrideFilter);
    if chosen.None? {
      return template;
    }
    g.currentTemplateId := Some(chosen.value.id);
    g.currentTemplateContent := Some(chosen.value.content);
    if site.canvasPath in site.files {
      path := site.canvasPath;
    } else {
      path := template;
    }
  }

  /** `should_render_template`. */
  predicate ShouldRenderTemplate(m: Market, r: Request): (b: bool)
    ensures b <==> IsStorePage(m, r)
    ensures r.singularProduct ==> !b
  {
    IsStorePage(m, r)
  }

  /** The `template_include` filter `init` adds, at priority 100. */
  const IncludeFilter: Effect := AddFilter("template_include", "override_store_template", 100)

  /** `init`: the inherited registration, then the `template_include` filter. */
  function Init(site: Site): (effects: seq<Effect>)
    ensures |effects| >= 1 && effects[|effects| - 1] == IncludeFilter
    ensures effects[..|effects| - 1] == RegisterTemplate(site, Slug, TemplateTitle(), TemplateDescription())
  {
    RegisterTemplate(site, Slug, TemplateTitle(), TemplateDescription())
      + [IncludeFilter]
  }
}

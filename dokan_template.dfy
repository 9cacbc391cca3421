/**
 * What every plugin block template shares (`Abstract_Dokan_Template`): its
 * id `another-blocks-for-dokan//<slug>`, its HTML file under `templates/`,
 * and its registration with WordPress.
 */
module DokanTemplate {
  import opened Wp

  const PluginSlug: string := "another-blocks-for-dokan"
  const Separator: string := "//"

  /**
   * The site the templates run in. `files` maps each existing path to its
   * contents (None: the file exists but cannot be read); `functions` are the
   * WordPress functions that are defined; `blockFileTemplates` answers
   * `get_block_file_template` by id.
   */
  datatype Site = Site(
    pluginDir: string,
    files: map<string, Option<string>>,
    functions: set<string>,
    blockTheme: bool,
    canvasPath: string,
    blockFileTemplates: map<string, BlockTemplate>)
  {
    predicate FileExists(path: string) {
      path in files
    }
  }

  /** The fields of a `WP_Block_Template` the plugin fills. */
  datatype BlockTemplate = BlockTemplate(
    id: string,
    theme: string,
    content: string,
    slug: string,
    title: string,
    description: string,
    source: string,
    templateType: string,
    area: string,
    hasThemeFile: bool,
    isCustom: bool)

  /** The arguments given to `register_block_template`. */
  datatype TemplateArgs = TemplateArgs(title: string, description: string, plugin: string, content: string)

  /** A call a template's `init` makes into WordPress. */
  datatype Effect =
    | RegisterBlockTemplate(name: string, args: TemplateArgs)
    | AddFilter(hook: string, callback: string, priority: int)

  /** `get_template_id(slug)`; `classSlug` is the calling class's `SLUG`. */
  function TemplateId(slug: Option<string>, classSlug: string): (id: string)
    ensures StartsWith(id, PluginSlug + Separator)
    ensures |id| == |PluginSlug + Separator| + |slug.GetOr(classSlug)|
  {
    PluginSlug + Separator + slug.GetOr(classSlug)
  }

  /** The template slug an id names. */
  function SlugOfId(id: string): string
    requires StartsWith(id, PluginSlug + Separator)
  {
    id[|PluginSlug + Separator|..]
  }

  /** The slug is recovered from the id, so distinct slugs give distinct ids. */
  lemma TemplateIdRoundTrip(slug: Option<string>, classSlug: string)
    ensures SlugOfId(TemplateId(slug, classSlug)) == slug.GetOr(classSlug)
  {
    var id := TemplateId(slug, classSlug);
    assert id == (PluginSlug + Separator) + slug.GetOr(classSlug);
  }

  /** The file name `get_template_file_path` picks for a slug. */
  function TemplateFileName(slug: string): (name: string)
    ensures slug == "dokan-store" ==> name == "store.html"
    ensures slug == "dokan-store-list" ==> name == "store-lists.html"
    ensures slug == "dokan-store-toc" ==> name == "store-toc.html"
    ensures slug !in {"dokan-store", "dokan-store-list", "dokan-store-toc"} ==> name == slug + ".html"
    ensures |name| >= 5 && name[|name| - 5..] == ".html"
  {
    var fileMap := map["dokan-store" := "store.html", "dokan-store-list" := "store-lists.html",
                       "dokan-store-toc" := "store-toc.html"];
    if slug in fileMap then fileMap[slug] else slug + ".html"
  }

  /** `get_template_file_path`: always a file under the plugin's `templates/` directory. */
  function TemplateFilePath(pluginDir: string, slug: string): (path: string)
    ensures StartsWith(path, pluginDir + "templates/")
    ensures path[|pluginDir + "templates/"|..] == TemplateFileName(slug)
  {
    pluginDir + "templates/" + TemplateFileName(slug)
  }

  /** `get_template_content`: the file's contents, or "" when it is missing or unreadable. */
  function TemplateContent(site: Site, path: string): (content: string)
    ensures !site.FileExists(path) ==> content == ""
    ensures site.FileExists(path) && site.files[path].None? ==> content == ""
    ensures site.FileExists(path) && site.files[path].Some? ==> content == site.files[path].value
  {
    if path !in site.files then ""
    else site.files[path].GetOr("")
  }

  /**
   * `register_template` for a class with slug `slug`: nothing when
   * `register_block_template` is missing, else one registration under the
   * class's template id.
   */
  function RegisterTemplate(site: Site, slug: string, title: string, description: string): (effects: seq<Effect>)
    ensures "register_block_template" !in site.functions ==> effects == []
    ensures "register_block_template" in site.functions ==>
              |effects| == 1 && effects[0].RegisterBlockTemplate?
              && effects[0].name == TemplateId(None, slug)
              && effects[0].args.plugin == PluginSlug
              && effects[0].args.content == TemplateContent(site, TemplateFilePath(site.pluginDir, slug))
  {
    if "register_block_template" !in site.functions then []
    else
      [RegisterBlockTemplate(
         PluginSlug + Separator + slug,
         TemplateArgs(title, description, PluginSlug, TemplateContent(site, TemplateFilePath(site.pluginDir, slug))))]
  }
}

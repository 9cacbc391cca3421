# Another Blocks for Dokan — a verified model of its decision logic

Another Blocks for Dokan is a WordPress plugin. It turns a Dokan multi-vendor store into Gutenberg blocks and block templates: store headers, banners, avatars, names, phones, addresses, ratings, opening hours, locations, terms and conditions, store tabs, a store listing query loop with its search form and pagination, a product's vendor card, "more from this seller" and a become-a-vendor call to action. The plugin also installs page templates for the single store and the store listing, and checks that WooCommerce and Dokan Lite are present at their minimum versions.

This project models the decisions the plugin takes and proves properties of them:

- which vendor a block shows: the `dokan/vendor` block context, an attribute, or the vendor the request names;
- when a block renders nothing, a placeholder, or its content;
- which attribute defaults apply, and which classes and inline styles are assembled, in which order;
- how the store list query is built: the `orderBy` mapping, the search and featured meta queries, the page count and the split of inner blocks;
- which template serves a request;
- the block and template registries;
- the dependency gate.

WordPress and Dokan are not part of the model. Everything the plugin asks of them is data or a function parameter:

- `Dokan.Market` holds the sellers, the vendor objects, the store slugs and the settings;
- `Dokan.Request` holds the query variables, the query string and the global post;
- parameters stand in for filters, `paginate_links`-style helpers and formatting.

Each render function returns a structured output datatype rather than HTML. The PHP primitives the plugin relies on are modelled once, in module `Wp`: `empty()`, `??`, `absint`, `intval`, `implode`, `explode`, `trim`, `str_replace` and insertion-ordered arrays.

Where a loop in the source builds a value step by step, the model has a method with a loop. Examples are the style serialisation, the query-string preservation and the registry's registration. Each such method is proved equal to a specification function, and the properties are proved about that function. The block registry and the templates controller update their own fields, so they are classes.

## Model

| member | source | states |
|---|---|---|
| ContextDetector.GetVendorId | includes/helpers/class-context-detector.php:21-58 | a positive Dokan store object wins without any seller check; otherwise the answer is the first of store slug, `author` variable and product author that names a seller, and there is none exactly when all four signals miss; an answer is positive |
| ContextDetector.StoreSlugBeatsLaterSignals | includes/helpers/class-context-detector.php:30-37 | once the store object misses, a seller owning the `store` slug is the answer whatever the author variable or the post say |
| ContextDetector.ObjectHitIgnoresSellers | includes/helpers/class-context-detector.php:23-28 | the first lookup never consults the seller list: changing who is a seller does not change its answer |
| ContextDetector.NoSignalsNoVendor | includes/helpers/class-context-detector.php:39-57 | with no `author`, no `store` and no product post, there is no vendor |
| ContextDetector.GetProductId | includes/helpers/class-context-detector.php:65-79 | a product post gives its id; otherwise an id exists exactly when the `product_id` query variable is PHP-non-empty, and it is `absint(intval(...))` of that variable |
| ContextDetector.IsStorePage | includes/helpers/class-context-detector.php:86-105 | a single product page is never a store page; otherwise it is one iff Dokan says so or the `store` query variable is non-empty |
| ContextDetector.IsProductPage | includes/helpers/class-context-detector.php:112-114 | true exactly on a single product view, where no market state makes the request a store page |
| ContextDetector.IsPage | includes/helpers/class-context-detector.php:120-122 | WordPress `is_page` with an integer: an empty (0) argument accepts every page, any other accepts only that page |
| ContextDetector.IsStoreListPageAsWritten | includes/helpers/class-context-detector.php:120-122 | as written, a missing or zero listing-page setting makes every page the listing page; a configured one matches only that page |
| ContextDetector.ProductPageIsNotStorePage | includes/helpers/class-context-detector.php:89-91 | a product page is never a store page, whatever the other signals say |
| ContextDetector.MissingListingPageMatchesEveryPage | includes/helpers/class-context-detector.php:121-123 | as written, with no listing page configured, `is_page(0)` makes every page the store listing page |
| ContextDetector.IsStoreListPage | includes/helpers/class-context-detector.php:121-123 | corrected: the listing page test holds iff the request is the configured, non-zero listing page; whenever it holds, the as-written test holds too |
| VendorRenderer.GetVendorData | includes/renderers/class-vendor-renderer.php:22-48 | a record exists iff the id is non-zero, a seller and known to Dokan; it carries that id, the vendor's shop name and shop info, and the email only when the vendor shows it |
| VendorRenderer.HiddenEmailNeverLeaks | includes/renderers/class-vendor-renderer.php:41 | a vendor who hides the email never has it in the record, whatever address is on file |
| VendorRenderer.GetStoreUrl | includes/renderers/class-vendor-renderer.php:56-67 | "" for id 0, a non-seller or an unknown vendor; otherwise the same shop URL the record carries |
| VendorRenderer.IsVendorInfoHidden | includes/renderers/class-vendor-renderer.php:75-77 | a field is hidden exactly when Dokan's `dokan_is_vendor_info_hidden` says so; the plugin adds no check of its own |
| VendorRenderer.GetSellerRatingHtml | includes/renderers/class-vendor-renderer.php:85-91 | "" for id 0 or a non-seller; otherwise Dokan's readable rating |
| VendorRenderer.IsStoreOpen | includes/renderers/class-vendor-renderer.php:99-105 | open when Dokan's check is missing; otherwise exactly Dokan's answer |
| StoreRenderer.SocialLinks | includes/renderers/class-store-renderer.php:104-123 | the social links are exactly the profile fields whose profile link is non-empty, each carrying that link and labelled by the field title or its key; no more links than fields |
| StoreRenderer.SocialLinksFollowFieldOrder | includes/renderers/class-store-renderer.php:107-120 | the links keep the order of the profile fields: the links of any prefix of the fields are a prefix of the links |
| StoreRenderer.CollectSocialLinks | includes/renderers/class-store-renderer.php:107-120 | the `foreach` over the profile fields emits exactly `SocialLinks` |
| StoreRenderer.Settings | includes/renderers/class-store-renderer.php:36-40 | every section is on and the layout is "default" unless the attribute is present, in which case the attribute wins |
| StoreRenderer.VendorIdFromAttributes | includes/renderers/class-store-renderer.php:136-151 | a positive seller id in `vendorId` wins; any other answer is the detected vendor; a returned id is never 0 |
| StoreRenderer.ContactItems | includes/renderers/class-store-renderer.php:64-84 | the address, phone and email lines each appear iff that field is not hidden by Dokan and is PHP-non-empty |
| StoreRenderer.RenderStoreHeader | includes/renderers/class-store-renderer.php:25-128 | a header exists iff a vendor id resolves and Dokan has its record; layout and name come from the settings and the record; the banner shows iff enabled and non-empty, the avatar iff non-empty; the contact list iff enabled and equal to `ContactItems`, with the seller rating; the open/closed state iff hours are enabled and equal to `IsStoreOpen`; the social links iff enabled and the vendor has profiles, equal to `SocialLinks` |
| BlockRegistry.PathsFor | includes/class-block-registry.php:114-148 | after the hard-coded assignments, every listed block's name maps to its directory under the blocks folder, no other key exists, and the table stays a well-formed array |
| BlockRegistry.AssignPaths | includes/class-block-registry.php:117-148 | the assignments one by one build exactly `PathsFor` |
| BlockRegistry.RegisterBlock | includes/class-block-registry.php:48-107 | nothing happens without `block.json`; otherwise the directory is registered, with the mapped render callback iff `render.php` exists and the mapped function is defined, through the metadata API iff it exists |
| BlockRegistry.RegistrationsFor | includes/class-block-registry.php:35-39 | each registration comes from a table entry whose `block.json` exists; never more registrations than entries |
| BlockRegistry.RegistrationsForOne | includes/class-block-registry.php:35-39 | a single entry registers once when its `block.json` exists and not at all otherwise |
| BlockRegistry.RegistrationsForAppend | includes/class-block-registry.php:35-39 | the registrations of two runs of entries are the first run's, then the second's: table order is kept |
| BlockRegistry.EveryBlockJsonRegistered | includes/class-block-registry.php:35-39 | every table entry whose `block.json` exists is registered |
| BlockRegistry.Registry.constructor | includes/class-block-registry.php:26-28 | the table is the `dokan_blocks_registered_blocks` filter applied to the hard-coded table, and it is well formed |
| BlockRegistry.Registry.IsRegistered | includes/class-block-registry.php:166-168 | a name is registered iff it is a key of the table |
| BlockRegistry.Registry.GetRegisteredBlocks | includes/class-block-registry.php:175-177 | the listed names are the table's keys in insertion order: exactly the registered ones, without duplicates |
| BlockRegistry.Registry.RegisterAllBlocks | includes/class-block-registry.php:35-39 | the loop registers the entries in table order, exactly as `RegistrationsFor`, so once per entry with a `block.json` |
| BlockRegistry.DefaultTableHoldsEveryBlock | includes/class-block-registry.php:118-148 | without a filter, every hard-coded block is present under its name with its directory |
| BlockRegistry.FilterAddedEntryIsRegistered | includes/class-block-registry.php:150-157 | an entry added by the filter becomes a key while all default names remain |
| DokanTemplate.TemplateId | includes/templates/class-abstract-dokan-template.php:110-112 | every template id starts with `another-blocks-for-dokan//` followed by the given slug, or the class slug when none is given |
| DokanTemplate.TemplateIdRoundTrip | includes/templates/class-abstract-dokan-template.php:110-112 | the slug is recovered from the id, so distinct slugs give distinct template ids |
| DokanTemplate.TemplateFileName | includes/templates/class-abstract-dokan-template.php:91-99 | the three store slugs use their mapped file names; any other slug uses `<slug>.html`; every name ends in `.html` |
| DokanTemplate.TemplateFilePath | includes/templates/class-abstract-dokan-template.php:90-102 | the template file always lies directly under the plugin's `templates/` directory |
| DokanTemplate.TemplateContent | includes/templates/class-abstract-dokan-template.php:73-83 | a missing or unreadable file gives ""; otherwise the file's contents |
| DokanTemplate.RegisterTemplate | includes/templates/class-abstract-dokan-template.php:40-66 | nothing happens without `register_block_template`; otherwise exactly one registration under the class's template id, for this plugin, carrying the template file's contents |
| StoreTemplate.CurrentStoreTab | includes/templates/class-store-template.php:131-144 | the tab is always one of toc, store_review and products; the terms tab wins whenever `toc` is set, the reviews tab needs `store_review` without `toc`, and products is the default |
| StoreTemplate.FilePathForSlug | includes/templates/class-store-template.php:169-178 | this class's own file map agrees with the shared one on every slug except `dokan-store-list`, which falls back to `dokan-store-list.html` |
| StoreTemplate.HasBlockTemplateForTab | includes/templates/class-store-template.php:152-161 | a tab has a template iff it is mapped and the mapped template file exists; only products and toc can qualify |
| StoreTemplate.ReviewTabFallsThrough | includes/templates/class-store-template.php:53-56 | the reviews tab never has a plugin template, so Dokan's own template serves it |
| StoreTemplate.TitleForSlug | includes/templates/class-store-template.php:231-238 | the two store slugs get their own titles; every other slug gets "Vendor Store" |
| StoreTemplate.DescriptionForSlug | includes/templates/class-store-template.php:246-253 | the two store slugs get their own descriptions; every other slug gets "Vendor store template." |
| StoreTemplate.BlockTemplateForSlug | includes/templates/class-store-template.php:186-223 | WordPress's file template wins when found; otherwise none exactly when the plugin file is missing or unreadable, else a plugin-sourced, non-custom `wp_template` with id `dokan-blocks//<slug>` holding the file's contents |
| StoreTemplate.ChosenTemplate | includes/templates/class-store-template.php:78-107 | nothing off a store page, outside a block theme or for a tab without a template; on a store page in a block theme with a templated tab, exactly the override filter's template when it gives one, else the slug's block template |
| StoreTemplate.OverrideFilterWins | includes/templates/class-store-template.php:100-103 | a template returned by the override filter is used as is |
| StoreTemplate.ProductPageKeepsTemplate | includes/templates/class-store-template.php:79-81 | on a single product page the store template is never switched in |
| StoreTemplate.TemplateGlobals.constructor | includes/templates/class-store-template.php:110-114 | the current-template globals start unset |
| StoreTemplate.OverrideStoreTemplate | includes/templates/class-store-template.php:78-124 | with no chosen template the path and globals are unchanged; otherwise the globals hold the template's id and content and the path is the canvas when it exists, else the original |
| StoreTemplate.Init | includes/templates/class-store-template.php:63-67 | init is the inherited registration followed by one `template_include` filter at priority 100 |
| StoreTemplate.ShouldRenderTemplate | includes/templates/class-store-template.php:260-262 | the store template renders exactly on a store page, so never on a single product page |
| StoreTemplate.TemplateTitle | includes/templates/class-store-template.php:269-271 | the registered title is the per-slug title of the class's own slug |
| StoreTemplate.TemplateDescription | includes/templates/class-store-template.php:278-280 | the registered description is the per-slug description of the class's own slug |
| StoreListTemplate.AddTemplateToHierarchy | includes/templates/class-store-list-template.php:47-56 | off the listing page the hierarchy is returned unchanged; on it the plugin slug is prepended and the rest follows untouched |
| StoreListTemplate.HierarchyKeepsOriginalOrder | includes/templates/class-store-list-template.php:47-56 | every template already in the hierarchy stays, in the same relative order |
| StoreListTemplate.ShouldRenderTemplate | includes/templates/class-store-list-template.php:63-65 | the template renders iff the request is the store listing page, where the plugin slug heads the hierarchy |
| StoreListTemplate.TemplateTitle | includes/templates/class-store-list-template.php:72-74 | the listing template's title differs from every title the store template registers |
| StoreListTemplate.TemplateDescription | includes/templates/class-store-list-template.php:81-83 | the listing template's description differs from every description the store template registers |
| StoreListTemplate.AddTemplateToHierarchyAsWritten | includes/templates/class-store-list-template.php:47-56 | with the listing-page test as the source writes it: the slug is prepended exactly when that test passes, and the hierarchy is otherwise unchanged |
| StoreListTemplate.ShouldRenderTemplateAsWritten | includes/templates/class-store-list-template.php:63-65 | as the source writes it, the template renders on every page when no listing page is configured, and otherwise on the configured page only |
| StoreListTemplate.MissingListingPageHijacksEveryPage | includes/helpers/class-context-detector.php:120-122 | without a configured listing page, as written every page gets the plugin slug and renders the template, while the corrected versions leave the page alone |
| StoreListTemplate.ConfiguredListingPageAgrees | includes/helpers/class-context-detector.php:120-122 | with a configured listing page, the as-written and corrected hierarchy and render decisions coincide |
| StoreListTemplate.Init | includes/templates/class-store-list-template.php:36-39 | init is the inherited registration followed by one `page_template_hierarchy` filter at priority 10 |
| BlockTemplatesController.Filters | includes/templates/class-block-templates-controller.php:35-39 | the filters picked from a list of effects are filter effects of that list, never more than the list |
| BlockTemplatesController.FiltersAppend | includes/templates/class-block-templates-controller.php:35-39 | the filters of two effect lists in a row are the filters of each, in order |
| BlockTemplatesController.FiltersOfInit | includes/templates/class-block-templates-controller.php:35-39 | each template's init adds exactly its own filter |
| BlockTemplatesController.HooksOf | includes/templates/class-block-templates-controller.php:35-39 | one filter per template, the i-th belonging to the i-th template |
| BlockTemplatesController.InitHooksFollowTemplates | includes/templates/class-block-templates-controller.php:35-39 | init starts every template exactly once, in list order: the filters added are one per template, in order |
| BlockTemplatesController.Controller.constructor | includes/templates/class-block-templates-controller.php:26-58 | the list is the `another_blocks_dokan_registered_templates` filter applied to [store template, listing template] |
| BlockTemplatesController.Controller.GetTemplates | includes/templates/class-block-templates-controller.php:65-67 | the stored list is returned element for element |
| BlockTemplatesController.InitAll | includes/templates/class-block-templates-controller.php:35-39 | the `foreach` performs each template's init effects after those of the templates before it, in list order |
| BlockTemplatesController.Controller.Init | includes/templates/class-block-templates-controller.php:35-39 | the effects are those of calling each stored template's own init, in list order |
| BlockTemplatesController.InitShape | includes/templates/class-abstract-dokan-template.php:40-66 | a template's init registers its own template id exactly when the host has `register_block_template`, and ends with its own filter |
| BlockTemplatesController.InitPair | includes/templates/class-block-templates-controller.php:35-39 | a two-template list gives the first template's effects, then the second's |
| BlockTemplatesController.DefaultInitOrder | includes/templates/class-block-templates-controller.php:46-48 | without a filter, init registers the store template, adds its filter, then registers the listing template and adds its filter |
| Install.VersionParts | includes/class-install.php:63 | a version has one numeric component per dot-separated piece, as `version_compare` reads it |
| Install.VersionLessIsStrictOrder | includes/class-install.php:63 | `version_compare(·, ·, '<')` on dotted numeric versions is irreflexive, transitive and asymmetric |
| Install.GetPluginVersion | includes/class-install.php:27-38 | a missing plugin file gives null; otherwise the file's `Version` header if it has one, else null |
| Install.InstalledVersion | includes/class-install.php:50-55 | with constants asked for and defined the constant wins; otherwise the plugin file's header |
| Install.MessageFor | includes/class-install.php:57-70 | an empty or missing version yields "not installed"; a lower one yields "is installed, but … required"; otherwise no message |
| Install.OptionList | includes/class-install.php:57-93 | a failed check contributes one message, a passed one none |
| Install.DependencyMessagesShape | includes/class-install.php:46-96 | at most two messages, WooCommerce's first and Dokan's last; the list is empty iff both dependencies pass |
| Install.CheckDependencies | includes/class-install.php:46-96 | the method returns exactly the message list of the two checks in order |
| Install.ItemsHtmlListsEveryMessage | includes/class-install.php:115-117 | every missing dependency gets its own escaped list item |
| Install.ActivationCheck | includes/class-install.php:104-127 | activation succeeds iff the file-based check finds nothing; otherwise the plugin is deactivated with the error page listing every message, titled "Plugin Activation Failed" |
| Install.ActivationPageNamesEveryDependency | includes/class-install.php:112-119 | every unmet requirement appears as a list item of the activation error page |
| Install.RuntimeCheck | includes/class-install.php:135-159 | the plugin runs iff the constant-based check finds nothing; otherwise an admin notice carries exactly that list |
| Install.RuntimeCheckUsesConstants | includes/class-install.php:50-51 | with both version constants defined, the plugin files do not matter at runtime |
| InlineStyles.Declarations | blocks/store-card/render.php:72-101 | a declaration yields a rule only when its value is non-empty, so there are never more rules than declarations |
| InlineStyles.DeclarationsMembers | blocks/store-card/render.php:72-101 | every set declaration contributes its rule, and every rule comes from a set declaration |
| InlineStyles.DeclarationsEmpty | blocks/store-card/render.php:112-115 | there are no rules at all exactly when no declaration is set |
| InlineStyles.DeclarationsAppend | blocks/store-card/render.php:72-101 | the rules of two declaration lists in a row are each list's rules, in order |
| InlineStyles.StyleAttribute | blocks/store-card/render.php:112-115 | the `style` attribute is absent iff there are no rules; otherwise it is the rules joined by "; " |
| InlineStyles.BoxDecls | blocks/store-card/render.php:73-85 | a side array gives four declarations: top, right, bottom, left |
| InlineStyles.EmptyBoxHasNoRules | blocks/store-card/render.php:72 | the `! empty( $padding )` guard is redundant: a side array with no keys yields no rule |
| InlineStyles.DeclarationsCons | blocks/store-card/render.php:72-101 | the rules of a list are its first declaration's rule followed by the rest's |
| InlineStyles.DeclarationsSnoc | blocks/store-card/render.php:72-101 | one more declaration adds at most its own rule, at the end |
| InlineStyles.BoxRules | blocks/store-card/render.php:73-85 | the rules of a side array are the four sides' rules, side by side |
| InlineStyles.AppendBox | blocks/store-card/render.php:72-86 | the four guarded appends add exactly the side array's rules to the list |
| InlineStyles.SpacingDecls | blocks/store-card/render.php:72-101 | padding's four sides, then margin's four |
| InlineStyles.SpacingRules | blocks/store-card/render.php:72-101 | the spacing rules are the padding rules followed by the margin rules |
| InlineStyles.LayoutClass | blocks/store-card/render.php:120-129 | the class is `is-layout-<type>`, with ` is-vertical` added exactly for a vertical flex layout |
| InlineStyles.InjectLayout | blocks/store-card/render.php:119-137 | the wrapper is unchanged unless the layout has a type and no `is-layout-` class is present; then the layout class is put at the head of every `class="` |
| InlineStyles.InjectedWrapperHasLayoutClass | blocks/store-card/render.php:119-137 | once the layout has a type, a wrapper with a `class` attribute always ends up carrying a layout class |
| InlineStyles.InjectLayoutIdempotent | blocks/store-card/render.php:119-137 | applying the layout fix twice is the same as applying it once |
| BlockContext.ToArray | blocks/store-query-loop/render.php:264 | the query loop's vendor array carries Dokan's id, shop name (as `store_name`), avatar (as `gravatar`) and address fields |
| BlockContext.OfVendorData | blocks/product-vendor-info/render.php:158-161 | the vendor record passed on as context keeps its id, shop name, avatar, address text and store info under its own key names |
| BlockContext.DetectedVendorData | blocks/vendor-rating/render.php:28-32 | a vendor is detected exactly when the request names a positive vendor id that is a seller with data; the data carries that id |
| BlockContext.VendorFor | blocks/vendor-rating/render.php:24-43 | a context vendor with an id is used as it is; otherwise the detected vendor reduced to the block's keys; otherwise none, and the block shows its placeholder |
| BlockContext.ContextVendorWins | blocks/vendor-rating/render.php:27 | a context vendor with an id decides the block alone: no marketplace or request changes it |
| BlockContext.DetectedVendorIsFound | blocks/vendor-rating/render.php:28-37 | a reduction that keeps the id always finds the detected vendor |
| BlockContext.RenderAll | blocks/store-card/render.php:185-195 | each inner block, in order, is rendered with the same context |
| BlockContext.RenderInnerBlocks | blocks/store-card/render.php:185-195 | the loop renders every inner block, in order, with the given context |
| BlockContext.VendorContext | blocks/store-card/render.php:189-192 | the new context holds only `dokan/vendor` |
| StoreCard.ResolveVendor | blocks/store-card/render.php:42-56 | a non-empty context array supplies the data and the id (0 without `id`); otherwise the `vendorId` attribute gives the id and data is fetched only for a seller |
| StoreCard.CardClasses | blocks/store-card/render.php:33-36 | the card class first, plus `has-banner-background` exactly when the banner is the background |
| StoreCard.BannerBackground | blocks/store-card/render.php:59-69 | the four background entries appear exactly when the banner is requested and the vendor has one, with size, position and repeat fixed |
| StoreCard.BuildCardStyles | blocks/store-card/render.php:39-101 | the appends produce the banner background, then the padding rules, then the margin rules |
| StoreCard.Render | blocks/store-card/render.php:22-204 | no output without the read capability; the card iff an id and vendor data exist; otherwise a placeholder only for editor requests, with the notice chosen by whether an id was given; inner blocks get the vendor context (none in the placeholder), else the saved content |
| StoreCard.LoopCardShowsItsVendor | blocks/store-card/render.php:45-48 | inside the store query loop every card shows its loop vendor, whatever `vendorId` says, and hands it unchanged to each inner block |
| StoreCard.PlaceholderOnlyInEditor | blocks/store-card/render.php:139-177 | without a vendor the card renders nothing outside the editor; in the editor it shows the missing-id notice |
| StoreCard.BackgroundBeforeSpacing | blocks/store-card/render.php:59-101 | the banner background takes the first four styles, and the spacing rules follow them |
| BlockContext.AttributeProductId | blocks/product-vendor-info/render.php:27-31 | a non-empty `productId` attribute wins and gives a non-zero id; otherwise the product the request is about; 0 for none (the more-from-seller block reads its attribute the same way) |
| ProductVendorInfo.ProductVendor | blocks/product-vendor-info/render.php:57-73 | a vendor exists exactly when the product exists and its author is a non-zero seller with data; the vendor is that author |
| ProductVendorInfo.BuildInfoStyles | blocks/product-vendor-info/render.php:78-118 | the appends give the padding rules, then the margin rules |
| ProductVendorInfo.Body | blocks/product-vendor-info/render.php:152-181 | inner blocks get the vendor context; else the saved content; else the default block, whose shop-linked heading appears iff the shop name is non-empty |
| ProductVendorInfo.Render | blocks/product-vendor-info/render.php:25-185 | the placeholder iff no product id and an editor request; the info block iff a product id and its vendor exist, with the spacing styles, the layout fix and the body above |
| ProductVendorInfo.ProductPageShowsAuthor | blocks/product-vendor-info/render.php:27-73 | on a product page the block shows the product author's store, and every inner block gets that author as its vendor |
| StoreHours.HoursVendorId | blocks/store-hours/render.php:24-28 | a non-empty `vendorId` attribute wins; otherwise the detected vendor; 0 for none |
| StoreHours.Days | blocks/store-hours/render.php:61-69 | Dokan's translated days when it provides them, otherwise Monday to Sunday |
| StoreHours.ScheduleOf | blocks/store-hours/render.php:115 | a day with no entry has an empty schedule |
| StoreHours.DetailedHours | blocks/store-hours/render.php:116-132 | the weekly list shows hours iff the status is "open" and both times are non-empty; every other day reads CLOSED |
| StoreHours.CompactHours | blocks/store-hours/render.php:142-154 | today's line shows hours iff both times are non-empty, whatever the status |
| StoreHours.DetailedAgreesWithCompact | blocks/store-hours/render.php:116-154 | whenever the weekly list shows hours for a day, the compact line shows the same ones |
| StoreHours.CompactIgnoresStatus | blocks/store-hours/render.php:116-154 | a closed day with times on file reads CLOSED in the list but shows its times in the compact line |
| StoreHours.DayRows | blocks/store-hours/render.php:113-135 | one row per day, in order, with the day's title, the today mark iff its key is today, and its detailed hours |
| StoreHours.ClassifyDays | blocks/store-hours/render.php:113-135 | the loop produces exactly those rows |
| StoreHours.OneToday | blocks/store-hours/render.php:121 | with distinct day keys exactly one row is marked today when today is one of them, and none otherwise |
| StoreHours.DefaultWeekHasOneToday | blocks/store-hours/render.php:61-69 | in the default week any weekday is marked exactly once |
| StoreHours.StatusLineOf | blocks/store-hours/render.php:84-104 | the open line iff the store is open, with the custom notice when non-empty, else "Store Open" or "Store Closed" |
| StoreHours.Render | blocks/store-hours/render.php:22-163 | output iff the vendor is a non-zero seller with data, store times set and enabled as exactly "yes"; the wrapper class carries the layout (default compact); the status line appears unless switched off; "detailed" gives the weekly list, any other layout today's line |
| StoreHours.OnlyYesEnables | blocks/store-hours/render.php:44-47 | store times enabled with any value other than exactly "yes" hide the block |
| StoreLocation.ParsePlace | blocks/store-location/render.php:47-62 | a string with a comma splits at its first comma into two trimmed coordinates; one without a comma gives none; an array gives `lat ?? latitude`, `lng ?? longitude` and an address overriding the shop's |
| StoreLocation.ParseCoordinates | blocks/store-location/render.php:54-57 | "lat,lng" with a comma-free latitude reads back as the two trimmed halves, whatever the second holds |
| StoreLocation.LocationVendorId | blocks/store-location/render.php:24-28 | a non-empty `vendorId` attribute wins; otherwise the detected vendor; 0 for none |
| StoreLocation.LocatedVendor | blocks/store-location/render.php:30-43 | a vendor exactly when the id is a non-zero seller with a vendor object and a non-empty location |
| StoreLocation.Render | blocks/store-location/render.php:22-135 | nothing without a located vendor or with an empty place; Dokan's map template iff it exists, with the place, provider, height and zoom; otherwise a Mapbox embed iff the provider is "mapbox", the place has both coordinates and a token is set, carrying those coordinates, the token, zoom and height; a Google embed iff the provider is "google", carrying the API key and the place's address; wrapper class and height follow the attributes (defaults google, 400) |
| StoreLocation.GoogleAlwaysRenders | blocks/store-location/render.php:116-131 | without Dokan's template the Google embed is shown for any non-empty place, API key or not |
| StoreLocation.MapboxNeedsToken | blocks/store-location/render.php:100-115 | without Dokan's template, Mapbox with no token renders nothing |
| StoreLocation.BlankCoordinatesHide | blocks/store-location/render.php:54-66 | a location " , " with no address shows nothing |
| StoreTermsConditions.Lower | blocks/store-terms-conditions/render.php:52 | ASCII upper-case letters become lower-case; every other character is kept |
| StoreTermsConditions.SanitizeKey | blocks/store-terms-conditions/render.php:52 | the key is no longer than the input and holds only lower-case letters, digits, `_` and `-` |
| StoreTermsConditions.SanitizeKeyOfKey | blocks/store-terms-conditions/render.php:52 | a string already made of key characters is its own sanitisation |
| StoreTermsConditions.SanitizeKeyIdempotent | blocks/store-terms-conditions/render.php:52 | sanitising twice is sanitising once |
| StoreTermsConditions.TitleTag | blocks/store-terms-conditions/render.php:52-58 | the tag is always h1-h6: the sanitised attribute when it is one of them, otherwise h2 |
| StoreTermsConditions.UpperCaseHeadingAccepted | blocks/store-terms-conditions/render.php:52-58 | "H3" is accepted as h3 |
| StoreTermsConditions.TermsVendorId | blocks/store-terms-conditions/render.php:24-28 | a non-empty `vendorId` attribute wins; otherwise the detected vendor; 0 for none |
| StoreTermsConditions.Render | blocks/store-terms-conditions/render.php:22-86 | output iff the id is a non-zero seller, Dokan is loaded, the vendor object has an id and the terms text is non-empty; the text is the vendor's; the title appears unless switched off, with the validated tag |
| BecomeVendorCta.ButtonLink | blocks/become-vendor-cta/render.php:32-37 | a non-empty link attribute wins; otherwise the account-migration page URL |
| BecomeVendorCta.Render | blocks/become-vendor-cta/render.php:22-71 | shown iff the current user is not a seller and the link is non-empty; heading, description and button text take their attributes or the defaults |
| BecomeVendorCta.SellersNeverSeeIt | blocks/become-vendor-cta/render.php:24-26 | sellers never see the call to action, whatever its attributes |
| BecomeVendorCta.ExplicitLinkWins | blocks/become-vendor-cta/render.php:32-41 | for a non-seller an explicit link is used as given, even when the migration page is unknown |
| MoreFromSeller.BaseQuery | blocks/more-from-seller/render.php:58-65 | published products of the vendor, excluding the current product, at the given page size |
| MoreFromSeller.ApplyOrder | blocks/more-from-seller/render.php:68-91 | title ascending, price and popularity by their meta keys (ascending and descending), date descending; any other value is random |
| MoreFromSeller.QueryStaysOnVendor | blocks/more-from-seller/render.php:53-91 | whatever the ordering, the query excludes the product, keeps to its vendor and to published products, 6 per page by default |
| MoreFromSeller.DefaultIsRandom | blocks/more-from-seller/render.php:55-90 | without `orderBy` the products are random, with no order and no meta key |
| MoreFromSeller.NamedOrdersDiffer | blocks/more-from-seller/render.php:68-91 | the four named orders give four different queries, none of them the random one |
| MoreFromSeller.Render | blocks/more-from-seller/render.php:22-166 | output iff the user can read and the product exists with a seller as author; the filtered query decides between the grid and the empty notice; the footer link appears iff the vendor's shop URL is non-empty |
| VendorStoreHeader.BlockVendorId | blocks/vendor-store-header/render.php:24-29 | a non-empty `vendorId` attribute wins; otherwise the detected vendor; 0 for none |
| VendorStoreHeader.Render | blocks/vendor-store-header/render.php:22-152 | output iff the id is a non-zero seller with data; layout and name from the settings and the record; banner iff shown and non-empty, with its value; the avatar iff non-empty; contact list iff shown, equal to `ContactItems`, with the seller rating and the open/closed value `IsStoreOpen` iff store hours are shown; social list iff shown, the vendor has profiles and Dokan defines social fields, equal to `SocialLinks` |
| VendorStoreHeader.AgreesWithRenderer | blocks/vendor-store-header/render.php:22-152 | for a seller named by the attribute, with social fields defined, the block shows the same header as the store renderer |
| VendorStoreHeader.NonSellerAttributeHidesBlock | blocks/vendor-store-header/render.php:24-33 | an attribute naming a non-seller hides the block, while the store renderer falls back to the detected vendor |
| StoreTabs.CurrentTab | blocks/store-tabs/render.php:19-32 | "terms_and_conditions" iff `toc` is set; "reviews" iff only `store_review` is set; otherwise "products" |
| StoreTabs.SameTabAsTemplate | blocks/store-tabs/render.php:19-32 | the block and the store template read the same query variables in the same order; only the tab names differ |
| StoreTabs.Strtok | blocks/store-tabs/render.php:56-57 | the token is non-empty and free of '?'; there is none exactly when the URL is all '?' |
| StoreTabs.UpTo | blocks/store-tabs/render.php:56-57 | the '?'-free prefix of a string, stopping at its first '?' |
| StoreTabs.TrimSlashes | blocks/store-tabs/render.php:56-57 | a prefix of the input that ends in neither '/' nor '\\' |
| StoreTabs.TrailingSlashIt | blocks/store-tabs/render.php:56-57 | the result always ends in exactly one added '/' |
| StoreTabs.QueryStringIgnored | blocks/store-tabs/render.php:55-59 | a query string does not change the URL the tabs compare |
| StoreTabs.StrtokOfPath | blocks/store-tabs/render.php:56-57 | `strtok` of a path followed by nothing or a query string is the path |
| StoreTabs.UpToOfPath | blocks/store-tabs/render.php:56-57 | the prefix before '?' of a '?'-free text followed by a query string is that text |
| StoreTabs.TrailingSlashIgnored | blocks/store-tabs/render.php:55-59 | a trailing slash does not change the URL the tabs compare |
| StoreTabs.TabUrlWithQueryIsActive | blocks/store-tabs/render.php:41-60 | on page `x/` a tab pointing to `x?a=1` is active |
| StoreTabs.TabItems | blocks/store-tabs/render.php:99-116 | every item has a non-empty URL; no more items than tabs; no URL at all gives no item |
| StoreTabs.TabItemsMembers | blocks/store-tabs/render.php:99-116 | every tab with a non-empty URL gives its item (URL, title or else key, active flag), and every item is the item of such a tab |
| StoreTabs.TabItemsOne | blocks/store-tabs/render.php:99-116 | one tab gives its item when its URL is non-empty, and nothing otherwise |
| StoreTabs.TabItemsAppend | blocks/store-tabs/render.php:99-116 | the items of two runs of tabs are the first run's, then the second's: tab order is kept |
| StoreTabs.CollectTabItems | blocks/store-tabs/render.php:99-116 | the loop produces exactly those items, in tab order |
| StoreTabs.TabsVendorId | blocks/store-tabs/render.php:72-76 | a non-empty `vendorId` attribute wins; otherwise the detected vendor; 0 for none |
| StoreTabs.Render | blocks/store-tabs/render.php:70-122 | a list iff the id is a non-zero seller with store tabs; the list is the tab items |
| StoreTabs.CurrentTabIsActive | blocks/store-tabs/render.php:41-47 | the tab whose key is the current tab is active, whatever its URL |
| StoreQueryLoop.Settings | blocks/store-query-loop/render.php:29-45 | defaults 12 per page, 3 columns, grid, by name; a non-empty `stores_orderby` parameter replaces the order; the search is the `dokan_seller_search` parameter; a set `paged` gives the page, else 1 |
| StoreQueryLoop.WpOrderby | blocks/store-query-loop/render.php:50-59 | dates become `most_recent`, names `display_name`; every other order passes unchanged |
| StoreQueryLoop.CustomOrderClause | blocks/store-query-loop/render.php:106-138 | the hook sets a clause exactly for most_recent, total_orders and random: ID descending, order count descending, or the cached random choice, else one of the five column lists |
| StoreQueryLoop.BuildUserArgs | blocks/store-query-loop/render.php:50-92 | the assignments build exactly the user-query arguments the settings call for |
| StoreQueryLoop.MetaQueryCases | blocks/store-query-loop/render.php:61-92 | sellers by page and order; a search is a LIKE clause on the store name; featured-only joins it with AND or, without a search, becomes a plain meta key and value |
| StoreQueryLoop.TotalPagesAsWritten | blocks/store-query-loop/render.php:153-154 | `ceil(total / per_page)` throws exactly when `per_page` is 0; otherwise it is the least page count holding every store |
| StoreQueryLoop.CeilDiv | blocks/store-query-loop/render.php:154 | the least page count whose pages hold every store; 0 stores give 0 pages |
| StoreQueryLoop.CeilDivBounds | blocks/store-query-loop/render.php:154 | the integer form of the ceiling meets both bounds of the least page count |
| StoreQueryLoop.ZeroPerPageThrows | blocks/store-query-loop/render.php:22-154 | for a reader and a `perPage` attribute of 0, `absint` keeps the page size 0, the page count divides by it, and the block as written fails where the corrected block still renders |
| StoreQueryLoop.RenderAsWritten | blocks/store-query-loop/render.php:22-154 | the block as written throws exactly when the reader passes the capability check with a page size of 0; otherwise it renders what `Render` renders, with the same page count |
| StoreQueryLoop.TotalPages | blocks/store-query-loop/render.php:153-154 | the page count agrees with `ceil` whenever `per_page` is positive; with 0 (no limit) every store is on one page |
| StoreQueryLoop.SeveralPagesIffOverflow | blocks/store-query-loop/render.php:333 | there is more than one page exactly when there are more stores than fit on one |
| StoreQueryLoop.Named | blocks/store-query-loop/render.php:228-238 | the inner blocks of one name, in order, never more than there are blocks |
| StoreQueryLoop.NamedMembers | blocks/store-query-loop/render.php:228-238 | exactly the blocks of that name are selected |
| StoreQueryLoop.NamedAppend | blocks/store-query-loop/render.php:228-238 | selection keeps order across a concatenation |
| StoreQueryLoop.PartitionInnerBlocks | blocks/store-query-loop/render.php:224-238 | the loop sorts the inner blocks into search, pagination and card blocks, each in order; others are dropped |
| StoreQueryLoop.PartitionSizes | blocks/store-query-loop/render.php:228-238 | no block lands in two of the lists |
| StoreQueryLoop.ShownSellers | blocks/store-query-loop/render.php:255-261 | every shown id is a seller with a vendor object, and every result id (after `absint`) that is one is shown; never more than the results |
| StoreQueryLoop.ShownSellersOne | blocks/store-query-loop/render.php:255-261 | a single result is shown exactly when it names a seller with a vendor object |
| StoreQueryLoop.ShownSellersAppend | blocks/store-query-loop/render.php:255-261 | the shown sellers of two runs of results are the first run's, then the second's: result order is kept |
| StoreQueryLoop.Item | blocks/store-query-loop/render.php:263-309 | with card blocks, each is rendered with the loop context plus the seller as `dokan/vendor`; without them, the default card with the avatar and name blocks when their render functions exist |
| StoreQueryLoop.SellerItems | blocks/store-query-loop/render.php:255-313 | one item per shown seller, in result order |
| StoreQueryLoop.CollectSellerItems | blocks/store-query-loop/render.php:255-313 | the loop produces exactly those items, skipping non-sellers |
| StoreQueryLoop.Pagination | blocks/store-query-loop/render.php:318-349 | only the first pagination block is rendered; without one the default links appear iff there is more than one page |
| StoreQueryLoop.RenderPagination | blocks/store-query-loop/render.php:319-333 | the loop with its `break` renders that pagination |
| StoreQueryLoop.GridClasses | blocks/store-query-loop/render.php:216-221 | grid adds the column count, list adds its class, any other layout adds nothing |
| StoreQueryLoop.LoopContext | blocks/store-query-loop/render.php:163-181 | the parent's vendor is kept, and the query id and page information are added |
| StoreQueryLoop.Render | blocks/store-query-loop/render.php:22-398 | nothing without the read capability; the empty notice iff there are no results; search blocks always get the loop context; otherwise the grid, the seller items and the pagination; the count filter answers the total |
| StoreQueryLoop.UrlOrderWins | blocks/store-query-loop/render.php:35-39 | a `stores_orderby` parameter beats the block's own order |
| StoreQueryLoop.CardsSeeTheirSeller | blocks/store-query-loop/render.php:263-279 | every card of the listing gets its seller as `dokan/vendor`, together with the loop's query id and query |
| VendorQueryPagination.Format | blocks/vendor-query-pagination/render.php:54-60 | the page placeholder is appended with '&' when the base URL already has a query string, with '?' otherwise |
| VendorQueryPagination.PrevText | blocks/vendor-query-pagination/render.php:75 | the previous-link text is the arrow "&larr; " when arrows are chosen, followed by "Previous" when the label is shown, and nothing else |
| VendorQueryPagination.NextText | blocks/vendor-query-pagination/render.php:76 | the next-link text is "Next" when the label is shown, followed by the arrow " &rarr;" when arrows are chosen, and nothing else |
| VendorQueryPagination.LinkTextsMirror | blocks/vendor-query-pagination/render.php:75-76 | the arrow leads the previous text and trails the next text; the labels appear when shown; with neither, both texts are empty |
| VendorQueryPagination.Render | blocks/vendor-query-pagination/render.php:22-86 | nothing without a query id and query context; otherwise links iff there is more than one page, with the context's total and current page (default 1), mid size (default 2), the base with the `%#%` placeholder, the format, and the link texts |
| VendorQueryPagination.BaseHasPlaceholder | blocks/vendor-query-pagination/render.php:70 | whenever the page link carries the marker page number, the base carries the `%#%` placeholder |
| VendorQueryPagination.LoopContextShowsPagination | blocks/vendor-query-pagination/render.php:24-39 | the store query loop's own context lets the block through whenever it has several pages, at the loop's current page |
| VendorStoreAddress.Part | blocks/vendor-store-address/render.php:23-47 | a field is one part exactly when PHP's `empty()` says it is set |
| VendorStoreAddress.AddressParts | blocks/vendor-store-address/render.php:20-50 | every part is non-empty, and there are none exactly when every field is empty |
| VendorStoreAddress.FormatAddress | blocks/vendor-store-address/render.php:20-50 | the formatter's result is the set fields, in order, joined by ", " |
| VendorStoreAddress.FormatGroupsFlatten | blocks/vendor-store-address/render.php:30-49 | joining the city/state/zip group on its own leaves no trace in the result |
| VendorStoreAddress.FormattedAddressEmpty | blocks/vendor-store-address/render.php:49 | the formatted address is empty exactly when every field is |
| VendorStoreAddress.CityAndState | blocks/vendor-store-address/render.php:20-50 | a city and a state alone read "city, state" |
| VendorStoreAddress.Project | blocks/vendor-store-address/render.php:71-74 | the detection fallback keeps the vendor's id and its short address |
| VendorStoreAddress.DisplayedAddress | blocks/vendor-store-address/render.php:83-92 | an array address is formatted, a string is used as it is, and a missing or other value gives "" |
| VendorStoreAddress.Render | blocks/vendor-store-address/render.php:60-116 | the fixed sample paragraph iff no vendor resolves; nothing iff the address text is empty; otherwise the address, with the icon unless switched off |
| VendorStoreAddress.LoopVendorShowsFormattedAddress | blocks/vendor-store-address/render.php:83-97 | a vendor from the store query loop shows its formatted address fields, and nothing exactly when none is set |
| VendorStoreAddressEditor.JsPart | blocks/vendor-store-address/index.js:27-51 | a field is one part exactly when it is truthy in JavaScript |
| VendorStoreAddressEditor.FormatAddressJs | blocks/vendor-store-address/index.js:20-54 | a falsy address, or one without truthy fields, reads "No address available"; otherwise the truthy fields in order joined by ", " |
| VendorStoreAddressEditor.JsGroupsFlatten | blocks/vendor-store-address/index.js:34-53 | joining the city/state/zip group on its own leaves no trace in the result |
| VendorStoreAddressEditor.PartsAgree | blocks/vendor-store-address/index.js:27-51 | a field other than "0" is set for the server exactly when it is truthy for the editor |
| VendorStoreAddressEditor.EditorAgreesWithServer | blocks/vendor-store-address/index.js:20-54 | without a "0" field the editor and the server show the same address, except that the editor reads "No address available" where the server shows nothing |
| VendorStoreAddressEditor.ZeroZipDiffers | blocks/vendor-store-address/index.js:41-43 | a zip of "0" is shown by the editor and dropped by the server |
| VendorStoreAddressEditor.FormattedAddressJsNonEmpty | blocks/vendor-store-address/index.js:20-54 | the editor's address text is never empty |
| VendorStoreAddressEditor.EditText | blocks/vendor-store-address/index.js:65-70 | the text is never empty; a vendor without an array address reads "No address available"; otherwise its fields are formatted |
| VendorStoreName.TagName | blocks/vendor-store-name/render.php:48-55 | the tag is always one of the nine allowed: the attribute when allowed, otherwise h2 |
| VendorStoreName.TypographyDecls | blocks/vendor-store-name/render.php:60-77 | font size, weight, line height, text colour and background colour, in that order |
| VendorStoreName.NameDecls | blocks/vendor-store-name/render.php:57-109 | typography and colours, then the four margins, then the four paddings |
| VendorStoreName.InlineStylesOf | blocks/vendor-store-name/render.php:57-109 | the appends give exactly the rules of the set declarations, in that order |
| VendorStoreName.NameStylesExact | blocks/vendor-store-name/render.php:57-122 | every set declaration yields its rule, every rule comes from one, and the `style` attribute is absent exactly when none is set |
| VendorStoreName.MarginBeforePadding | blocks/vendor-store-name/render.php:79-109 | margin rules always come after typography and colours and before padding |
| VendorStoreName.Project | blocks/vendor-store-name/render.php:33-37 | the detection fallback keeps the id, the shop name as `store_name` and the shop URL |
| VendorStoreName.ShopName | blocks/vendor-store-name/render.php:46 | `store_name` wins when present, even empty; then `shop_name`; else "" |
| VendorStoreName.Render | blocks/vendor-store-name/render.php:22-137 | the "Store Name" placeholder iff no vendor resolves; otherwise the heading with the validated tag, the name, the style attribute, and a link iff linking is on and the shop URL is non-empty |
| VendorStoreName.DetectedVendorShowsShopName | blocks/vendor-store-name/render.php:27-49 | a detected vendor is named by its shop name, and linked iff linking is on and its shop URL is non-empty |
| VendorStoreName.ContextNames | blocks/vendor-store-name/render.php:46-47 | a vendor from the query loop is named by its `store_name`, one from a store card by its `shop_name` |
| VendorStorePhone.CleanPhone | blocks/vendor-store-phone/render.php:62 | the cleaned number is no longer than the input and holds only digits and '+' |
| VendorStorePhone.CleanPhoneKeepsDialString | blocks/vendor-store-phone/render.php:62 | a number made only of digits and '+' is left unchanged |
| VendorStorePhone.CleanPhoneIdempotent | blocks/vendor-store-phone/render.php:62 | cleaning a cleaned number changes nothing |
| VendorStorePhone.CleanPhoneAppend | blocks/vendor-store-phone/render.php:62 | cleaning distributes over concatenation |
| VendorStorePhone.CleanPhoneDropsSeparator | blocks/vendor-store-phone/render.php:62 | a separator inside a number is dropped and nothing else changes |
| VendorStorePhone.CleanPhoneKeepsDialChar | blocks/vendor-store-phone/render.php:62 | a digit or '+' inside a number keeps its place |
| VendorStorePhone.CleanPhoneOne | blocks/vendor-store-phone/render.php:62 | a single character is kept exactly when it is a digit or '+' |
| VendorStorePhone.Project | blocks/vendor-store-phone/render.php:33-36 | the detection fallback keeps the vendor's id and phone |
| VendorStorePhone.Render | blocks/vendor-store-phone/render.php:22-80 | the sample-number placeholder iff no vendor resolves; nothing iff the phone is empty; otherwise the phone as written, with the icon unless switched off and a `tel:` link to the cleaned number unless linking is off |
| VendorStorePhone.DetectedVendorPhone | blocks/vendor-store-phone/render.php:27-72 | the detected vendor's phone is shown as written and dialled cleaned |
| VendorRating.Project | blocks/vendor-rating/render.php:33-36 | the detection fallback keeps the vendor's id and rating |
| VendorRating.RatingValue | blocks/vendor-rating/render.php:45 | the rating when present, else 0 |
| VendorRating.RatingCount | blocks/vendor-rating/render.php:46 | the count when present, else 0 |
| VendorRating.Render | blocks/vendor-rating/render.php:22-82 | the five-star placeholder iff no vendor resolves; Dokan's stars iff its rating function exists; otherwise the block's own stars, with the count iff shown; rating and count default to 0 |
| VendorRating.ShowCountIgnoredByDokan | blocks/vendor-rating/render.php:47-62 | with Dokan's renderer the `showCount` attribute has no effect |
| VendorRating.UnratedVendorShowsZero | blocks/vendor-rating/render.php:45-46 | a vendor without a rating array is drawn as zero stars from zero reviews |
| StoreStatus.Project | blocks/store-status/render.php:33-36 | the detection fallback keeps the vendor's id and its open/close notices, an empty set when missing |
| StoreStatus.OpenNotice | blocks/store-status/render.php:51-52 | the vendor's open notice when present, else "Open Now" |
| StoreStatus.CloseNotice | blocks/store-status/render.php:51-53 | the vendor's close notice when present, else "Closed" |
| StoreStatus.Render | blocks/store-status/render.php:22-72 | the "Open Now" placeholder iff no vendor resolves; otherwise the open class and notice iff the store is open, else the closed class and notice |
| StoreStatus.ClassMatchesText | blocks/store-status/render.php:56-63 | class and text never disagree: the open class always goes with the open notice |
| StoreStatus.OpenWithoutDokanCheck | blocks/store-status/render.php:48 | without Dokan's open check every vendor shows as open |
| VendorAvatar.WrapperClasses | blocks/vendor-avatar/render.php:59-62 | the block class first, plus the alignment class exactly when `align` is non-empty |
| VendorAvatar.WrapperStyles | blocks/vendor-avatar/render.php:65-73 | the radius and `overflow: hidden` exactly when a radius is set, else nothing |
| VendorAvatar.ImageStyles | blocks/vendor-avatar/render.php:89-101 | the width when non-empty, then the height when non-empty, then `object-fit: cover`, then the radius when set; the length counts exactly those |
| VendorAvatar.ImageStylesOmitEmpty | blocks/vendor-avatar/render.php:89-96 | an empty width or height leaves no declaration of it among the image styles |
| VendorAvatar.BuildAvatarLists | blocks/vendor-avatar/render.php:59-101 | the three accumulators end as the wrapper classes, the wrapper styles and the image styles |
| VendorAvatar.RadiusOnBoth | blocks/vendor-avatar/render.php:69-101 | a set radius is applied to the wrapper and is the image's last style |
| VendorAvatar.ImageStylesOrder | blocks/vendor-avatar/render.php:89-101 | the image styles keep their order: width, height, fit, radius |
| VendorAvatar.Project | blocks/vendor-avatar/render.php:36-41 | the detection fallback keeps the id, the shop name as `store_name`, the shop URL and the avatar as `gravatar` |
| VendorAvatar.AvatarUrl | blocks/vendor-avatar/render.php:52 | `gravatar` wins when present, even empty; then `avatar`; else WordPress's avatar for the id |
| VendorAvatar.Render | blocks/vendor-avatar/render.php:25-128 | the generic avatar iff no vendor resolves; otherwise the image with the avatar URL, the store name as alt text, the classes and styles above (80px default), linked iff linking is on and the shop URL is non-empty |
| VendorAvatar.DefaultAvatar | blocks/vendor-avatar/render.php:50-103 | with default attributes a query-loop vendor's image is 80px square, not rounded, and linked to the shop |
| StoreBanner.HexValue | blocks/store-banner/render.php:82-84 | `hexdec` of one hexadecimal digit is below 16 |
| StoreBanner.HexByte | blocks/store-banner/render.php:82-84 | `hexdec` of a two-digit slice is a channel value of at most 255 |
| StoreBanner.MatchHexColor | blocks/store-banner/render.php:80-81 | the pattern `^#([A-Fa-f0-9]{6})$` matches exactly a `#` and six hexadecimal digits, optionally followed by one final newline (PCRE `$`), and captures the six digits |
| StoreBanner.ParseHexColor | blocks/store-banner/render.php:80-85 | a colour is parsed exactly when the pattern matches, and each channel is at most 255 |
| StoreBanner.Hex2 | blocks/store-banner/render.php:82-84 | any channel value up to 255 has a two-digit hexadecimal spelling |
| StoreBanner.HexByteOfHex2 | blocks/store-banner/render.php:82-84 | `hexdec` undoes the two-digit spelling of a channel |
| StoreBanner.ParseHexColorRoundTrip | blocks/store-banner/render.php:80-85 | every colour spelled `#rrggbb`, with or without a trailing newline, parses back to the same channels |
| StoreBanner.ShortHexRejected | blocks/store-banner/render.php:80 | a three-digit hex colour and a colour name do not match, so they fall back to black |
| StoreBanner.OverlayRgba | blocks/store-banner/render.php:79-86 | the overlay is `rgba(0, 0, 0, o)` unless the colour parses, in which case it carries the parsed channels |
| StoreBanner.DefaultColourIsFallback | blocks/store-banner/render.php:68-86 | the default `#000000` gives the same overlay as an unparseable colour |
| StoreBanner.Settings | blocks/store-banner/render.php:65-70 | absent attributes default to height 300, min-height 200, overlay 0.3, colour `#000000`, position `center`, size `cover`; a given height goes through `absint` |
| StoreBanner.BannerStyles | blocks/store-banner/render.php:89-109 | the style keys in order are min-height, background-size, background-position, background-repeat, then `height` exactly when the height is positive, then `background-image` exactly when the banner URL is non-empty; every key has a value |
| StoreBanner.SerializeStyles | blocks/store-banner/render.php:112-115 | the loop builds `property: value; ` for every key, in key order |
| StoreBanner.StyleStringEnding | blocks/store-banner/render.php:113-115 | a non-empty serialisation ends in `; ` |
| StoreBanner.StyleStringStart | blocks/store-banner/render.php:113-115 | the serialisation starts with the first property |
| StoreBanner.Project | blocks/store-banner/render.php:33-43 | the vendor detected from the page keeps its id and banner |
| StoreBanner.Render | blocks/store-banner/render.php:22-131 | the inner content is always kept; the grey no-vendor wrapper is rendered exactly when neither the context nor the page yields a vendor; otherwise the style is the trimmed serialisation of the banner styles, with an empty banner leaving out the image |
| StoreBanner.BannerStyleShape | blocks/store-banner/render.php:112-121 | the trimmed style is the serialisation without its final space: it starts with `min-height` and ends in `;` |
| VendorSearch.ButtonClasses | blocks/vendor-search/render.php:63-66 | the button always carries `theabd--btn` and `theabd--btn-theme`, and `dokan-btn-<size>` exactly when the size is non-empty and not `medium` |
| VendorSearch.BuildButtonClasses | blocks/vendor-search/render.php:63-89 | the class string is the classes joined by spaces |
| VendorSearch.SizeStyleIsDeclarationList | blocks/vendor-search/render.php:70-80 | every size yields padding and font-size declarations, each ending in `;` |
| VendorSearch.ButtonStyleIsDeclarationList | blocks/vendor-search/render.php:68-87 | the assembled style is a run of declarations with no leading or trailing space |
| VendorSearch.ButtonStyleShape | blocks/vendor-search/render.php:68-87 | the style starts with the size declarations, an unknown size gets the medium ones, and with no colours it is the size declarations alone |
| VendorSearch.ColoursAppear | blocks/vendor-search/render.php:82-87 | a non-empty background colour and a non-empty text colour each appear in the style as their own declaration |
| VendorSearch.BuildButtonStyle | blocks/vendor-search/render.php:68-87 | the appended string equals the button style of the size and colours |
| VendorSearch.TrimStyle | blocks/vendor-search/render.php:90 | trimming a built button style leaves it unchanged |
| VendorSearch.CountText | blocks/vendor-search/render.php:103-108 | the count line is shown exactly when the count is not negative; a label without `%s` gets the formatted count after a space |
| VendorSearch.ReplaceTrailingPlaceholder | blocks/vendor-search/render.php:106-107 | substituting into a label that ends in `%s` appends the formatted count to the rest of the label |
| VendorSearch.CountIsShown | blocks/vendor-search/render.php:29-108 | the default label reads `Total store showing: <count>`; a label with a placeholder contains the count, and a label without one is kept as its prefix |
| VendorSearch.HiddenInputs | blocks/vendor-search/render.php:137-146 | every hidden input repeats a query parameter other than `stores_orderby`, with its value |
| VendorSearch.PreserveQuery | blocks/vendor-search/render.php:137-146 | the loop over the query string emits the hidden inputs, in query order |
| VendorSearch.HiddenInputsCover | blocks/vendor-search/render.php:137-146 | every query parameter other than `stores_orderby` is carried as a hidden input |
| VendorSearch.HiddenInputsCount | blocks/vendor-search/render.php:137-146 | with distinct parameter names, one input per parameter, minus one when `stores_orderby` is present |
| VendorSearch.DefaultSortOptions | blocks/vendor-search/render.php:45-53 | four sort options before the filter: name, most recent, most popular, random |
| VendorSearch.SortChoices | blocks/vendor-search/render.php:150-154 | one option per sort key, in order, selected exactly when its key equals the requested sort order |
| VendorSearch.AtMostOneSelected | blocks/vendor-search/render.php:150-154 | with distinct keys no two options are selected |
| VendorSearch.DefaultSelection | blocks/vendor-search/render.php:45-154 | among the default options one is selected exactly when the sort order is one of the four keys |
| VendorSearch.Render | blocks/vendor-search/render.php:22-251 | the filter button and the filter form appear exactly when search is enabled, the sort form exactly when sorting is enabled, the count exactly when it is not negative and then as `CountText` with the label or its default; the filter form is open exactly when a filter is active, repeats the search text and carries the sort order exactly when it is set; the sort form holds `SortChoices` of the filtered options against the requested order, the `HiddenInputs` of the other query parameters and the sort label or its default; the filter, cancel and apply buttons all carry `ButtonClasses` and `ButtonStyle` of the chosen size and colours, with their texts |
| VendorSearch.SortOrderCarriedOnce | blocks/vendor-search/render.php:137-177 | the sort form never duplicates `stores_orderby` as a hidden input, and the filter form's hidden sort input carries the requested order |

## Left out

- Output escaping and sanitising (`esc_html`, `esc_attr`, `esc_url`, `wp_kses_post`, `sanitize_text_field`, `wp_unslash`, `antispambot`) are the identity; `wpautop` and `wptexturize` are not modelled.
- HTML markup is modelled only as the structure of each block's output (which parts appear, with which classes, styles and texts), not as bytes.
- `get_block_wrapper_attributes`, `paginate_links`, `get_pagenum_link`, `get_avatar_url`, `number_format_i18n`, `wp_dropdown_categories`, `register_block_type` and every `apply_filters` call are oracles: data in `Market`/`Request` or function parameters.
- `WP_Query` and `WP_User_Query` are not executed: the model builds their arguments, and their results (the sellers, the total, whether posts exist) are inputs.
- StoreQueryLoop.CustomOrderClause: of the `pre_user_query` hook only the `ORDER BY` clause it chooses is modelled. The other SQL fragments, the transient cache itself and its expiry are database access and are left out. The cached column and the `array_rand` pick are inputs.
- `do_action` hooks produce nothing in the model, and the fallback card renderers that Dokan may define are named by oracle flags only.
- Floating point is left out: the banner's overlay opacity is kept as the attribute's text, and the rating percentage and half stars are not computed.
- Time is an input: "today" and the current time for the store hours come from the caller.
- The React editor components are not modelled, except the address formatter. The same goes for the pagination preview and the inline filter-toggle script of blocks/vendor-search/render.php:256-301.
- The plugin bootstrap, the DI container, asset enqueueing, the sidebar and contact-form wrappers, and the template loader are thin wrappers and are not part of this model.
- VendorSearch.CountText: `sprintf` is modelled as replacing every `%s` with the formatted count. Other `sprintf` directives and a second `%s` (which PHP would reject for lack of arguments) are not modelled.
- Wp.Intval: only optional whitespace, a sign and a decimal digit prefix are read. Float strings such as "1e3" and the saturation at the integer width are not modelled.
- Install.VersionLess: versions are compared on their numeric dot-separated parts only. `version_compare`'s special suffixes (`alpha`, `RC`, `pl`, …) are not modelled.
- BlockRegistry.DefaultTableHoldsEveryBlock: each of the plugin's block names is proved to be in the table, but the count of distinct names is not.
- StoreLocation.Render: the Google embed carries the address value itself. Its `rawurlencode` is not modelled, nor the `TypeError` PHP raises when the address is an array.
- StoreLocation.EmptyAddress: an address of a type other than string or array is non-empty, as in PHP `empty()`. Its value is not modelled further, and the address block shows it as "".
- StoreListTemplate.AddTemplateToHierarchy: follows the corrected listing-page test. StoreListTemplate.AddTemplateToHierarchyAsWritten models the source's test, which without a configured listing page prepends the slug on every page.
- StoreListTemplate.ShouldRenderTemplate: follows the corrected listing-page test. StoreListTemplate.ShouldRenderTemplateAsWritten models the source's test.
- StoreQueryLoop.LoopContext: uses the corrected page count, which counts one page for a page size of 0. The source throws before building the context, which StoreQueryLoop.RenderAsWritten models.
- StoreQueryLoop.Render: renders a single page for a page size of 0. The source throws `DivisionByZeroError` there, which StoreQueryLoop.RenderAsWritten models.
- BlockTemplatesController.Controller.constructor: templates are a closed set of the plugin's two kinds, so the `another_blocks_dokan_registered_templates` filter can reorder or drop them but the model cannot express a third-party template added by it.
- VendorAvatar.Render: `style.border.radius` is taken as one string. A per-corner radius object, which WordPress also allows, is not modelled.
- StoreQueryLoop: the `has_pagination_block` and `has_search_block` flags that the loop computes and never reads are not kept.

## Findings

| source | as written | input that shows it | evidently intended | confidence | as-written member | corrected member |
|---|---|---|---|---|---|---|
| includes/helpers/class-context-detector.php:120-122 | `is_page( get_option('dokan_pages')['store_listing'] ?? 0 )` asks `is_page(0)` when no listing page is configured, and `is_page(0)` is true on every page | a site whose `dokan_pages` option has no `store_listing` entry, on any page | only the configured listing page is the store listing page | not executed | StoreListTemplate.MissingListingPageHijacksEveryPage | StoreListTemplate.AddTemplateToHierarchy |
| blocks/store-query-loop/render.php:153-154 | `ceil( $total_users / $per_page )` with `per_page` from `absint`, which yields 0 for a `perPage` attribute of 0 | a query loop block with `perPage` 0, seen by a user who can read; PHP 8 throws `DivisionByZeroError` | a `per_page` of 0 gives an unlimited user query, so every store is on one page | not executed | StoreQueryLoop.ZeroPerPageThrows | StoreQueryLoop.TotalPages |

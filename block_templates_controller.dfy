/**
 * `Block_Templates_Controller`: the list of plugin templates, built once and
 * passed through the `another_blocks_dokan_registered_templates` filter, and
 * the `init` that starts each of them.
 */
module BlockTemplatesController {
  import opened Wp
  import opened DokanTemplate
  import StoreTemplate
  import StoreListTemplate

  /** The template classes the controller knows. */
  datatype TemplateKind = StoreTemplateKind | StoreListTemplateKind

  /** A template's `init()`. */
  function InitOf(site: Site, t: TemplateKind): seq<Effect> {
    match t
    case StoreTemplateKind => StoreTemplate.Init(site)
    case StoreListTemplateKind => StoreListTemplate.Init(site)
  }

  /** The filter a template's `init()` adds. */
  function HookOf(t: TemplateKind): Effect {
    match t
    case StoreTemplateKind => StoreTemplate.IncludeFilter
    case StoreListTemplateKind => StoreListTemplate.HierarchyFilter
  }

  /** `$template->init()`, dispatched on the template's class. */
  function Dispatch(site: Site): TemplateKind -> seq<Effect> {
    t => InitOf(site, t)
  }

  /** The effects of calling `init` on each template of `ts`, in order. */
  function InitEffects(init: TemplateKind -> seq<Effect>, ts: seq<TemplateKind>): seq<Effect> {
    if |ts| == 0 then [] else InitEffects(init, ts[..|ts| - 1]) + init(ts[|ts| - 1])
  }

  /** One more template in the prefix appends its `init()` effects. */
  lemma InitEffectsStep(init: TemplateKind -> seq<Effect>, ts: seq<TemplateKind>, i: int)
    requires 0 <= i < |ts|
    ensures InitEffects(init, ts[..i + 1]) == InitEffects(init, ts[..i]) + init(ts[i])
  {
    assert ts[..i + 1][..i] == ts[..i];
  }

  /** The filters among a list of effects, in order. */
  function Filters(effects: seq<Effect>): (hooks: seq<Effect>)
    ensures |hooks| <= |effects|
    ensures forall e :: e in hooks ==> e in effects && e.AddFilter?
  {
    if |effects| == 0 then []
    else Filters(effects[..|effects| - 1])
         + (if effects[|effects| - 1].AddFilter? then [effects[|effects| - 1]] else [])
  }

  lemma {:induction false} FiltersAppend(a: seq<Effect>, b: seq<Effect>)
    ensures Filters(a + b) == Filters(a) + Filters(b)
    decreases |b|
  {
    if |b| == 0 {
      assert a + b == a;
    } else {
      var front := b[..|b| - 1];
      var last := b[|b| - 1];
      var tail := if last.AddFilter? then [last] else [];
      assert (a + b)[..|a + b| - 1] == a + front;
      assert (a + b)[|a + b| - 1] == last;
      assert Filters(a + b) == Filters(a + front) + tail;
      FiltersAppend(a, front);
      assert Filters(b) == Filters(front) + tail;
    }
  }

  /** The slug of each template class. */
  function SlugOf(t: TemplateKind): string {
    match t
    case StoreTemplateKind => StoreTemplate.Slug
    case StoreListTemplateKind => StoreListTemplate.Slug
  }

  /** Effects that are an optional registration of `slug`'s template, present exactly when the host has
   * `register_block_template`, followed by the filter `hook`. */
  predicate Shaped(site: Site, e: seq<Effect>, slug: string, hook: Effect) {
    |e| >= 1 && e[|e| - 1] == hook
    && ("register_block_template" !in site.functions ==> |e| == 1)
    && ("register_block_template" in site.functions ==>
          |e| == 2 && e[0].RegisterBlockTemplate? && e[0].name == TemplateId(None, slug))
  }

  /** A template's `init()`: its registration when the host supports it, then its filter. */
  lemma InitShape(site: Site, t: TemplateKind)
    ensures Shaped(site, InitOf(site, t), SlugOf(t), HookOf(t))
  {
    match t
    case StoreTemplateKind => StoreInitShape(site);
    case StoreListTemplateKind => StoreListInitShape(site);
  }

  lemma StoreInitShape(site: Site)
    ensures Shaped(site, StoreTemplate.Init(site), StoreTemplate.Slug, HookOf(StoreTemplateKind))
  {
    RegistrationShape(site, StoreTemplate.Init(site), StoreTemplate.Slug, StoreTemplate.TemplateTitle(),
                      StoreTemplate.TemplateDescription(), HookOf(StoreTemplateKind));
  }

  lemma StoreListInitShape(site: Site)
    ensures Shaped(site, StoreListTemplate.Init(site), StoreListTemplate.Slug, HookOf(StoreListTemplateKind))
  {
    RegistrationShape(site, StoreListTemplate.Init(site), StoreListTemplate.Slug, StoreListTemplate.TemplateTitle(),
                      StoreListTemplate.TemplateDescription(), HookOf(StoreListTemplateKind));
  }

  /** Effects made of a registration followed by one filter. */
  lemma RegistrationShape(site: Site, e: seq<Effect>, slug: string, title: string, description: string, hook: Effect)
    requires |e| >= 1 && e[|e| - 1] == hook && e[..|e| - 1] == RegisterTemplate(site, slug, title, description)
    ensures Shaped(site, e, slug, hook)
  {
    var reg := e[..|e| - 1];
    if "register_block_template" in site.functions {
      assert e[0] == reg[0];
    }
  }

  /** Each template's `init()` adds exactly its own filter. */
  lemma FiltersOfInit(site: Site, t: TemplateKind)
    ensures Filters(InitOf(site, t)) == [HookOf(t)]
  {
    InitShape(site, t);
    FiltersOfRegistration(InitOf(site, t), HookOf(t));
  }

  /** At most one registration followed by a filter: that filter is the only one. */
  lemma FiltersOfRegistration(e: seq<Effect>, hook: Effect)
    requires hook.AddFilter? && 1 <= |e| <= 2 && e[|e| - 1] == hook
    requires |e| == 2 ==> e[0].RegisterBlockTemplate?
    ensures Filters(e) == [hook]
  {
    var reg := e[..|e| - 1];
    assert Filters(e) == Filters(reg) + [hook];
    if |reg| == 1 {
      assert reg[..0] == [];
      assert Filters(reg) == Filters(reg[..0]);
    }
  }

  /** The filters `init()` of each template of `ts` adds, in order. */
  function HooksOf(ts: seq<TemplateKind>): (hooks: seq<Effect>)
    ensures |hooks| == |ts|
    ensures forall i :: 0 <= i < |ts| ==> hooks[i] == HookOf(ts[i])
  {
    if |ts| == 0 then [] else HooksOf(ts[..|ts| - 1]) + [HookOf(ts[|ts| - 1])]
  }

  /** `init` starts every template exactly once, in list order: one filter per template, in order. */
  lemma {:induction false} InitHooksFollowTemplates(site: Site, ts: seq<TemplateKind>)
    ensures Filters(InitEffects(Dispatch(site), ts)) == HooksOf(ts)
    decreases |ts|
  {
    if |ts| > 0 {
      var front := ts[..|ts| - 1];
      InitHooksFollowTemplates(site, front);
      FiltersAppend(InitEffects(Dispatch(site), front), InitOf(site, ts[|ts| - 1]));
      FiltersOfInit(site, ts[|ts| - 1]);
    }
  }

  /** The `foreach` of `init`: each template's `init()` in turn, its effects appended. */
  method InitAll(init: TemplateKind -> seq<Effect>, ts: seq<TemplateKind>) returns (effects: seq<Effect>)
    ensures effects == InitEffects(init, ts)
  {
    effects := [];
    var i := 0;
    while i < |ts|
      invariant 0 <= i <= |ts|
      invariant effects == InitEffects(init, ts[..i])
    {
      InitEffectsStep(init, ts, i);
      effects := effects + init(ts[i]);
      i := i + 1;
    }
    assert ts[..i] == ts;
  }

  class Controller {
    /** `$templates`. */
    var templates: seq<TemplateKind>

    /**
     * The constructor (`register_templates`): the store template, then the
     * listing template, then the filter, a host callback.
     */
    constructor (filter: seq<TemplateKind> -> seq<TemplateKind>)
      ensures templates == filter([StoreTemplateKind, StoreListTemplateKind])
    {
      templates := [];
      new;
      templates := templates + [StoreTemplateKind];
      templates := templates + [StoreListTemplateKind];
      assert templates == [StoreTemplateKind, StoreListTemplateKind];
      templates := filter(templates);
    }

    /** `get_templates`: the stored list, unchanged. */
    function GetTemplates(): (ts: seq<TemplateKind>)
      reads this
      ensures |ts| == |templates| && forall i :: 0 <= i < |ts| ==> ts[i] == templates[i]
    {
      templates
    }

    /** `init`: `init()` on each template, in list order. */
    method Init(site: Site) returns (effects: seq<Effect>)
      ensures effects == InitEffects(Dispatch(site), templates)
    {
      effects := InitAll(Dispatch(site), templates);
    }
  }

  /**
   * Without a filter, with `register_block_template` available, `init`
   * registers the store template and then the listing template, each
   * followed by its own filter.
   */
  lemma DefaultInitOrder(site: Site)
    requires "register_block_template" in site.functions
    ensures var effects := InitEffects(Dispatch(site), [StoreTemplateKind, StoreListTemplateKind]);
            |effects| == 4
            && effects[0].RegisterBlockTemplate? && effects[0].name == TemplateId(None, StoreTemplate.Slug)
            && effects[1] == HookOf(StoreTemplateKind)
            && effects[2].RegisterBlockTemplate? && effects[2].name == TemplateId(None, StoreListTemplate.Slug)
            && effects[3] == HookOf(StoreListTemplateKind)
  {
    InitPair(Dispatch(site), StoreTemplateKind, StoreListTemplateKind);
    InitShape(site, StoreTemplateKind);
    InitShape(site, StoreListTemplateKind);
  }

  /** Two templates: the first's `init()` effects, then the second's. */
  lemma InitPair(init: TemplateKind -> seq<Effect>, a: TemplateKind, b: TemplateKind)
    ensures InitEffects(init, [a, b]) == init(a) + init(b)
  {
    var ts := [a, b];
    assert ts[..1] == [a] && ts[..1][..0] == [];
    assert InitEffects(init, [a]) == InitEffects(init, []) + init(a);
    assert [] + init(a) == init(a);
  }

}

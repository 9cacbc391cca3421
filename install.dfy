/**
 * The dependency gate (`Install`): WooCommerce and Dokan Lite must be
 * installed at or above their minimum versions, checked at activation from
 * the plugin files and at runtime from the plugins' version constants.
 */
module Install {
  import opened Wp

  /**
   * What the gate can see: the defined PHP constants, the header data of the
   * plugin files that exist (`get_plugin_data`), the plugin directory and the
   * two minimum versions.
   */
  datatype InstallEnv = InstallEnv(
    constants: map<string, string>,
    pluginHeaders: map<string, map<string, string>>,
    pluginDir: string,
    minWooCommerce: string,
    minDokan: string)

  /** One required plugin: its display name, its version constant, its main file and its minimum. */
  datatype Dependency = Dependency(name: string, constant: string, file: string, minimum: string)

  function WooCommerce(env: InstallEnv): Dependency {
    Dependency("WooCommerce", "WC_VERSION", env.pluginDir + "/woocommerce/woocommerce.php", env.minWooCommerce)
  }

  function DokanLite(env: InstallEnv): Dependency {
    Dependency("Dokan Lite", "DOKAN_PLUGIN_VERSION", env.pluginDir + "/dokan-lite/dokan.php", env.minDokan)
  }

  // ---------------------------------------------------------------------
  // version_compare on dotted numeric versions
  // ---------------------------------------------------------------------

  /** The numeric components of a dotted version string. */
  function VersionParts(v: string): (parts: seq<int>)
    ensures |parts| == |Explode('.', v)|
  {
    var pieces := Explode('.', v);
    seq(|pieces|, i requires 0 <= i < |pieces| => Intval(pieces[i]))
  }

  /** Lexicographic order on components; a proper prefix comes first. */
  predicate LexLess(x: seq<int>, y: seq<int>)
    decreases |x|
  {
    if |y| == 0 then false
    else if |x| == 0 then true
    else if x[0] != y[0] then x[0] < y[0]
    else LexLess(x[1..], y[1..])
  }

  /** `version_compare(a, b, '<')`. */
  predicate VersionLess(a: string, b: string) {
    LexLess(VersionParts(a), VersionParts(b))
  }

  lemma {:induction false} LexLessIrreflexive(x: seq<int>)
    ensures !LexLess(x, x)
    decreases |x|
  {
    if |x| > 0 {
      LexLessIrreflexive(x[1..]);
    }
  }

  lemma {:induction false} LexLessTransitive(x: seq<int>, y: seq<int>, z: seq<int>)
    requires LexLess(x, y) && LexLess(y, z)
    ensures LexLess(x, z)
    decreases |x|
  {
    if |x| > 0 && x[0] == y[0] && y[0] == z[0] {
      LexLessTransitive(x[1..], y[1..], z[1..]);
    }
  }

  /** Of two different component lists exactly one is less than the other. */
  lemma {:induction false} LexLessTotal(x: seq<int>, y: seq<int>)
    requires x != y
    ensures LexLess(x, y) != LexLess(y, x)
    decreases |x|
  {
    if |x| > 0 && |y| > 0 && x[0] == y[0] {
      assert x == [x[0]] + x[1..] && y == [y[0]] + y[1..];
      LexLessTotal(x[1..], y[1..]);
    }
  }

  /** `version_compare(·, ·, '<')` is a strict order on version strings. */
  lemma VersionLessIsStrictOrder(a: string, b: string, c: string)
    ensures !VersionLess(a, a)
    ensures VersionLess(a, b) && VersionLess(b, c) ==> VersionLess(a, c)
    ensures VersionLess(a, b) ==> !VersionLess(b, a)
  {
    LexLessIrreflexive(VersionParts(a));
    if VersionLess(a, b) && VersionLess(b, c) {
      LexLessTransitive(VersionParts(a), VersionParts(b), VersionParts(c));
    }
    if VersionLess(a, b) && VersionLess(b, a) {
      LexLessTransitive(VersionParts(a), VersionParts(b), VersionParts(a));
      LexLessIrreflexive(VersionParts(a));
    }
  }

  // ---------------------------------------------------------------------
  // The checks
  // ---------------------------------------------------------------------

  /** `get_plugin_version`: the `Version` header of an existing plugin file. */
  function GetPluginVersion(env: InstallEnv, pluginFile: string): (v: Option<string>)
    ensures pluginFile !in env.pluginHeaders ==> v.None?
    ensures v.Some? <==> pluginFile in env.pluginHeaders && "Version" in env.pluginHeaders[pluginFile]
    ensures v.Some? ==> v.value == env.pluginHeaders[pluginFile]["Version"]
  {
    if pluginFile !in env.pluginHeaders then None
    else if "Version" in env.pluginHeaders[pluginFile] then Some(env.pluginHeaders[pluginFile]["Version"])
    else None
  }

  /** The version the dependency gate compares: the constant when asked and defined, else the plugin file's header. */
  function InstalledVersion(env: InstallEnv, useConstants: bool, dep: Dependency): (v: Option<string>)
    ensures useConstants && dep.constant in env.constants ==> v == Some(env.constants[dep.constant])
    ensures !(useConstants && dep.constant in env.constants) ==> v == GetPluginVersion(env, dep.file)
  {
    if useConstants && dep.constant in env.constants then Some(env.constants[dep.constant])
    else GetPluginVersion(env, dep.file)
  }

  function NotInstalledMessage(dep: Dependency): string {
    dep.name + " " + dep.minimum + " or higher is not installed."
  }

  function TooOldMessage(dep: Dependency, installed: string): string {
    dep.name + " " + installed + " is installed, but version " + dep.minimum + " or higher is required."
  }

  /** The message one dependency contributes, if any. */
  function MessageFor(dep: Dependency, version: Option<string>): (msg: Option<string>)
    ensures EmptyOpt(version) ==> msg == Some(NotInstalledMessage(dep))
    ensures !EmptyOpt(version) && VersionLess(version.value, dep.minimum) ==>
              msg == Some(TooOldMessage(dep, version.value))
    ensures msg.None? <==> !EmptyOpt(version) && !VersionLess(version.value, dep.minimum)
  {
    if EmptyOpt(version) then Some(NotInstalledMessage(dep))
    else if VersionLess(version.value, dep.minimum) then Some(TooOldMessage(dep, version.value))
    else None
  }

  function OptionList(o: Option<string>): (l: seq<string>)
    ensures o.None? ==> l == []
    ensures o.Some? ==> l == [o.value]
  {
    if o.Some? then [o.value] else []
  }

  /** The list `check_dependencies` returns. */
  function DependencyMessages(env: InstallEnv, useConstants: bool): seq<string> {
    OptionList(MessageFor(WooCommerce(env), InstalledVersion(env, useConstants, WooCommerce(env))))
    + OptionList(MessageFor(DokanLite(env), InstalledVersion(env, useConstants, DokanLite(env))))
  }

  /**
   * At most one message per dependency, WooCommerce's first; the list is
   * empty exactly when both are installed at or above their minimum.
   */
  lemma DependencyMessagesShape(env: InstallEnv, useConstants: bool)
    ensures var msgs := DependencyMessages(env, useConstants);
            var wc := MessageFor(WooCommerce(env), InstalledVersion(env, useConstants, WooCommerce(env)));
            var dokan := MessageFor(DokanLite(env), InstalledVersion(env, useConstants, DokanLite(env)));
            |msgs| <= 2
            && (wc.Some? ==> msgs[0] == wc.value)
            && (dokan.Some? ==> msgs[|msgs| - 1] == dokan.value)
            && (|msgs| == 0 <==> wc.None? && dokan.None?)
  {
  }

  /** `check_dependencies`: each failed check appends its message. */
  method CheckDependencies(env: InstallEnv, useConstants: bool) returns (missing: seq<string>)
    ensures missing == DependencyMessages(env, useConstants)
  {
    missing := [];
    var wcVersion := ReadVersion(env, useConstants, WooCommerce(env));
    missing := AppendMessage(missing, WooCommerce(env), wcVersion);
    var dokanVersion := ReadVersion(env, useConstants, DokanLite(env));
    missing := AppendMessage(missing, DokanLite(env), dokanVersion);
  }

  /** The version lookup of one check: the constant when asked and defined, else the plugin header. */
  method ReadVersion(env: InstallEnv, useConstants: bool, dep: Dependency) returns (version: Option<string>)
    ensures version == InstalledVersion(env, useConstants, dep)
  {
    if useConstants && dep.constant in env.constants {
      version := Some(env.constants[dep.constant]);
    } else {
      version := GetPluginVersion(env, dep.file);
    }
  }

  /** The two branches of one check: a missing plugin or one below the minimum appends its message. */
  method AppendMessage(missing: seq<string>, dep: Dependency, version: Option<string>) returns (out: seq<string>)
    ensures out == missing + OptionList(MessageFor(dep, version))
  {
    out := missing;
    if EmptyOpt(version) {
      out := out + [NotInstalledMessage(dep)];
    } else if VersionLess(version.value, dep.minimum) {
      out := out + [TooOldMessage(dep, version.value)];
    }
  }

  /** The list items of the activation error page. */
  function ItemsHtml(escHtml: string -> string, missing: seq<string>): string {
    if |missing| == 0 then ""
    else ItemsHtml(escHtml, missing[..|missing| - 1]) + "<li>" + escHtml(missing[|missing| - 1]) + "</li>"
  }

  /** Every missing dependency has its own list item in the page. */
  lemma {:induction false} ItemsHtmlListsEveryMessage(escHtml: string -> string, missing: seq<string>, m: string)
    requires m in missing
    ensures Contains(ItemsHtml(escHtml, missing), "<li>" + escHtml(m) + "</li>")
    decreases |missing|
  {
    var front := missing[..|missing| - 1];
    var item := "<li>" + escHtml(missing[|missing| - 1]) + "</li>";
    assert ItemsHtml(escHtml, missing) == ItemsHtml(escHtml, front) + item;
    if m == missing[|missing| - 1] {
      assert StartsWith(item, item);
      ContainsAppendRight(ItemsHtml(escHtml, front), item, item);
    } else {
      assert m in front;
      ItemsHtmlListsEveryMessage(escHtml, front, m);
      ContainsAppendLeft(ItemsHtml(escHtml, front), item, "<li>" + escHtml(m) + "</li>");
    }
  }

  const PageHeader: string :=
    "<h3>Another Blocks for Dokan - Activation Failed</h3><p>The following requirements are not met:</p>"
    + "<ul style=\"list-style: disc; padding-left: 20px;\">"
  const PageFooter: string := "</ul><p>Please install and activate the required plugins, then try again.</p>"

  /** The outcome of activation. */
  datatype Activation =
    | Activated
    | Deactivated(basename: string, page: string, title: string)

  /** `activation_check`: the plugin files decide; any failure deactivates and dies with the list. */
  method ActivationCheck(env: InstallEnv, basename: string, escHtml: string -> string) returns (outcome: Activation)
    ensures outcome.Activated? <==> |DependencyMessages(env, false)| == 0
    ensures outcome.Deactivated? ==>
              outcome.basename == basename
              && outcome.page == PageHeader + ItemsHtml(escHtml, DependencyMessages(env, false)) + PageFooter
              && outcome.title == "Plugin Activation Failed"
  {
    var missing := CheckDependencies(env, false);
    if |missing| == 0 {
      return Activated;
    }
    var items := "";
    var i := 0;
    while i < |missing|
      invariant 0 <= i <= |missing|
      invariant items == ItemsHtml(escHtml, missing[..i])
    {
      assert missing[..i + 1][..i] == missing[..i];
      items := items + "<li>" + escHtml(missing[i]) + "</li>";
      i := i + 1;
    }
    assert missing[..i] == missing;
    outcome := Deactivated(basename, PageHeader + items + PageFooter, "Plugin Activation Failed");
  }

  /** Every unmet requirement is named in the activation error page. */
  lemma ActivationPageNamesEveryDependency(env: InstallEnv, escHtml: string -> string, m: string)
    requires m in DependencyMessages(env, false)
    ensures Contains(PageHeader + ItemsHtml(escHtml, DependencyMessages(env, false)) + PageFooter,
                     "<li>" + escHtml(m) + "</li>")
  {
    var items := ItemsHtml(escHtml, DependencyMessages(env, false));
    ItemsHtmlListsEveryMessage(escHtml, DependencyMessages(env, false), m);
    ContainsAppendRight(PageHeader, items, "<li>" + escHtml(m) + "</li>");
    ContainsAppendLeft(PageHeader + items, PageFooter, "<li>" + escHtml(m) + "</li>");
  }

  /** The outcome of `runtime_check`: whether the plugin runs, and the admin notice's list otherwise. */
  datatype RuntimeOutcome = RuntimeOutcome(ok: bool, notice: Option<seq<string>>)

  /** `runtime_check`: the version constants decide. */
  function RuntimeCheck(env: InstallEnv): (out: RuntimeOutcome)
    ensures out.ok <==> |DependencyMessages(env, true)| == 0
    ensures out.ok <==> out.notice.None?
    ensures out.notice.Some? ==> out.notice.value == DependencyMessages(env, true)
  {
    var missing := DependencyMessages(env, true);
    if |missing| > 0 then RuntimeOutcome(false, Some(missing)) else RuntimeOutcome(true, None)
  }

  /** With both constants defined, the runtime check ignores the plugin files. */
  lemma RuntimeCheckUsesConstants(env: InstallEnv, headers: map<string, map<string, string>>)
    requires "WC_VERSION" in env.constants && "DOKAN_PLUGIN_VERSION" in env.constants
    ensures RuntimeCheck(env.(pluginHeaders := headers)) == RuntimeCheck(env)
  {
  }
}

/**
 * The inline-style lists the blocks assemble: each declaration is added
 * only when its value is non-empty, in a fixed order, and the list is
 * joined by "; " into a `style` attribute that appears only when the list
 * has an entry. Also the layout class the store card and the product
 * vendor info inject when WordPress has not added one.
 */
module InlineStyles {
  import opened Wp

  /** A CSS property and the attribute value that may supply it. */
  datatype Decl = Decl(property: string, value: Option<string>)

  /** A declaration is emitted when its value is non-empty. */
  predicate IsSet(d: Decl) {
    !EmptyOpt(d.value)
  }

  /** `'<property>: ' . <value>`. */
  function Rule(d: Decl): string
    requires IsSet(d)
  {
    d.property + ": " + d.value.value
  }

  /** The rules of the set declarations, in declaration order. */
  function Declarations(ds: seq<Decl>): (rules: seq<string>)
    ensures |rules| <= |ds|
  {
    if |ds| == 0 then []
    else
      var d := ds[|ds| - 1];
      Declarations(ds[..|ds| - 1]) + (if IsSet(d) then [Rule(d)] else [])
  }

  /** Every set declaration contributes its rule, and every rule comes from a set declaration. */
  lemma {:induction false} DeclarationsMembers(ds: seq<Decl>)
    ensures forall i :: 0 <= i < |ds| && IsSet(ds[i]) ==> Rule(ds[i]) in Declarations(ds)
    ensures forall s :: s in Declarations(ds) ==> exists i :: 0 <= i < |ds| && IsSet(ds[i]) && s == Rule(ds[i])
    decreases |ds|
  {
    if |ds| > 0 {
      var front := ds[..|ds| - 1];
      DeclarationsMembers(front);
      assert forall i :: 0 <= i < |front| ==> front[i] == ds[i];
    }
  }

  /** No rule at all exactly when no declaration is set. */
  lemma {:induction false} DeclarationsEmpty(ds: seq<Decl>)
    ensures Declarations(ds) == [] <==> forall i :: 0 <= i < |ds| ==> !IsSet(ds[i])
    decreases |ds|
  {
    if |ds| > 0 {
      var front := ds[..|ds| - 1];
      DeclarationsEmpty(front);
      assert forall i :: 0 <= i < |front| ==> front[i] == ds[i];
    }
  }

  /** The rules of a concatenation are the rules of each part, in order. */
  lemma {:induction false} DeclarationsAppend(a: seq<Decl>, b: seq<Decl>)
    ensures Declarations(a + b) == Declarations(a) + Declarations(b)
    decreases |b|
  {
    if |b| == 0 {
      assert a + b == a;
    } else {
      assert (a + b)[..|a + b| - 1] == a + b[..|b| - 1];
      DeclarationsAppend(a, b[..|b| - 1]);
    }
  }

  /** ` style="<rules joined by '; '>"`, or nothing when there is no rule. */
  function StyleAttribute(rules: seq<string>): (attr: string)
    ensures attr == "" <==> rules == []
    ensures rules != [] ==> attr == " style=\"" + Join("; ", rules) + "\""
  {
    if rules == [] then "" else " style=\"" + Join("; ", rules) + "\""
  }

  /** A `margin` or `padding` attribute: each side may be missing. */
  datatype Box = Box(top: Option<string>, right: Option<string>, bottom: Option<string>, left: Option<string>)

  /** PHP `empty()` of the side array: it has no keys at all. */
  predicate BoxEmpty(b: Box) {
    b.top.None? && b.right.None? && b.bottom.None? && b.left.None?
  }

  /** `<prefix>-top`, `-right`, `-bottom`, `-left`, in that order. */
  function BoxDecls(prefix: string, b: Box): (ds: seq<Decl>)
    ensures |ds| == 4
  {
    [Decl(prefix + "-top", b.top), Decl(prefix + "-right", b.right),
     Decl(prefix + "-bottom", b.bottom), Decl(prefix + "-left", b.left)]
  }

  /** The guard on the whole side array is redundant: a box without keys yields no rule. */
  lemma EmptyBoxHasNoRules(prefix: string, b: Box)
    requires BoxEmpty(b)
    ensures Declarations(BoxDecls(prefix, b)) == []
  {
    var ds := BoxDecls(prefix, b);
    DeclarationsEmpty(ds);
  }

  /** The rule a single declaration contributes: one when it is set, none otherwise. */
  function RuleIfSet(d: Decl): seq<string> {
    if IsSet(d) then [Rule(d)] else []
  }

  lemma DeclarationsSingle(d: Decl)
    ensures Declarations([d]) == RuleIfSet(d)
  {
    assert [d][..0] == [];
  }

  /** The rules of a list are the first declaration's rule followed by the rest's. */
  lemma DeclarationsCons(d: Decl, ds: seq<Decl>)
    ensures Declarations([d] + ds) == RuleIfSet(d) + Declarations(ds)
  {
    DeclarationsAppend([d], ds);
    DeclarationsSingle(d);
  }

  /** One more declaration adds at most its own rule at the end. */
  lemma DeclarationsSnoc(ds: seq<Decl>, k: nat)
    requires k < |ds|
    ensures Declarations(ds[..k + 1]) == Declarations(ds[..k]) + RuleIfSet(ds[k])
  {
    assert ds[..k + 1][..k] == ds[..k];
  }

  /** The rules of a side array, side by side. */
  lemma BoxRules(prefix: string, b: Box)
    ensures var ds := BoxDecls(prefix, b);
            Declarations(ds) == RuleIfSet(ds[0]) + RuleIfSet(ds[1]) + RuleIfSet(ds[2]) + RuleIfSet(ds[3])
  {
    var ds := BoxDecls(prefix, b);
    assert ds == [ds[0]] + [ds[1]] + [ds[2]] + [ds[3]];
    DeclarationsAppend([ds[0]] + [ds[1]] + [ds[2]], [ds[3]]);
    DeclarationsAppend([ds[0]] + [ds[1]], [ds[2]]);
    DeclarationsAppend([ds[0]], [ds[1]]);
    DeclarationsSingle(ds[0]);
    DeclarationsSingle(ds[1]);
    DeclarationsSingle(ds[2]);
    DeclarationsSingle(ds[3]);
  }

  /**
   * The four `if ( ! empty( $box['<side>'] ) )` appends for one side array,
   * behind the `! empty( $box )` guard.
   */
  method AppendBox(styles: seq<string>, prefix: string, b: Box) returns (out: seq<string>)
    ensures out == styles + Declarations(BoxDecls(prefix, b))
  {
    out := styles;
    if BoxEmpty(b) {
      EmptyBoxHasNoRules(prefix, b);
      return;
    }
    var ds := BoxDecls(prefix, b);
    BoxRules(prefix, b);
    out := AppendIfSet(out, ds[0]);
    out := AppendIfSet(out, ds[1]);
    out := AppendIfSet(out, ds[2]);
    out := AppendIfSet(out, ds[3]);
  }

  /** One `if ( ! empty( <value> ) ) $styles[] = '<property>: ' . <value>;`. */
  method AppendIfSet(styles: seq<string>, d: Decl) returns (out: seq<string>)
    ensures out == styles + RuleIfSet(d)
  {
    out := styles;
    if IsSet(d) {
      out := out + [Rule(d)];
    }
  }

  /** The spacing declarations of the store card and the product vendor info: padding, then margin. */
  function SpacingDecls(padding: Box, margin: Box): (ds: seq<Decl>)
    ensures |ds| == 8
  {
    BoxDecls("padding", padding) + BoxDecls("margin", margin)
  }

  /** The spacing rules are the padding rules followed by the margin rules. */
  lemma SpacingRules(padding: Box, margin: Box)
    ensures Declarations(SpacingDecls(padding, margin))
            == Declarations(BoxDecls("padding", padding)) + Declarations(BoxDecls("margin", margin))
  {
    DeclarationsAppend(BoxDecls("padding", padding), BoxDecls("margin", margin));
  }

  // ---------------------------------------------------------------------
  // Layout classes
  // ---------------------------------------------------------------------

  /** The block's `layout` attribute. */
  datatype Layout = Layout(layoutType: Option<string>, orientation: Option<string>)

  /** `is-layout-<type>`, plus ` is-vertical` for a vertical flex layout. */
  function LayoutClass(l: Layout): (c: string)
    requires !EmptyOpt(l.layoutType)
    ensures StartsWith(c, "is-layout-" + l.layoutType.value)
    ensures |c| > |"is-layout-" + l.layoutType.value| <==>
              l.layoutType.value == "flex" && !EmptyOpt(l.orientation) && l.orientation.value == "vertical"
  {
    "is-layout-" + l.layoutType.value
      + (if l.layoutType.value == "flex" && !EmptyOpt(l.orientation) && l.orientation.value == "vertical"
         then " is-vertical" else "")
  }

  /**
   * The wrapper attributes after the layout fix: when the layout has a type
   * and the wrapper has no `is-layout-` class yet, the layout class is put
   * at the front of every `class="` attribute.
   */
  function InjectLayout(wrapper: string, l: Layout): (w: string)
    ensures EmptyOpt(l.layoutType) || Contains(wrapper, "is-layout-") ==> w == wrapper
    ensures !EmptyOpt(l.layoutType) && !Contains(wrapper, "is-layout-") ==>
              w == ReplaceAll(wrapper, "class=\"", "class=\"" + LayoutClass(l) + " ")
  {
    if !EmptyOpt(l.layoutType) && !Contains(wrapper, "is-layout-") then
      ReplaceAll(wrapper, "class=\"", "class=\"" + LayoutClass(l) + " ")
    else wrapper
  }

  /** A wrapper with a `class` attribute always ends up with a layout class once the layout has a type. */
  lemma InjectedWrapperHasLayoutClass(wrapper: string, l: Layout)
    requires !EmptyOpt(l.layoutType) && Contains(wrapper, "class=\"")
    ensures Contains(InjectLayout(wrapper, l), "is-layout-")
  {
    if !Contains(wrapper, "is-layout-") {
      var rest := l.layoutType.value
        + (if l.layoutType.value == "flex" && !EmptyOpt(l.orientation) && l.orientation.value == "vertical"
           then " is-vertical" else "") + " ";
      var to := "class=\"" + LayoutClass(l) + " ";
      assert to == "class=\"" + "is-layout-" + rest;
      ReplaceAllIntroduces(wrapper, "class=\"", to);
      ContainsMiddle(InjectLayout(wrapper, l), "class=\"", "is-layout-", rest);
    }
  }

  /** The fix is applied at most once: applying it to its own output changes nothing. */
  lemma InjectLayoutIdempotent(wrapper: string, l: Layout)
    ensures InjectLayout(InjectLayout(wrapper, l), l) == InjectLayout(wrapper, l)
  {
    if !EmptyOpt(l.layoutType) && !Contains(wrapper, "is-layout-") && Contains(wrapper, "class=\"") {
      InjectedWrapperHasLayoutClass(wrapper, l);
    }
  }
}

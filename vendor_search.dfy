/**
 * The vendor-search block: a store count, a "Filter" toggle button, a
 * sort form that keeps the other query parameters, and the filter form
 * whose visibility follows the filters already in the query string.
 */
module VendorSearch {
  import opened Wp
  import opened Dokan

  /** The query-string parameter that carries the sort order. */
  const SortParam := "stores_orderby"

  /** The block's attributes; a present attribute wins over its default even when empty. */
  datatype SearchAttributes = SearchAttributes(
    enableSearch: Option<bool>,
    searchPlaceholder: Option<string>,
    enableSortBy: Option<bool>,
    sortByLabel: Option<string>,
    storeCountLabel: Option<string>,
    enableLocationFilter: Option<bool>,
    enableRatingFilter: Option<bool>,
    enableCategoryFilter: Option<bool>,
    buttonText: Option<string>,
    buttonSize: Option<string>,
    buttonBackgroundColor: Option<string>,
    buttonTextColor: Option<string>)

  const DefaultCountLabel := "Total store showing: %s"

  // ---------------------------------------------------------------------
  // Buttons
  // ---------------------------------------------------------------------

  /** The classes every button of the block carries, plus a size class for sizes other than medium. */
  function ButtonClasses(size: string): (classes: seq<string>)
    ensures 2 <= |classes| <= 3
    ensures classes[0] == "theabd--btn" && classes[1] == "theabd--btn-theme"
    ensures ("dokan-btn-" + size in classes) <==> !Empty(size) && size != "medium"
  {
    var base := ["theabd--btn", "theabd--btn-theme"];
    assert ("dokan-btn-" + size)[0] == 'd';
    if !Empty(size) && size != "medium" then base + ["dokan-btn-" + size] else base
  }

  const SmallStyle := "padding: 0.375rem 1rem; font-size: 0.875rem;"
  const LargeStyle := "padding: 0.75rem 2rem; font-size: 1.125rem;"
  const MediumStyle := "padding: 0.5rem 1.5rem; font-size: 1rem;"

  /** Padding and font size by button size; every size but small and large gets medium's. */
  function SizeStyle(size: string): string {
    if size == "small" then SmallStyle
    else if size == "large" then LargeStyle
    else MediumStyle
  }

  /** A colour declaration, present only for a PHP-non-empty colour. */
  function ColourDecl(prefix: string, colour: string): string {
    if !Empty(colour) then prefix + colour + ";" else ""
  }

  /** The inline style shared by the block's buttons: the size's declarations, then each colour's. */
  function ButtonStyle(size: string, background: string, text: string): string {
    SizeStyle(size) + ColourDecl(" background-color: ", background) + ColourDecl(" color: ", text)
  }

  /** A declaration list: it opens with a property name and closes with ';'. */
  predicate IsDeclarationList(s: string) {
    |s| > 0 && s[0] == 'p' && s[|s| - 1] == ';'
  }

  lemma SizeStyleIsDeclarationList(size: string)
    ensures IsDeclarationList(SizeStyle(size))
  {
  }

  /** A declaration list followed by optional declarations stays a declaration list. */
  lemma DeclarationListAppend(head: string, bg: string, fg: string)
    requires IsDeclarationList(head)
    requires bg == "" || bg[|bg| - 1] == ';'
    requires fg == "" || fg[|fg| - 1] == ';'
    ensures IsDeclarationList(head + bg + fg)
  {
    var raw := head + bg + fg;
    assert raw[0] == head[0];
    if fg != "" {
      assert raw[|raw| - 1] == fg[|fg| - 1];
    } else if bg != "" {
      assert raw[|raw| - 1] == bg[|bg| - 1];
    } else {
      assert raw[|raw| - 1] == head[|head| - 1];
    }
  }

  /** `trim` leaves a declaration list alone. */
  lemma TrimOfDeclarationList(s: string)
    requires IsDeclarationList(s)
    ensures Trim(s) == s
  {
    assert !IsTrimChar(s[0]) && !IsTrimChar(s[|s| - 1]);
    assert TrimLeft(s) == s;
  }

  /** The built style is a declaration list, so the block's `trim` leaves it alone. */
  lemma ButtonStyleIsDeclarationList(size: string, background: string, text: string)
    ensures IsDeclarationList(ButtonStyle(size, background, text))
  {
    SizeStyleIsDeclarationList(size);
    DeclarationListAppend(SizeStyle(size), ColourDecl(" background-color: ", background), ColourDecl(" color: ", text));
  }

  lemma PrefixOfAppend(a: string, b: string)
    ensures StartsWith(a + b, a)
  {
    assert (a + b)[..|a|] == a;
  }

  /** The style opens with the size's padding and font (medium's for any other size); without colours it is just that. */
  lemma ButtonStyleShape(size: string, background: string, text: string)
    ensures StartsWith(ButtonStyle(size, background, text), SizeStyle(size))
    ensures size != "small" && size != "large" ==> StartsWith(ButtonStyle(size, background, text), MediumStyle)
    ensures Empty(background) && Empty(text) ==> ButtonStyle(size, background, text) == SizeStyle(size)
  {
    PrefixOfAppend(SizeStyle(size), ColourDecl(" background-color: ", background) + ColourDecl(" color: ", text));
  }

  /** What occurs between two strings occurs in their concatenation. */
  lemma ContainsInside(a: string, b: string, c: string)
    ensures Contains(a + b + c, b)
  {
    assert StartsWith(b, b);
    ContainsAppendRight(a, b, b);
    ContainsAppendLeft(a + b, c, b);
  }

  /** A PHP-non-empty colour reaches the style as its own declaration. */
  lemma ColoursAppear(size: string, background: string, text: string)
    ensures !Empty(background) ==> Contains(ButtonStyle(size, background, text), " background-color: " + background + ";")
    ensures !Empty(text) ==> Contains(ButtonStyle(size, background, text), " color: " + text + ";")
  {
    var head := SizeStyle(size);
    var bg := ColourDecl(" background-color: ", background);
    var fg := ColourDecl(" color: ", text);
    ContainsInside(head, bg, fg);
    ContainsInside(head + bg, fg, "");
    assert head + bg + fg + "" == head + bg + fg;
  }

  /** The button's class attribute: the base classes, with the size class appended for a non-medium size. */
  method BuildButtonClasses(size: string) returns (classString: string)
    ensures classString == Join(" ", ButtonClasses(size))
  {
    var classes := ["theabd--btn", "theabd--btn-theme"];
    if !Empty(size) && size != "medium" {
      classes := classes + ["dokan-btn-" + size];
    }
    classString := Join(" ", classes);
  }

  /** The button's style, appended to declaration by declaration and then trimmed. */
  method BuildButtonStyle(size: string, background: string, text: string) returns (styleString: string)
    ensures styleString == ButtonStyle(size, background, text)
  {
    var style := SizeStyle(size);
    if !Empty(background) {
      style := style + (" background-color: " + background + ";");
    }
    if !Empty(text) {
      style := style + (" color: " + text + ";");
    }
    assert style == ButtonStyle(size, background, text);
    ButtonStyleIsDeclarationList(size, background, text);
    styleString := TrimStyle(style);
  }

  /** `! empty($style) ? trim($style) : ''` on a declaration list: the list itself. */
  method TrimStyle(style: string) returns (styleString: string)
    requires IsDeclarationList(style)
    ensures styleString == style
  {
    if Empty(style) {
      styleString := "";
    } else {
      TrimOfDeclarationList(style);
      styleString := Trim(style);
    }
  }

  /** A button of the block. */
  datatype Button = Button(classes: string, style: string, text: string)

  // ---------------------------------------------------------------------
  // Store count
  // ---------------------------------------------------------------------

  /**
   * The count line: the formatted count replaces `%s` in the label, or
   * follows the label after a space; a negative count hides the line.
   * `formatCount` stands for `number_format_i18n`.
   */
  function CountText(countLabel: string, count: int, formatCount: int -> string): (text: Option<string>)
    ensures text.Some? <==> count >= 0
    ensures text.Some? && !Contains(countLabel, "%s") ==> text.value == countLabel + " " + formatCount(count)
  {
    if count < 0 then None
    else if Contains(countLabel, "%s") then Some(ReplaceAll(countLabel, "%s", formatCount(count)))
    else Some(countLabel + " " + formatCount(count))
  }

  /** Replacing the one trailing `%s` of a label that has no other `%` puts the count at the end. */
  lemma {:induction false} ReplaceTrailingPlaceholder(p: string, x: string)
    requires '%' !in p
    ensures ReplaceAll(p + "%s", "%s", x) == p + x
    decreases |p|
  {
    var s := p + "%s";
    if |p| == 0 {
      assert s == "%s" && StartsWith(s, "%s");
      assert s[2..] == "";
    } else {
      assert s[0] == p[0] != '%';
      assert !StartsWith(s, "%s");
      assert s[1..] == p[1..] + "%s";
      ReplaceTrailingPlaceholder(p[1..], x);
      assert [p[0]] + p[1..] == p;
    }
  }

  /** The count always shows, with the default label it ends the sentence, and a label without `%s` is kept whole. */
  lemma CountIsShown(countLabel: string, count: int, formatCount: int -> string)
    requires count >= 0
    ensures CountText(DefaultCountLabel, count, formatCount) == Some("Total store showing: " + formatCount(count))
    ensures Contains(countLabel, "%s") ==> Contains(CountText(countLabel, count, formatCount).value, formatCount(count))
    ensures !Contains(countLabel, "%s") ==> StartsWith(CountText(countLabel, count, formatCount).value, countLabel)
  {
    DefaultCountText(formatCount(count));
    if Contains(countLabel, "%s") {
      ReplaceAllIntroduces(countLabel, "%s", formatCount(count));
    } else {
      var t := countLabel + " " + formatCount(count);
      assert t[..|countLabel|] == countLabel;
    }
  }

  /** The default label holds `%s` once, at its end, so the count closes the sentence. */
  lemma DefaultCountText(x: string)
    ensures Contains(DefaultCountLabel, "%s")
    ensures ReplaceAll(DefaultCountLabel, "%s", x) == "Total store showing: " + x
  {
    var p := "Total store showing: ";
    assert DefaultCountLabel == p + "%s";
    assert DefaultCountLabel[|p|..] == "%s";
    ContainsOfSuffix(DefaultCountLabel, |p|, "%s");
    ReplaceTrailingPlaceholder(p, x);
  }

  // ---------------------------------------------------------------------
  // Sort form
  // ---------------------------------------------------------------------

  /** A `<input type="hidden">` that carries one query parameter. */
  datatype HiddenInput = HiddenInput(name: string, value: string)

  /**
   * The hidden inputs the sort form re-emits: every query parameter, in
   * order, except the sort order its own select supplies.
   */
  function HiddenInputs(keys: seq<string>, entries: map<string, string>): (inputs: seq<HiddenInput>)
    requires forall k :: k in keys ==> k in entries
    ensures forall h :: h in inputs ==> h.name in keys && h.name != SortParam && h.value == entries[h.name]
    ensures |inputs| <= |keys|
  {
    if |keys| == 0 then []
    else
      var last := keys[|keys| - 1];
      HiddenInputs(keys[..|keys| - 1], entries)
      + (if last != SortParam then [HiddenInput(last, entries[last])] else [])
  }

  /** The `foreach ($_GET ...)` of the sort form. */
  method PreserveQuery(get: Table<string>) returns (inputs: seq<HiddenInput>)
    requires get.Valid()
    ensures inputs == HiddenInputs(get.keys, get.entries)
  {
    inputs := [];
    var i := 0;
    while i < |get.keys|
      invariant 0 <= i <= |get.keys|
      invariant inputs == HiddenInputs(get.keys[..i], get.entries)
    {
      var key := get.keys[i];
      assert get.keys[..i + 1][..i] == get.keys[..i];
      if key != SortParam {
        inputs := inputs + [HiddenInput(key, get.entries[key])];
      }
      i := i + 1;
    }
    assert get.keys[..i] == get.keys;
  }

  /** Every query parameter other than the sort order is carried over with its value. */
  lemma {:induction false} HiddenInputsCover(keys: seq<string>, entries: map<string, string>, k: string)
    requires forall x :: x in keys ==> x in entries
    requires k in keys && k != SortParam
    ensures HiddenInput(k, entries[k]) in HiddenInputs(keys, entries)
    decreases |keys|
  {
    var init := keys[..|keys| - 1];
    if keys[|keys| - 1] != k {
      assert k in init by {
        var j :| 0 <= j < |keys| && keys[j] == k;
        assert init[j] == k;
      }
      HiddenInputsCover(init, entries, k);
    }
  }

  /** With distinct parameter names, exactly one input per parameter other than the sort order. */
  lemma {:induction false} HiddenInputsCount(keys: seq<string>, entries: map<string, string>)
    requires forall x :: x in keys ==> x in entries
    requires forall i, j :: 0 <= i < j < |keys| ==> keys[i] != keys[j]
    ensures |HiddenInputs(keys, entries)| == |keys| - (if SortParam in keys then 1 else 0)
    decreases |keys|
  {
    if |keys| > 0 {
      var init := keys[..|keys| - 1];
      var last := keys[|keys| - 1];
      HiddenInputsCount(init, entries);
      assert keys == init + [last];
      if last == SortParam {
        assert SortParam !in init;
      }
    }
  }

  /** A sort option: its key and its caption. */
  datatype SortOption = SortOption(key: string, caption: string)

  /** The options before `dokan_store_lists_sort_by_options` filters them. */
  function DefaultSortOptions(): (options: seq<SortOption>)
    ensures |options| == 4
  {
    [SortOption("name", "Name"), SortOption("most_recent", "Most Recent"),
     SortOption("total_orders", "Most Popular"), SortOption("random", "Random")]
  }

  /** An `<option>` of the sort select. */
  datatype SortChoice = SortChoice(key: string, caption: string, selected: bool)

  /** The select's options, each marked as `selected()` marks it: its key equals the current sort order. */
  function SortChoices(options: seq<SortOption>, sortBy: string): (choices: seq<SortChoice>)
    ensures |choices| == |options|
    ensures forall i :: 0 <= i < |choices| ==>
              choices[i] == SortChoice(options[i].key, options[i].caption, options[i].key == sortBy)
  {
    seq(|options|, i requires 0 <= i < |options| => SortChoice(options[i].key, options[i].caption, options[i].key == sortBy))
  }

  /** With distinct keys at most one option is selected. */
  lemma AtMostOneSelected(options: seq<SortOption>, sortBy: string, i: int, j: int)
    requires forall x, y :: 0 <= x < y < |options| ==> options[x].key != options[y].key
    requires 0 <= i < |options| && 0 <= j < |options|
    requires SortChoices(options, sortBy)[i].selected && SortChoices(options, sortBy)[j].selected
    ensures i == j
  {
  }

  /** Among the default options, one is selected exactly when the sort order is one of the four keys. */
  lemma DefaultSelection(sortBy: string)
    ensures (exists i :: 0 <= i < 4 && SortChoices(DefaultSortOptions(), sortBy)[i].selected)
            <==> sortBy in {"name", "most_recent", "total_orders", "random"}
  {
    var c := SortChoices(DefaultSortOptions(), sortBy);
    if sortBy in {"name", "most_recent", "total_orders", "random"} {
      if sortBy == "name" { assert c[0].selected; }
      else if sortBy == "most_recent" { assert c[1].selected; }
      else if sortBy == "total_orders" { assert c[2].selected; }
      else { assert c[3].selected; }
    }
  }

  /** The sort form. */
  datatype SortForm = SortForm(hidden: seq<HiddenInput>, sortLabel: string, choices: seq<SortChoice>)

  // ---------------------------------------------------------------------
  // Filter form
  // ---------------------------------------------------------------------

  /** `$_GET[name]`, or "" when absent (sanitising is the identity here). */
  function Param(r: Request, name: string): string {
    OrEmpty(r.GetParam(name))
  }

  /** The filter form is opened when any filter in the query string is PHP-non-empty. */
  predicate HasActiveFilters(r: Request) {
    !Empty(Param(r, "dokan_seller_search"))
    || !EmptyOpt(r.GetParam("dokan_store_location"))
    || !EmptyOpt(r.GetParam("dokan_store_rating"))
    || !EmptyOpt(r.GetParam("dokan_store_category"))
  }

  /** The filter form; each advanced filter is None when disabled and holds its selected value when enabled. */
  datatype FilterForm = FilterForm(
    visible: bool,
    sortHidden: Option<HiddenInput>,
    searchValue: string,
    placeholder: string,
    cancel: Button,
    apply: Button,
    location: bool,
    ratingSelected: Option<string>,
    categorySelected: Option<string>)

  /** What the block renders. */
  datatype SearchOutput = SearchOutput(
    count: Option<string>,
    filterButton: Option<Button>,
    sortForm: Option<SortForm>,
    filterForm: Option<FilterForm>)

  /**
   * `theabd_render_vendor_search_block`. `storeCount` is what the
   * `dokan_store_search_block_count` filter returns (0 unhooked),
   * `formatCount` stands for `number_format_i18n` and `sortFilter` for
   * the `dokan_store_lists_sort_by_options` filter.
   */
  function Render(r: Request, a: SearchAttributes, storeCount: int, formatCount: int -> string,
                  sortFilter: seq<SortOption> -> seq<SortOption>): (out: SearchOutput)
    requires r.get.Valid()
    ensures out.filterButton.Some? <==> a.enableSearch.GetOr(true)
    ensures out.filterForm.Some? <==> a.enableSearch.GetOr(true)
    ensures out.sortForm.Some? <==> a.enableSortBy.GetOr(true)
    ensures out.count.Some? <==> storeCount >= 0
    ensures out.filterForm.Some? ==>
              (out.filterForm.value.visible <==> HasActiveFilters(r))
              && (out.filterForm.value.sortHidden.Some? <==> !Empty(Param(r, SortParam)))
              && (out.filterForm.value.sortHidden.Some? ==>
                    out.filterForm.value.sortHidden.value == HiddenInput(SortParam, Param(r, SortParam)))
              && out.filterForm.value.searchValue == Param(r, "dokan_seller_search")
              && out.filterForm.value.placeholder == a.searchPlaceholder.GetOr("Search stores...")
              && out.filterForm.value.location == a.enableLocationFilter.GetOr(false)
              && out.filterForm.value.ratingSelected
                 == (if a.enableRatingFilter.GetOr(false) then Some(Param(r, "dokan_store_rating")) else None)
              && out.filterForm.value.categorySelected
                 == (if a.enableCategoryFilter.GetOr(false) then Some(Param(r, "dokan_store_category")) else None)
    ensures out.count == CountText(a.storeCountLabel.GetOr(DefaultCountLabel), storeCount, formatCount)
    ensures out.sortForm.Some? ==>
              out.sortForm.value.hidden == HiddenInputs(r.get.keys, r.get.entries)
              && out.sortForm.value.choices == SortChoices(sortFilter(DefaultSortOptions()), Param(r, SortParam))
              && out.sortForm.value.sortLabel == a.sortByLabel.GetOr("Sort by:")
    ensures out.sortForm.Some? ==>
              |out.sortForm.value.choices| == |sortFilter(DefaultSortOptions())|
              && forall h :: h in out.sortForm.value.hidden ==> h.name != SortParam && r.GetParam(h.name) == Some(h.value)
    ensures var size := a.buttonSize.GetOr("medium");
            var classes := Join(" ", ButtonClasses(size));
            var style := ButtonStyle(size, a.buttonBackgroundColor.GetOr(""), a.buttonTextColor.GetOr(""));
            (out.filterButton.Some? ==> out.filterButton.value == Button(classes, style, "Filter"))
            && (out.filterForm.Some? ==>
                  out.filterForm.value.cancel == Button(classes, style, "Cancel")
                  && out.filterForm.value.apply == Button(classes, style, a.buttonText.GetOr("Search")))
  {
    var size := a.buttonSize.GetOr("medium");
    var button := Button(Join(" ", ButtonClasses(size)),
                         ButtonStyle(size, a.buttonBackgroundColor.GetOr(""), a.buttonTextColor.GetOr("")),
                         "");
    var sortBy := Param(r, SortParam);
    var sortLabel := a.sortByLabel.GetOr("Sort by:");
    SearchOutput(
      CountText(a.storeCountLabel.GetOr(DefaultCountLabel), storeCount, formatCount),
      if a.enableSearch.GetOr(true) then Some(button.(text := "Filter")) else None,
      if a.enableSortBy.GetOr(true)
      then Some(SortForm(HiddenInputs(r.get.keys, r.get.entries), sortLabel, SortChoices(sortFilter(DefaultSortOptions()), sortBy)))
      else None,
      if a.enableSearch.GetOr(true)
      then Some(FilterForm(
        HasActiveFilters(r),
        if !Empty(sortBy) then Some(HiddenInput(SortParam, sortBy)) else None,
        Param(r, "dokan_seller_search"),
        a.searchPlaceholder.GetOr("Search stores..."),
        button.(text := "Cancel"),
        button.(text := a.buttonText.GetOr("Search")),
        a.enableLocationFilter.GetOr(false),
        if a.enableRatingFilter.GetOr(false) then Some(Param(r, "dokan_store_rating")) else None,
        if a.enableCategoryFilter.GetOr(false) then Some(Param(r, "dokan_store_category")) else None))
      else None)
  }

  /** The sort order reaches the next request through exactly one field of each form: the select in the sort form, a hidden input in the filter form only when set. */
  lemma SortOrderCarriedOnce(r: Request, a: SearchAttributes, storeCount: int, formatCount: int -> string,
                             sortFilter: seq<SortOption> -> seq<SortOption>)
    requires r.get.Valid()
    ensures var out := Render(r, a, storeCount, formatCount, sortFilter);
            (out.sortForm.Some? ==> forall h :: h in out.sortForm.value.hidden ==> h.name != SortParam)
            && (out.filterForm.Some? && out.filterForm.value.sortHidden.Some? ==>
                  out.filterForm.value.sortHidden.value == HiddenInput(SortParam, r.GetParam(SortParam).value))
  {
  }
}

/**
 * The store-banner block: the overlay colour read from a `#rrggbb` hex
 * value, the ordered style map serialised into the wrapper's `style`, and
 * the plain wrapper used when no vendor resolves. The inner content is
 * passed through unchanged either way.
 */
module StoreBanner {
  import opened Wp
  import opened Dokan
  import opened VendorRenderer
  import opened BlockContext

  // ---------------------------------------------------------------------
  // Hex colours
  // ---------------------------------------------------------------------

  /** A character of the class `[A-Fa-f0-9]`. */
  predicate IsHexDigit(c: char) {
    '0' <= c <= '9' || 'a' <= c <= 'f' || 'A' <= c <= 'F'
  }

  /** The value `hexdec` gives one hex digit. */
  function HexValue(c: char): (v: nat)
    requires IsHexDigit(c)
    ensures v < 16
  {
    if '0' <= c <= '9' then c as int - '0' as int
    else if 'a' <= c <= 'f' then c as int - 'a' as int + 10
    else c as int - 'A' as int + 10
  }

  /** `hexdec` of a two-digit string: a channel value. */
  function HexByte(hi: char, lo: char): (v: nat)
    requires IsHexDigit(hi) && IsHexDigit(lo)
    ensures v <= 255
  {
    HexValue(hi) * 16 + HexValue(lo)
  }

  /**
   * The capture of `/^#([A-Fa-f0-9]{6})$/`: six hex digits after a `#`. As
   * in PCRE, `$` also matches just before a final newline.
   */
  function MatchHexColor(s: string): (hex: Option<string>)
    ensures hex.Some? ==> |hex.value| == 6 && (forall i :: 0 <= i < 6 ==> IsHexDigit(hex.value[i]))
    ensures hex.Some? ==> s == "#" + hex.value || s == "#" + hex.value + "\n"
    ensures ((|s| == 7 || (|s| == 8 && s[7] == '\n')) && s[0] == '#'
             && forall i :: 1 <= i < 7 ==> IsHexDigit(s[i])) ==> hex.Some?
  {
    if (|s| == 7 || (|s| == 8 && s[7] == '\n')) && s[0] == '#' && forall i :: 1 <= i < 7 ==> IsHexDigit(s[i])
    then Some(s[1..7])
    else None
  }

  /** The red, green and blue values of a matching colour. */
  datatype Rgb = Rgb(r: nat, g: nat, b: nat)

  function ParseHexColor(s: string): (rgb: Option<Rgb>)
    ensures rgb.Some? ==> rgb.value.r <= 255 && rgb.value.g <= 255 && rgb.value.b <= 255
    ensures rgb.Some? <==> MatchHexColor(s).Some?
  {
    match MatchHexColor(s)
    case None => None
    case Some(h) => Some(Rgb(HexByte(h[0], h[1]), HexByte(h[2], h[3]), HexByte(h[4], h[5])))
  }

  /** The lower-case hex digit of a value below 16. */
  function HexChar(n: nat): (c: char)
    requires n < 16
    ensures IsHexDigit(c)
  {
    if n < 10 then ('0' as int + n) as char else ('a' as int + n - 10) as char
  }

  /** Two lower-case hex digits for a channel value. */
  function Hex2(n: nat): (s: string)
    requires n <= 255
    ensures |s| == 2 && IsHexDigit(s[0]) && IsHexDigit(s[1])
  {
    [HexChar(n / 16), HexChar(n % 16)]
  }

  lemma HexByteOfHex2(n: nat)
    requires n <= 255
    ensures HexByte(Hex2(n)[0], Hex2(n)[1]) == n
  {
  }

  /** `#` and six hex digits, with or without a final newline, parse to the three digit pairs. */
  lemma ParseOfHexDigits(s: string, hex: string)
    requires |hex| == 6 && forall i :: 0 <= i < 6 ==> IsHexDigit(hex[i])
    requires s == "#" + hex || s == "#" + hex + "\n"
    ensures ParseHexColor(s) == Some(Rgb(HexByte(hex[0], hex[1]), HexByte(hex[2], hex[3]), HexByte(hex[4], hex[5])))
  {
    assert s[1..7] == hex;
    forall i | 1 <= i < 7
      ensures IsHexDigit(s[i])
    {
      assert s[i] == hex[i - 1];
    }
  }

  /** Writing a colour as `#rrggbb` and reading it back gives the same channels, with or without a final newline. */
  lemma ParseHexColorRoundTrip(rgb: Rgb)
    requires rgb.r <= 255 && rgb.g <= 255 && rgb.b <= 255
    ensures ParseHexColor("#" + Hex2(rgb.r) + Hex2(rgb.g) + Hex2(rgb.b)) == Some(rgb)
    ensures ParseHexColor("#" + Hex2(rgb.r) + Hex2(rgb.g) + Hex2(rgb.b) + "\n") == Some(rgb)
  {
    var r, g, b := Hex2(rgb.r), Hex2(rgb.g), Hex2(rgb.b);
    var hex := r + g + b;
    assert hex[0] == r[0] && hex[1] == r[1];
    assert hex[2] == g[0] && hex[3] == g[1];
    assert hex[4] == b[0] && hex[5] == b[1];
    HexByteOfHex2(rgb.r);
    HexByteOfHex2(rgb.g);
    HexByteOfHex2(rgb.b);
    assert "#" + r + g + b == "#" + hex;
    assert "#" + r + g + b + "\n" == "#" + hex + "\n";
    ParseOfHexDigits("#" + hex, hex);
    ParseOfHexDigits("#" + hex + "\n", hex);
  }


  /** A value that is not six hex digits after `#` (a name, a short `#fff`, an `rgb()` value) gives no colour. */
  lemma ShortHexRejected()
    ensures ParseHexColor("#fff").None?
    ensures ParseHexColor("black").None?
  {
  }

  /** `sprintf('rgba(%d, %d, %d, %s)', r, g, b, overlay)`. */
  function Rgba(rgb: Rgb, overlay: string): string {
    "rgba(" + DecimalString(rgb.r) + ", " + DecimalString(rgb.g) + ", " + DecimalString(rgb.b) + ", " + overlay + ")"
  }

  /** The overlay colour: the parsed colour, else black, at the given opacity. */
  function OverlayRgba(color: string, overlay: string): (rgba: string)
    ensures ParseHexColor(color).None? ==> rgba == Rgba(Rgb(0, 0, 0), overlay)
    ensures ParseHexColor(color).Some? ==> rgba == Rgba(ParseHexColor(color).value, overlay)
  {
    match ParseHexColor(color)
    case None => "rgba(0, 0, 0, " + overlay + ")"
    case Some(rgb) => Rgba(rgb, overlay)
  }

  /** The default colour `#000000` gives the same overlay as the fallback for an unreadable colour. */
  lemma DefaultColourIsFallback(overlay: string)
    ensures OverlayRgba("#000000", overlay) == OverlayRgba("black", overlay)
  {
    assert "#000000"[1..7] == "000000";
    assert ParseHexColor("#000000") == Some(Rgb(0, 0, 0));
  }

  // ---------------------------------------------------------------------
  // The style map
  // ---------------------------------------------------------------------

  /** The values the style map is built from, after the defaults. */
  datatype BannerSettings = BannerSettings(
    height: nat, minHeight: nat, overlay: string, overlayColor: string, position: string, size: string)

  /** The block's attributes; `backgroundOverlay` is kept as the text PHP prints for it. */
  datatype BannerAttributes = BannerAttributes(
    height: Option<int>, minHeight: Option<int>, backgroundOverlay: Option<string>,
    overlayColor: Option<string>, backgroundPosition: Option<string>, backgroundSize: Option<string>)

  /** Defaults: height 300, minimum height 200, opacity 0.3, colour `#000000`, centred, `cover`. */
  function Settings(a: BannerAttributes): (s: BannerSettings)
    ensures a.height.None? ==> s.height == 300
    ensures a.height.Some? ==> s.height == Absint(a.height.value)
    ensures a.minHeight.None? ==> s.minHeight == 200
    ensures a.backgroundOverlay.None? ==> s.overlay == "0.3"
    ensures a.overlayColor.None? ==> s.overlayColor == "#000000"
    ensures a.backgroundPosition.None? ==> s.position == "center"
    ensures a.backgroundSize.None? ==> s.size == "cover"
  {
    BannerSettings(
      if a.height.Some? then Absint(a.height.value) else 300,
      if a.minHeight.Some? then Absint(a.minHeight.value) else 200,
      a.backgroundOverlay.GetOr("0.3"), a.overlayColor.GetOr("#000000"),
      a.backgroundPosition.GetOr("center"), a.backgroundSize.GetOr("cover"))
  }

  /** The keys of the array literal of `$inline_styles`, in order. */
  const FixedKeys: seq<string> := ["min-height", "background-size", "background-position", "background-repeat"]

  /** The two optional keys differ from the fixed ones (their lengths alone tell them apart). */
  lemma OptionalKeysAreNew()
    ensures "height" !in FixedKeys && "background-image" !in FixedKeys + ["height"]
  {
    assert |FixedKeys[0]| == 10 && |FixedKeys[1]| == 15 && |FixedKeys[2]| == 19 && |FixedKeys[3]| == 17;
    assert |"height"| == 6 && |"background-image"| == 16;
  }

  /** The array literal of `$inline_styles`: its four fixed entries. */
  function FixedStyles(s: BannerSettings): (t: Table<string>)
    ensures t.keys == FixedKeys
    ensures forall k :: k in t.keys ==> k in t.entries
  {
    Table(FixedKeys,
          map["min-height" := DecimalString(s.minHeight) + "px", "background-size" := s.size,
              "background-position" := s.position, "background-repeat" := "no-repeat"])
  }

  /** The `background-image` value: the overlay twice as a gradient over the banner. */
  function BackgroundImage(s: BannerSettings, bannerUrl: string): string {
    var rgba := OverlayRgba(s.overlayColor, s.overlay);
    "linear-gradient(" + rgba + ", " + rgba + "), url(" + bannerUrl + ")"
  }

  /** `$inline_styles`: the four fixed entries, then `height` when positive, then the image when there is a banner. */
  function BannerStyles(s: BannerSettings, bannerUrl: string): (t: Table<string>)
    ensures t.keys == FixedKeys
                      + (if s.height > 0 then ["height"] else [])
                      + (if !Empty(bannerUrl) then ["background-image"] else [])
    ensures forall k :: k in t.keys ==> k in t.entries
    ensures s.height > 0 ==> t.entries["height"] == DecimalString(s.height) + "px"
    ensures !Empty(bannerUrl) ==> t.entries["background-image"] == BackgroundImage(s, bannerUrl)
  {
    OptionalKeysAreNew();
    var withHeight := PutIf(FixedStyles(s), s.height > 0, "height", DecimalString(s.height) + "px");
    PutIf(withHeight, !Empty(bannerUrl), "background-image", BackgroundImage(s, bannerUrl))
  }

  /** An `if (...) { $a[k] = v; }` that adds a key the table does not hold yet. */
  function PutIf(t: Table<string>, cond: bool, k: string, v: string): (r: Table<string>)
    requires forall x :: x in t.keys ==> x in t.entries
    requires k !in t.keys
    ensures r.keys == t.keys + (if cond then [k] else [])
    ensures r.entries == if cond then t.entries[k := v] else t.entries
    ensures forall x :: x in r.keys ==> x in r.entries
  {
    if cond then t.Put(k, v) else t
  }

  /** The `sprintf('%s: %s; ', property, value)` pieces of the listed keys, concatenated in order. */
  function StyleString(keys: seq<string>, entries: map<string, string>): string
    requires forall k :: k in keys ==> k in entries
  {
    if |keys| == 0 then ""
    else
      var k := keys[|keys| - 1];
      StyleString(keys[..|keys| - 1], entries) + k + ": " + entries[k] + "; "
  }

  /** The `foreach` that turns the style map into a string. */
  method SerializeStyles(t: Table<string>) returns (style: string)
    requires forall k :: k in t.keys ==> k in t.entries
    ensures style == StyleString(t.keys, t.entries)
  {
    style := "";
    var i := 0;
    while i < |t.keys|
      invariant 0 <= i <= |t.keys|
      invariant style == StyleString(t.keys[..i], t.entries)
    {
      assert t.keys[..i + 1][..i] == t.keys[..i];
      var k := t.keys[i];
      style := style + k + ": " + t.entries[k] + "; ";
      i := i + 1;
    }
    assert t.keys[..i] == t.keys;
  }

  /** Each serialised entry ends in "; ", so the string, when non-empty, ends in "; ". */
  lemma StyleStringEnding(keys: seq<string>, entries: map<string, string>)
    requires forall k :: k in keys ==> k in entries
    requires |keys| > 0
    ensures var s := StyleString(keys, entries);
            |s| >= 2 && s[|s| - 2] == ';' && s[|s| - 1] == ' '
  {
    var k := keys[|keys| - 1];
    var s := StyleString(keys, entries);
    var front := StyleString(keys[..|keys| - 1], entries) + k + ": " + entries[k];
    assert s == front + "; ";
  }

  /** Each serialised entry starts with its property, so the string starts with the first key. */
  lemma {:induction false} StyleStringStart(keys: seq<string>, entries: map<string, string>)
    requires forall k :: k in keys ==> k in entries
    requires |keys| > 0
    ensures StartsWith(StyleString(keys, entries), keys[0])
    decreases |keys|
  {
    if |keys| > 1 {
      StyleStringStart(keys[..|keys| - 1], entries);
      var front := StyleString(keys[..|keys| - 1], entries);
      var k := keys[|keys| - 1];
      assert StyleString(keys, entries) == front + (k + ": " + entries[k] + "; ");
    } else {
      assert keys[..0] == [];
      assert StyleString(keys, entries) == keys[0] + (": " + entries[keys[0]] + "; ");
    }
  }

  /** What the block renders. */
  datatype BannerOutput =
    /** `dokan-store-banner--no-vendor` with the grey placeholder style, around the content. */
    | NoVendorWrapper(content: string)
    | Banner(style: string, content: string)

  /** The detection fallback keeps `id`, `store_name`, `banner`, `shop_url`, `gravatar`, `rating` and `store_info`. */
  function Project(d: VendorData): (v: ContextVendor)
    ensures v.id == Some(d.id) && v.banner == Some(d.banner)
  {
    NoKeys.(id := Some(d.id), storeName := Some(d.shopName), banner := Some(d.banner), shopUrl := Some(d.shopUrl),
            gravatar := Some(d.avatar), rating := Some(d.rating), storeInfo := Some(d.storeInfo))
  }

  /** `dokan_render_store_banner_block`. */
  function Render(context: Option<ContextVendor>, m: Market, r: Request, a: BannerAttributes, content: string)
    : (out: BannerOutput)
    ensures out.content == content
    ensures out.NoVendorWrapper? <==> VendorFor(context, m, r, Project).None?
    ensures out.Banner? ==>
              var banner := OrEmpty(VendorFor(context, m, r, Project).value.banner);
              var t := BannerStyles(Settings(a), if Empty(banner) then "" else banner);
              out.style == Trim(StyleString(t.keys, t.entries))
  {
    match VendorFor(context, m, r, Project)
    case None => NoVendorWrapper(content)
    case Some(v) =>
      var banner := OrEmpty(v.banner);
      var t := BannerStyles(Settings(a), if Empty(banner) then "" else banner);
      Banner(Trim(StyleString(t.keys, t.entries)), content)
  }

  /** The trimmed style is the serialised map without its final space: it starts at `min-height` and ends in ";". */
  lemma BannerStyleShape(s: BannerSettings, bannerUrl: string)
    ensures var t := BannerStyles(s, bannerUrl);
            var str := StyleString(t.keys, t.entries);
            |str| >= 2 && Trim(str) == str[..|str| - 1] && StartsWith(Trim(str), "min-height")
            && Trim(str)[|Trim(str)| - 1] == ';'
  {
    var t := BannerStyles(s, bannerUrl);
    StyleStringEnding(t.keys, t.entries);
    StyleStringStart(t.keys, t.entries);
    assert t.keys[0] == "min-height";
    TrimDeclarationList(StyleString(t.keys, t.entries), "min-height");
  }

  /** A string that starts with a word with no blank at either end and ends in "; " trims to itself without the final space. */
  lemma TrimDeclarationList(str: string, first: string)
    requires |str| >= 2 && str[|str| - 2] == ';' && str[|str| - 1] == ' '
    requires |first| > 0 && !IsTrimChar(first[0]) && !IsTrimChar(first[|first| - 1]) && StartsWith(str, first)
    ensures Trim(str) == str[..|str| - 1] && StartsWith(Trim(str), first) && Trim(str)[|Trim(str)| - 1] == ';'
  {
    assert str[0] == first[0];
    assert str[..|str|] == str;
    assert str[|str| - 1] != first[|first| - 1];
    assert |first| < |str|;
    assert TrimLeft(str) == str;
    var cut := str[..|str| - 1];
    assert TrimRight(str) == TrimRight(cut);
    assert cut[|cut| - 1] == ';';
    assert TrimRight(cut) == cut;
    assert cut[..|first|] == str[..|first|];
  }
}

/**
 * The vendor-avatar block: the avatar URL fallback chain, the wrapper
 * classes and styles, the image styles, and when the image is a link.
 */
module VendorAvatar {
  import opened Wp
  import opened Dokan
  import opened VendorRenderer
  import opened BlockContext
  import opened InlineStyles

  /** The block's attributes; `radius` is `style.border.radius` given as one value. */
  datatype AvatarAttributes = AvatarAttributes(
    width: Option<string>,
    height: Option<string>,
    isLink: Option<bool>,
    align: Option<string>,
    radius: Option<string>)

  /** The wrapper's classes: the block class, then the alignment class when `align` is non-empty. */
  function WrapperClasses(align: string): (classes: seq<string>)
    ensures |classes| >= 1 && classes[0] == "theabd--vendor-avatar"
    ensures |classes| == 2 <==> !Empty(align)
    ensures |classes| == 2 ==> classes[1] == "has-text-align-" + align
  {
    ["theabd--vendor-avatar"] + (if !Empty(align) then ["has-text-align-" + align] else [])
  }

  /** The wrapper's styles: the radius and `overflow: hidden` when a radius is set, else none. */
  function WrapperStyles(radius: Option<string>): (styles: seq<string>)
    ensures styles == [] <==> EmptyOpt(radius)
    ensures !EmptyOpt(radius) ==> styles == ["border-radius: " + radius.value, "overflow: hidden"]
  {
    if EmptyOpt(radius) then [] else ["border-radius: " + radius.value, "overflow: hidden"]
  }

  /** The image's styles: width and height when non-empty, always `object-fit: cover`, then the radius when set. */
  function ImageStyles(width: string, height: string, radius: Option<string>): (styles: seq<string>)
    ensures "object-fit: cover" in styles
    ensures ("width: " + width in styles) <== !Empty(width)
    ensures ("height: " + height in styles) <== !Empty(height)
    ensures var k := (if Empty(width) then 0 else 1) + (if Empty(height) then 0 else 1);
            |styles| == k + 1 + (if EmptyOpt(radius) then 0 else 1)
            && styles[k] == "object-fit: cover"
            && (!Empty(width) ==> styles[0] == "width: " + width)
            && (!Empty(height) ==> styles[k - 1] == "height: " + height)
            && (!EmptyOpt(radius) ==> styles[k + 1] == "border-radius: " + radius.value)
  {
    (if Empty(width) then [] else ["width: " + width])
    + (if Empty(height) then [] else ["height: " + height])
    + ["object-fit: cover"]
    + (if EmptyOpt(radius) then [] else ["border-radius: " + radius.value])
  }

  /** An empty width or height leaves no declaration of it at all among the image styles. */
  lemma ImageStylesOmitEmpty(width: string, height: string, radius: Option<string>)
    ensures Empty(width) ==> forall s :: s in ImageStyles(width, height, radius) ==> !StartsWith(s, "width: ")
    ensures Empty(height) ==> forall s :: s in ImageStyles(width, height, radius) ==> !StartsWith(s, "height: ")
  {
    var styles := ImageStyles(width, height, radius);
    var k := (if Empty(width) then 0 else 1) + (if Empty(height) then 0 else 1);
    forall s | s in styles
      ensures Empty(width) ==> !StartsWith(s, "width: ")
      ensures Empty(height) ==> !StartsWith(s, "height: ")
    {
      var i :| 0 <= i < |styles| && styles[i] == s;
      assert |s| >= 7 ==> s[..7][0] == s[0];
      assert |s| >= 8 ==> s[..8][0] == s[0];
      assert "width: "[0] == 'w' && "height: "[0] == 'h';
      if i == k {
        assert s == "object-fit: cover";
      } else if i > k {
        assert s == "border-radius: " + radius.value;
        assert s[0] == 'b';
      } else if i == k - 1 && !Empty(height) {
        assert s == "height: " + height;
        assert s[0] == 'h';
      } else {
        assert s == "width: " + width;
        assert s[0] == 'w';
      }
    }
  }

  /** The three accumulators of the block: `$wrapper_classes`, `$wrapper_styles` and `$img_styles`. */
  method BuildAvatarLists(width: string, height: string, align: string, radius: Option<string>)
    returns (classes: seq<string>, wrapperStyles: seq<string>, imgStyles: seq<string>)
    ensures classes == WrapperClasses(align)
    ensures wrapperStyles == WrapperStyles(radius)
    ensures imgStyles == ImageStyles(width, height, radius)
  {
    classes := ["theabd--vendor-avatar"];
    if !Empty(align) {
      classes := classes + ["has-text-align-" + align];
    }
    wrapperStyles := [];
    var borderRadius: Option<string> := None;
    if !EmptyOpt(radius) {
      borderRadius := radius;
      wrapperStyles := wrapperStyles + ["border-radius: " + radius.value];
      wrapperStyles := wrapperStyles + ["overflow: hidden"];
    }
    imgStyles := [];
    if !Empty(width) {
      imgStyles := imgStyles + ["width: " + width];
    }
    if !Empty(height) {
      imgStyles := imgStyles + ["height: " + height];
    }
    imgStyles := imgStyles + ["object-fit: cover"];
    if borderRadius.Some? {
      imgStyles := imgStyles + ["border-radius: " + borderRadius.value];
    }
  }

  /** The radius is applied to the wrapper exactly when it is applied to the image. */
  lemma RadiusOnBoth(width: string, height: string, radius: Option<string>)
    requires !EmptyOpt(radius)
    ensures "border-radius: " + radius.value in WrapperStyles(radius)
    ensures ImageStyles(width, height, radius)[|ImageStyles(width, height, radius)| - 1] == "border-radius: " + radius.value
  {
  }

  /** The image styles keep their order: width, height, the fit, then the radius. */
  lemma ImageStylesOrder(width: string, height: string, radius: Option<string>)
    requires !Empty(width) && !Empty(height) && !EmptyOpt(radius)
    ensures ImageStyles(width, height, radius) ==
              ["width: " + width, "height: " + height, "object-fit: cover", "border-radius: " + radius.value]
  {
  }

  /** What the block renders. */
  datatype AvatarOutput =
    /** The generic avatar (`get_avatar_url(0)`) shown when no vendor resolves. */
    | Placeholder(src: string)
    | Avatar(classes: seq<string>, wrapperStyleAttr: string, link: Option<string>,
             src: string, alt: string, imgStyleAttr: string)

  /** The detection fallback keeps `id`, `store_name`, `shop_url` and `gravatar`. */
  function Project(d: VendorData): (v: ContextVendor)
    ensures v.id == Some(d.id) && v.gravatar == Some(d.avatar) && v.storeName == Some(d.shopName)
  {
    NoKeys.(id := Some(d.id), storeName := Some(d.shopName), shopUrl := Some(d.shopUrl), gravatar := Some(d.avatar))
  }

  /** `gravatar ?? avatar ?? get_avatar_url(id)`: a present key wins even when it is empty. */
  function AvatarUrl(v: ContextVendor, avatarUrlOf: int -> string): (url: string)
    requires v.id.Some?
    ensures v.gravatar.Some? ==> url == v.gravatar.value
    ensures v.gravatar.None? && v.avatar.Some? ==> url == v.avatar.value
    ensures v.gravatar.None? && v.avatar.None? ==> url == avatarUrlOf(v.id.value)
  {
    v.gravatar.GetOr(v.avatar.GetOr(avatarUrlOf(v.id.value)))
  }

  /** `theabd_render_vendor_avatar_block`; `avatarUrlOf` is WordPress's `get_avatar_url`. */
  function Render(context: Option<ContextVendor>, m: Market, r: Request, a: AvatarAttributes,
                  avatarUrlOf: int -> string): (out: AvatarOutput)
    ensures out.Placeholder? <==> VendorFor(context, m, r, Project).None?
    ensures out.Placeholder? ==> out.src == avatarUrlOf(0)
    ensures out.Avatar? ==>
              var v := VendorFor(context, m, r, Project).value;
              var width := a.width.GetOr("80px");
              var height := a.height.GetOr("80px");
              out.src == AvatarUrl(v, avatarUrlOf)
              && out.alt == OrEmpty(v.storeName)
              && out.classes == WrapperClasses(a.align.GetOr(""))
              && out.wrapperStyleAttr == StyleAttribute(WrapperStyles(a.radius))
              && out.imgStyleAttr == "style=\"" + Join("; ", ImageStyles(width, height, a.radius)) + ";\""
              && (out.link.Some? <==> a.isLink.GetOr(true) && !Empty(OrEmpty(v.shopUrl)))
              && (out.link.Some? ==> out.link.value == v.shopUrl.value)
  {
    match VendorFor(context, m, r, Project)
    case None => Placeholder(avatarUrlOf(0))
    case Some(v) =>
      var url := OrEmpty(v.shopUrl);
      var width := a.width.GetOr("80px");
      var height := a.height.GetOr("80px");
      Avatar(WrapperClasses(a.align.GetOr("")), StyleAttribute(WrapperStyles(a.radius)),
             if a.isLink.GetOr(true) && !Empty(url) then Some(url) else None,
             AvatarUrl(v, avatarUrlOf), OrEmpty(v.storeName),
             "style=\"" + Join("; ", ImageStyles(width, height, a.radius)) + ";\"")
  }

  /** With the default attributes the image is 80px square, not rounded, and linked to the shop. */
  lemma DefaultAvatar(v: VendorObject, m: Market, r: Request, avatarUrlOf: int -> string)
    requires v.id != 0 && !Empty(v.shopUrl)
    ensures ImageStyles("80px", "80px", None) == ["width: 80px", "height: 80px", "object-fit: cover"]
    ensures Render(Some(ToArray(v)), m, r, AvatarAttributes(None, None, None, None, None), avatarUrlOf)
            == Avatar(["theabd--vendor-avatar"], "", Some(v.shopUrl), v.avatar, v.shopName,
                      "style=\"" + Join("; ", ["width: 80px", "height: 80px", "object-fit: cover"]) + ";\"")
  {
    assert "width: " + "80px" == "width: 80px";
    assert "height: " + "80px" == "height: 80px";
    assert ImageStyles("80px", "80px", None) == ["width: 80px", "height: 80px", "object-fit: cover"];
  }
}

/**
 * The vendor-rating block: which vendor's rating it shows, the defaults for
 * a missing rating or count, and which renderer draws the stars.
 */
module VendorRating {
  import opened Wp
  import opened Dokan
  import opened VendorRenderer
  import opened BlockContext

  /** The output when no vendor resolves. */
  const PlaceholderHtml: string := "<div class=\"theabd--vendor-rating\">★★★★★ (0)</div>"

  /** What the block renders. */
  datatype RatingOutput =
    | Placeholder(html: string)
    /** `dokan_generate_ratings(rating, count)`. */
    | DokanStars(rating: string, count: string)
    /** The block's own stars; the count span only when asked for. */
    | FallbackStars(rating: string, countShown: Option<string>)

  /** The detection fallback keeps `id` and `rating`. */
  function Project(d: VendorData): (v: ContextVendor)
    ensures v.id == Some(d.id) && v.rating == Some(d.rating)
  {
    NoKeys.(id := Some(d.id), rating := Some(d.rating))
  }

  /** `$vendor['rating']['rating'] ?? 0`. */
  function RatingValue(v: ContextVendor): (rating: string)
    ensures v.rating.None? || v.rating.value.rating.None? ==> rating == "0"
    ensures v.rating.Some? && v.rating.value.rating.Some? ==> rating == v.rating.value.rating.value
  {
    if v.rating.Some? then v.rating.value.rating.GetOr("0") else "0"
  }

  /** `$vendor['rating']['count'] ?? 0`. */
  function RatingCount(v: ContextVendor): (count: string)
    ensures v.rating.None? || v.rating.value.count.None? ==> count == "0"
    ensures v.rating.Some? && v.rating.value.count.Some? ==> count == v.rating.value.count.value
  {
    if v.rating.Some? then v.rating.value.count.GetOr("0") else "0"
  }

  /** `theabd_render_vendor_rating_block`. */
  function Render(context: Option<ContextVendor>, m: Market, r: Request, showCount: Option<bool>): (out: RatingOutput)
    ensures out.Placeholder? <==> VendorFor(context, m, r, Project).None?
    ensures out.Placeholder? ==> out.html == PlaceholderHtml
    ensures out.DokanStars? <==>
              VendorFor(context, m, r, Project).Some? && "dokan_generate_ratings" in m.functions
    ensures !out.Placeholder? ==>
              var v := VendorFor(context, m, r, Project).value;
              out.rating == RatingValue(v)
              && (out.DokanStars? ==> out.count == RatingCount(v))
              && (out.FallbackStars? ==> (out.countShown.Some? <==> showCount.GetOr(true))
                                         && (out.countShown.Some? ==> out.countShown.value == RatingCount(v)))
  {
    match VendorFor(context, m, r, Project)
    case None => Placeholder(PlaceholderHtml)
    case Some(v) =>
      if "dokan_generate_ratings" in m.functions then DokanStars(RatingValue(v), RatingCount(v))
      else FallbackStars(RatingValue(v), if showCount.GetOr(true) then Some(RatingCount(v)) else None)
  }

  /** With Dokan's renderer the `showCount` attribute has no effect. */
  lemma ShowCountIgnoredByDokan(context: Option<ContextVendor>, m: Market, r: Request, s1: Option<bool>, s2: Option<bool>)
    requires "dokan_generate_ratings" in m.functions
    ensures Render(context, m, r, s1) == Render(context, m, r, s2)
  {
  }

  /** A vendor without a rating array is drawn as zero stars from zero reviews. */
  lemma UnratedVendorShowsZero(v: ContextVendor, m: Market, r: Request, showCount: Option<bool>)
    requires HasId(v) && v.rating.None?
    ensures var out := Render(Some(v), m, r, showCount);
            out.rating == "0" && (out.DokanStars? ==> out.count == "0")
            && (out.FallbackStars? && out.countShown.Some? ==> out.countShown.value == "0")
  {
  }
}

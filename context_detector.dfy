/**
 * Which vendor, product and kind of page the current request is about.
 *
 * `GetVendorId` is a first-match-wins chain: the Dokan vendor object named by
 * the `author` query variable, then the owner of the `store` slug, then the
 * numeric `author` variable, then the author of the current product post.
 * Only the first link skips the seller check.
 */
module ContextDetector {
  import opened Wp
  import opened Dokan

  /** The id of the Dokan vendor object named by the `author` query variable, when positive. */
  function ObjectHit(m: Market, r: Request): Option<int> {
    var key := Intval(r.QueryVar("author", ""));
    if m.dokanLoaded && key in m.vendors && m.vendors[key].id > 0 then Some(m.vendors[key].id) else None
  }

  /** The owner of the non-empty `store` slug, when that user is a seller. */
  function SlugHit(m: Market, r: Request): Option<int> {
    var slug := r.QueryVar("store", "");
    if !Empty(slug) && slug in m.usersBySlug && m.IsSellerGuarded(m.usersBySlug[slug])
    then Some(m.usersBySlug[slug] as int) else None
  }

  /** The numeric `author` query variable, when it names a seller. */
  function AuthorHit(m: Market, r: Request): Option<int> {
    var author := r.QueryVar("author", "0");
    var id := Absint(Intval(author));
    if !Empty(author) && id > 0 && m.IsSellerGuarded(id) then Some(id) else None
  }

  /** The author of the current product post, when that author is a seller. */
  function PostHit(m: Market, r: Request): Option<int> {
    if r.post.Some? && r.post.value.postType == "product"
       && Absint(r.post.value.author) > 0 && m.IsSellerGuarded(Absint(r.post.value.author))
    then Some(Absint(r.post.value.author) as int) else None
  }

  /** `Context_Detector::get_vendor_id`. */
  function GetVendorId(m: Market, r: Request): (id: Option<int>)
    // the Dokan object's id is taken whenever it is positive, without any seller check
    ensures ObjectHit(m, r).Some? ==> id == ObjectHit(m, r)
    // every other answer is a user the (defined) seller check accepts
    ensures id.Some? && ObjectHit(m, r).None? ==> m.IsSellerGuarded(id.value)
    // an answer is always one of the four candidates
    ensures id.Some? ==> id in {ObjectHit(m, r), SlugHit(m, r), AuthorHit(m, r), PostHit(m, r)}
    // first match wins: each later link is consulted only when every earlier one failed
    ensures ObjectHit(m, r).None? && SlugHit(m, r).Some? ==> id == SlugHit(m, r)
    ensures ObjectHit(m, r).None? && SlugHit(m, r).None? && AuthorHit(m, r).Some? ==> id == AuthorHit(m, r)
    ensures ObjectHit(m, r).None? && SlugHit(m, r).None? && AuthorHit(m, r).None? ==> id == PostHit(m, r)
    // null exactly when no link finds a vendor
    ensures id.None? <==> ObjectHit(m, r).None? && SlugHit(m, r).None? && AuthorHit(m, r).None? && PostHit(m, r).None?
    ensures m.WellFormed() && id.Some? ==> id.value > 0
  {
    if ObjectHit(m, r).Some? then Some(Absint(ObjectHit(m, r).value) as int)
    else if SlugHit(m, r).Some? then SlugHit(m, r)
    else if AuthorHit(m, r).Some? then AuthorHit(m, r)
    else if PostHit(m, r).Some? then PostHit(m, r)
    else None
  }

  /** First match wins: a seller owning the `store` slug beats whatever the `author` variable or the post say. */
  lemma StoreSlugBeatsLaterSignals(m: Market, r: Request, r2: Request)
    requires ObjectHit(m, r).None? && SlugHit(m, r).Some?
    requires r2.queryVars == r.queryVars
    ensures GetVendorId(m, r2) == SlugHit(m, r)
  {
  }

  /** The first link never consults the seller list: changing who is a seller cannot change its answer. */
  lemma ObjectHitIgnoresSellers(m: Market, r: Request, sellers: set<int>)
    requires ObjectHit(m, r).Some?
    ensures GetVendorId(m.(sellers := sellers), r) == GetVendorId(m, r)
  {
  }

  /** With no `author`, no `store` and no product post there is no vendor. */
  lemma NoSignalsNoVendor(m: Market, r: Request)
    requires m.WellFormed()
    requires Empty(r.QueryVar("author", "")) && Empty(r.QueryVar("store", ""))
    requires r.post.None? || r.post.value.postType != "product"
    ensures GetVendorId(m, r).None?
  {
    var author := r.QueryVar("author", "");
    IntvalOfEmpty(author);
    assert Intval(author) == 0;
    assert ObjectHit(m, r).None?;
    assert Empty(r.QueryVar("author", "0")) by {
      if "author" !in r.queryVars {
        assert r.QueryVar("author", "0") == "0";
      }
    }
    assert AuthorHit(m, r).None?;
  }

  /** `Context_Detector::get_product_id`. */
  function GetProductId(r: Request): (id: Option<nat>)
    ensures r.post.Some? && r.post.value.postType == "product" ==> id == Some(Absint(r.post.value.id))
    ensures (r.post.None? || r.post.value.postType != "product") ==>
              (id.Some? <==> !Empty(r.QueryVar("product_id", "0")))
    ensures (r.post.None? || r.post.value.postType != "product") && !Empty(r.QueryVar("product_id", "0")) ==>
              id == Some(Absint(Intval(r.QueryVar("product_id", "0"))))
  {
    if r.post.Some? && r.post.value.postType == "product" then Some(Absint(r.post.value.id))
    else if !Empty(r.QueryVar("product_id", "0")) then Some(Absint(Intval(r.QueryVar("product_id", "0"))))
    else None
  }

  /** `Context_Detector::is_store_page`. */
  function IsStorePage(m: Market, r: Request): (b: bool)
    ensures r.singularProduct ==> !b
    ensures !r.singularProduct ==>
              (b <==> m.storePageCheck == Some(true) || !Empty(r.QueryVar("store", "")))
  {
    if r.singularProduct then false
    else if m.storePageCheck == Some(true) then true
    else !Empty(r.QueryVar("store", ""))
  }

  /** `Context_Detector::is_product_page`. */
  predicate IsProductPage(r: Request): (b: bool)
    ensures b <==> r.singularProduct
    ensures b ==> forall m: Market :: !IsStorePage(m, r)
  {
    r.singularProduct
  }

  /** A product page is never a store page, whatever the other signals say. */
  lemma ProductPageIsNotStorePage(m: Market, r: Request)
    requires IsProductPage(r)
    ensures !IsStorePage(m, r)
  {
  }

  /** WordPress `is_page(p)` for an integer `p`: an empty `p` accepts every page. */
  predicate IsPage(r: Request, p: int): (b: bool)
    ensures p == 0 ==> (b <==> r.isPage)
    ensures p != 0 ==> (b <==> r.isPage && r.pageId == p)
  {
    r.isPage && (p == 0 || r.pageId == p)
  }

  /** `Context_Detector::is_store_list_page`, as written: a missing setting asks `is_page(0)`. */
  predicate IsStoreListPageAsWritten(m: Market, r: Request): (b: bool)
    ensures m.storeListingPage.GetOr(0) == 0 ==> (b <==> r.isPage)
    ensures m.storeListingPage.GetOr(0) != 0 ==> (b <==> r.isPage && r.pageId == m.storeListingPage.value)
  {
    IsPage(r, m.storeListingPage.GetOr(0))
  }

  /** As written, with no listing page configured every page counts as the listing page. */
  lemma MissingListingPageMatchesEveryPage(m: Market, r: Request)
    requires m.storeListingPage.None? && r.isPage
    ensures IsStoreListPageAsWritten(m, r)
  {
  }

  /** The listing-page test as intended: only the configured listing page qualifies. */
  function IsStoreListPage(m: Market, r: Request): (b: bool)
    ensures b <==> r.isPage && m.storeListingPage.Some? && m.storeListingPage.value != 0
                   && r.pageId == m.storeListingPage.value
    ensures b ==> IsStoreListPageAsWritten(m, r)
  {
    m.storeListingPage.Some? && m.storeListingPage.value != 0 && IsPage(r, m.storeListingPage.value)
  }
}

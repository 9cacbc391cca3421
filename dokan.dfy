/**
 * The marketplace (Dokan) and the request (WordPress query) as data.
 *
 * Every call the plugin makes into Dokan or WordPress is answered by a field
 * of `Market` or `Request`: which users are sellers, which vendor objects
 * exist, which users own which store slug, which optional host functions
 * are defined, and the query variables and global post of the request.
 */
module Dokan {
  import opened Wp

  /** A street address as Dokan stores it (`street_1`, …, `country`). */
  datatype Address = Address(
    street1: Option<string>,
    street2: Option<string>,
    city: Option<string>,
    state: Option<string>,
    zip: Option<string>,
    country: Option<string>)

  /** An `address` value: an array of fields, a preformatted string, or another PHP type. */
  datatype AddressValue = AddressFields(fields: Address) | AddressText(text: string) | AddressOther

  /** The array Dokan's `get_rating()` returns; values are kept as displayed text. */
  datatype Rating = Rating(rating: Option<string>, count: Option<string>)

  /** The `store_open_close` settings of a store. */
  datatype OpenClose = OpenClose(openNotice: Option<string>, closeNotice: Option<string>)

  /** One weekday's entry of `dokan_store_time`. */
  datatype DaySchedule = DaySchedule(status: Option<string>, openingTime: Option<string>, closingTime: Option<string>)

  /** The parts of a vendor's `get_shop_info()` array that the blocks read. */
  datatype ShopInfo = ShopInfo(
    storeTime: map<string, DaySchedule>,
    storeTimeEnabled: Option<string>,
    openNotice: Option<string>,
    closeNotice: Option<string>,
    openClose: Option<OpenClose>,
    address: Option<AddressValue>)

  /** The value of `get_location()`: a "lat,lng" string or an array. */
  datatype LocationValue =
    | LocationText(text: string)
    | LocationFields(lat: Option<string>, latitude: Option<string>, lng: Option<string>,
                     longitude: Option<string>, address: Option<AddressValue>)

  /** PHP `empty()` of a location value (an array is empty when it has no keys). */
  predicate EmptyLocation(l: LocationValue) {
    match l
    case LocationText(t) => Empty(t)
    case LocationFields(a, b, c, d, e) => a.None? && b.None? && c.None? && d.None? && e.None?
  }

  /** A Dokan vendor object as its accessors report it. */
  datatype VendorObject = VendorObject(
    id: int,
    shopName: string,
    shopUrl: string,
    avatar: string,
    banner: string,
    phone: string,
    email: string,
    showEmail: bool,
    address: Address,
    shortAddress: string,
    rating: Rating,
    socialProfiles: map<string, string>,
    shopInfo: ShopInfo,
    featured: bool,
    location: LocationValue,
    tnc: string)

  /** One entry of `dokan_get_social_profile_fields()`. */
  datatype SocialField = SocialField(key: string, title: Option<string>)

  /** One entry of `dokan_get_store_tabs()`: its key, and the `title` and `url` it may carry. */
  datatype StoreTab = StoreTab(key: string, title: Option<string>, url: Option<string>)

  /** One entry of a weekday list: the day key (`monday`, …) and its displayed name. */
  datatype Day = Day(key: string, title: string)

  /**
   * The marketplace as the plugin sees it.
   * `vendors[k]` is the truthy object `dokan()->vendor->get(k)` returns, if any;
   * `storeOpen` is None when `dokan_is_store_open` is not defined;
   * `functions` are the other optional host functions that are defined;
   * `products[p]` is the author of product `p`, when `wc_get_product(p)` finds it;
   * `translatedDays` is None when `dokan_get_translated_days` is not defined;
   * the three strings are the `dokan_mapbox_token` and `dokan_google_api_key`
   * options (default "") and the account-migration page URL.
   */
  datatype Market = Market(
    dokanLoaded: bool,
    sellerCheckDefined: bool,
    sellers: set<int>,
    vendors: map<int, VendorObject>,
    usersBySlug: map<string, nat>,
    storePageCheck: Option<bool>,
    storeOpen: Option<set<int>>,
    hiddenInfo: set<string>,
    readableRating: map<int, string>,
    socialFields: seq<SocialField>,
    storeListingPage: Option<int>,
    functions: set<string>,
    products: map<int, int>,
    storeTabs: map<int, seq<StoreTab>>,
    translatedDays: Option<seq<Day>>,
    mapboxToken: string,
    googleApiKey: string,
    accountMigrationUrl: string)
  {
    /** `dokan_is_user_seller(id)`. */
    predicate IsSeller(id: int) {
      id in sellers
    }

    /** The same, behind `function_exists('dokan_is_user_seller')`. */
    predicate IsSellerGuarded(id: int) {
      sellerCheckDefined && id in sellers
    }

    /**
     * What a real marketplace guarantees: user 0 is never a seller and a
     * vendor object looked up by id carries that id.
     */
    predicate WellFormed() {
      0 !in sellers && forall k :: k in vendors ==> vendors[k].id == k
    }
  }

  /** The global `$post`, reduced to what the plugin reads. */
  datatype Post = Post(id: int, postType: string, author: int)

  /**
   * The current request: query variables, the global post, whether the main
   * query is a singular product, and whether it is a page (and which one);
   * whether the current user may `read`, whether the request comes from the
   * editor (`is_admin()` or a REST request), the current user, the `$_GET`
   * parameters in order, and the current URL.
   */
  datatype Request = Request(
    queryVars: map<string, string>,
    post: Option<Post>,
    singularProduct: bool,
    isPage: bool,
    pageId: int,
    canRead: bool,
    editorRequest: bool,
    currentUser: int,
    get: Table<string>,
    currentUrl: string)
  {
    /** `get_query_var(name, default)`. */
    function QueryVar(name: string, default: string): string {
      if name in queryVars then queryVars[name] else default
    }

    /** `$_GET[name]` when that parameter is present. */
    function GetParam(name: string): Option<string> {
      if name in get.entries then Some(get.entries[name]) else None
    }
  }
}

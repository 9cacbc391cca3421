/**
 * The store-status block: one boolean, whether the store is open, chooses
 * both the status class and the notice shown.
 */
module StoreStatus {
  import opened Wp
  import opened Dokan
  import opened VendorRenderer
  import opened BlockContext

  const OpenClass: string := "dokan-store-open"
  const ClosedClass: string := "dokan-store-closed"

  /** What the block renders. */
  datatype StatusOutput =
    /** The fixed "Open Now" span shown when no vendor resolves. */
    | Placeholder
    | Status(statusClass: string, text: string)

  /** The detection fallback keeps `id` and `store_open_close` (an empty array when missing). */
  function Project(d: VendorData): (v: ContextVendor)
    ensures v.id == Some(d.id) && v.storeOpenClose.Some?
  {
    NoKeys.(id := Some(d.id), storeOpenClose := Some(d.storeInfo.openClose.GetOr(OpenClose(None, None))))
  }

  /** `open_notice ?? 'Open Now'`. */
  function OpenNotice(v: ContextVendor): (notice: string)
    ensures v.storeOpenClose.Some? && v.storeOpenClose.value.openNotice.Some? ==>
              notice == v.storeOpenClose.value.openNotice.value
    ensures v.storeOpenClose.None? || v.storeOpenClose.value.openNotice.None? ==> notice == "Open Now"
  {
    if v.storeOpenClose.Some? then v.storeOpenClose.value.openNotice.GetOr("Open Now") else "Open Now"
  }

  /** `close_notice ?? 'Closed'`. */
  function CloseNotice(v: ContextVendor): (notice: string)
    ensures v.storeOpenClose.Some? && v.storeOpenClose.value.closeNotice.Some? ==>
              notice == v.storeOpenClose.value.closeNotice.value
    ensures v.storeOpenClose.None? || v.storeOpenClose.value.closeNotice.None? ==> notice == "Closed"
  {
    if v.storeOpenClose.Some? then v.storeOpenClose.value.closeNotice.GetOr("Closed") else "Closed"
  }

  /** `dokan_render_store_status_block`; `dokan_is_store_open` is asked about `absint(id)`. */
  function Render(context: Option<ContextVendor>, m: Market, r: Request): (out: StatusOutput)
    ensures out.Placeholder? <==> VendorFor(context, m, r, Project).None?
    ensures out.Status? ==>
              var v := VendorFor(context, m, r, Project).value;
              var open := IsStoreOpen(m, Absint(v.id.value));
              (out.statusClass == OpenClass <==> open)
              && (out.statusClass == ClosedClass <==> !open)
              && out.text == (if open then OpenNotice(v) else CloseNotice(v))
  {
    match VendorFor(context, m, r, Project)
    case None => Placeholder
    case Some(v) =>
      var open := IsStoreOpen(m, Absint(v.id.value));
      Status(if open then OpenClass else ClosedClass, if open then OpenNotice(v) else CloseNotice(v))
  }

  /** Class and text never disagree: the open class always goes with the open notice. */
  lemma ClassMatchesText(context: Option<ContextVendor>, m: Market, r: Request)
    requires Render(context, m, r).Status?
    ensures var out := Render(context, m, r);
            var v := VendorFor(context, m, r, Project).value;
            (out.statusClass == OpenClass && out.text == OpenNotice(v))
            || (out.statusClass == ClosedClass && out.text == CloseNotice(v))
  {
  }

  /** Without `dokan_is_store_open` every vendor shows as open. */
  lemma OpenWithoutDokanCheck(context: Option<ContextVendor>, m: Market, r: Request)
    requires m.storeOpen.None? && Render(context, m, r).Status?
    ensures Render(context, m, r).statusClass == OpenClass
  {
  }
}

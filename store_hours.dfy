/**
 * The store-hours block: the gating on a seller with enabled store times,
 * the open/closed notice, and the two layouts: the detailed weekly list,
 * which classifies every day, and the compact line for today.
 */
module StoreHours {
  import opened Wp
  import opened Dokan
  import opened ContextDetector
  import opened VendorRenderer

  /** The `vendorId` attribute when non-empty, else the detected vendor; 0 is none. */
  function HoursVendorId(m: Market, r: Request, vendorIdAttr: Option<int>): (id: int)
    ensures vendorIdAttr.Some? && vendorIdAttr.value != 0 ==> id == Absint(vendorIdAttr.value)
    ensures (vendorIdAttr.None? || vendorIdAttr.value == 0) ==> id == GetVendorId(m, r).GetOr(0)
  {
    if vendorIdAttr.Some? && vendorIdAttr.value != 0 then Absint(vendorIdAttr.value)
    else GetVendorId(m, r).GetOr(0)
  }

  /** Store times are shown only when some are set and `dokan_store_time_enabled` is exactly "yes". */
  predicate HoursEnabled(info: ShopInfo) {
    |info.storeTime| > 0 && info.storeTimeEnabled == Some("yes")
  }

  /** The week `dokan_get_translated_days` would give when it is not defined. */
  const DefaultDays: seq<Day> := [
    Day("monday", "Monday"), Day("tuesday", "Tuesday"), Day("wednesday", "Wednesday"),
    Day("thursday", "Thursday"), Day("friday", "Friday"), Day("saturday", "Saturday"),
    Day("sunday", "Sunday")]

  /** The days the detailed list walks through. */
  function Days(m: Market): (days: seq<Day>)
    ensures m.translatedDays.None? ==> days == DefaultDays
    ensures m.translatedDays.Some? ==> days == m.translatedDays.value
  {
    m.translatedDays.GetOr(DefaultDays)
  }

  /** `$dokan_store_times[$key] ?? array()`. */
  function ScheduleOf(times: map<string, DaySchedule>, key: string): (s: DaySchedule)
    ensures key !in times ==> s == DaySchedule(None, None, None)
    ensures key in times ==> s == times[key]
  {
    if key in times then times[key] else DaySchedule(None, None, None)
  }

  /** The hours the detailed list shows for a day; None is "CLOSED". */
  function DetailedHours(s: DaySchedule): (hours: Option<(string, string)>)
    ensures hours.Some? <==> s.status == Some("open") && !EmptyOpt(s.openingTime) && !EmptyOpt(s.closingTime)
    ensures hours.Some? ==> hours.value == (s.openingTime.value, s.closingTime.value)
  {
    if s.status == Some("close") then None
    else if s.status == Some("open") && !EmptyOpt(s.openingTime) && !EmptyOpt(s.closingTime)
    then Some((s.openingTime.value, s.closingTime.value))
    else None
  }

  /** The hours the compact line shows for today; None is "Store hours vary". */
  function CompactHours(s: DaySchedule): (hours: Option<(string, string)>)
    ensures hours.Some? <==> !EmptyOpt(s.openingTime) && !EmptyOpt(s.closingTime)
    ensures hours.Some? ==> hours.value == (s.openingTime.value, s.closingTime.value)
  {
    if !EmptyOpt(s.openingTime) && !EmptyOpt(s.closingTime) then Some((s.openingTime.value, s.closingTime.value))
    else None
  }

  /** Whenever the detailed list shows hours, the compact line shows the same ones. */
  lemma DetailedAgreesWithCompact(s: DaySchedule)
    requires DetailedHours(s).Some?
    ensures CompactHours(s) == DetailedHours(s)
  {
  }

  /** The compact line does not look at the status: a closed day with times on file still shows them. */
  lemma CompactIgnoresStatus()
    ensures var s := DaySchedule(Some("close"), Some("09:00"), Some("17:00"));
            DetailedHours(s).None? && CompactHours(s) == Some(("09:00", "17:00"))
  {
  }

  /** One `<li>` of the detailed list. */
  datatype DayRow = DayRow(title: string, today: bool, hours: Option<(string, string)>)

  /** The detailed-list rows for `days`, in their order. */
  function DayRows(days: seq<Day>, times: map<string, DaySchedule>, today: string): (rows: seq<DayRow>)
    ensures |rows| == |days|
    ensures forall i :: 0 <= i < |days| ==>
              rows[i].title == days[i].title
              && (rows[i].today <==> days[i].key == today)
              && rows[i].hours == DetailedHours(ScheduleOf(times, days[i].key))
  {
    if days == [] then []
    else
      var last := days[|days| - 1];
      DayRows(days[..|days| - 1], times, today)
      + [DayRow(last.title, last.key == today, DetailedHours(ScheduleOf(times, last.key)))]
  }

  /** The `foreach` over the days of the detailed layout. */
  method ClassifyDays(days: seq<Day>, times: map<string, DaySchedule>, today: string) returns (rows: seq<DayRow>)
    ensures rows == DayRows(days, times, today)
  {
    rows := [];
    var i := 0;
    while i < |days|
      invariant 0 <= i <= |days|
      invariant rows == DayRows(days[..i], times, today)
    {
      var s := ScheduleOf(times, days[i].key);
      var isClosed := s.status == Some("close");
      var isOpen := s.status == Some("open");
      var hours: Option<(string, string)>;
      if isClosed {
        hours := None;
      } else if isOpen && !EmptyOpt(s.openingTime) && !EmptyOpt(s.closingTime) {
        hours := Some((s.openingTime.value, s.closingTime.value));
      } else {
        hours := None;
      }
      assert days[..i + 1][..i] == days[..i];
      rows := rows + [DayRow(days[i].title, days[i].key == today, hours)];
      i := i + 1;
    }
    assert days[..i] == days;
  }

  /** How many rows are marked as today. */
  function TodayCount(rows: seq<DayRow>): nat {
    if rows == [] then 0 else TodayCount(rows[..|rows| - 1]) + (if rows[|rows| - 1].today then 1 else 0)
  }

  /** No day key occurs twice. */
  predicate DistinctKeys(days: seq<Day>) {
    forall i, j :: 0 <= i < j < |days| ==> days[i].key != days[j].key
  }

  /** Some day in the list has the key `today`. */
  predicate HasDay(days: seq<Day>, today: string) {
    exists i :: 0 <= i < |days| && days[i].key == today
  }

  /** How many days have the key `today`. */
  function KeyCount(days: seq<Day>, today: string): nat {
    if days == [] then 0 else KeyCount(days[..|days| - 1], today) + (if days[|days| - 1].key == today then 1 else 0)
  }

  /** The rows marked as today are the days whose key is today. */
  lemma {:induction false} TodayCountIsKeyCount(days: seq<Day>, times: map<string, DaySchedule>, today: string)
    ensures TodayCount(DayRows(days, times, today)) == KeyCount(days, today)
  {
    if days != [] {
      var rows := DayRows(days, times, today);
      assert rows[..|rows| - 1] == DayRows(days[..|days| - 1], times, today);
      TodayCountIsKeyCount(days[..|days| - 1], times, today);
    }
  }

  /** With distinct keys a key occurs once when it occurs at all. */
  lemma {:induction false} KeyCountOfDistinct(days: seq<Day>, today: string)
    requires DistinctKeys(days)
    ensures KeyCount(days, today) == (if HasDay(days, today) then 1 else 0)
  {
    if days != [] {
      var init := days[..|days| - 1];
      assert DistinctKeys(init);
      KeyCountOfDistinct(init, today);
      if days[|days| - 1].key == today {
        forall i | 0 <= i < |init|
          ensures init[i].key != today
        {
          assert days[i] == init[i];
        }
      } else if HasDay(days, today) {
        var i :| 0 <= i < |days| && days[i].key == today;
        assert init[i].key == today;
      }
    }
  }

  /** With distinct day keys exactly one row is today when today is one of them, and none otherwise. */
  lemma OneToday(days: seq<Day>, times: map<string, DaySchedule>, today: string)
    requires DistinctKeys(days)
    ensures TodayCount(DayRows(days, times, today)) == (if HasDay(days, today) then 1 else 0)
  {
    TodayCountIsKeyCount(days, times, today);
    KeyCountOfDistinct(days, today);
  }

  /** The default week names every day once, so any weekday is marked exactly once. */
  lemma DefaultWeekHasOneToday(times: map<string, DaySchedule>, today: string)
    requires today in {"monday", "tuesday", "wednesday", "thursday", "friday", "saturday", "sunday"}
    ensures TodayCount(DayRows(DefaultDays, times, today)) == 1
  {
    assert DistinctKeys(DefaultDays) by {
      forall i, j | 0 <= i < j < |DefaultDays|
        ensures DefaultDays[i].key != DefaultDays[j].key
      {
        var k := DefaultDays[i].key;
        var l := DefaultDays[j].key;
        assert k[0] != l[0] || k[1] != l[1];
      }
    }
    OneToday(DefaultDays, times, today);
    var i := if today == "monday" then 0 else if today == "tuesday" then 1 else if today == "wednesday" then 2
             else if today == "thursday" then 3 else if today == "friday" then 4 else if today == "saturday" then 5
             else 6;
    assert DefaultDays[i].key == today;
  }

  /** The status line: the custom notice when non-empty, else the default. */
  datatype StatusLine = StoreOpen(notice: string) | StoreClosed(notice: string)

  /** The status line for a store, given whether it is open. */
  function StatusLineOf(info: ShopInfo, open: bool): (line: StatusLine)
    ensures line.StoreOpen? <==> open
    ensures line.StoreOpen? ==> line.notice == (if EmptyOpt(info.openNotice) then "Store Open" else info.openNotice.value)
    ensures line.StoreClosed? ==> line.notice == (if EmptyOpt(info.closeNotice) then "Store Closed" else info.closeNotice.value)
  {
    if open then StoreOpen(if !EmptyOpt(info.openNotice) then info.openNotice.value else "Store Open")
    else StoreClosed(if !EmptyOpt(info.closeNotice) then info.closeNotice.value else "Store Closed")
  }

  /** The schedule part: the weekly list, or today's line. */
  datatype Schedule = Detailed(rows: seq<DayRow>) | Compact(hours: Option<(string, string)>)

  /** What the block renders. */
  datatype HoursOutput = NoOutput | Hours(wrapperClass: string, status: Option<StatusLine>, schedule: Schedule)

  /** `dokan_render_store_hours_block`; `today` is the lower-case weekday name of the current date. */
  function Render(m: Market, r: Request, vendorIdAttr: Option<int>, layoutAttr: Option<string>,
                  showCurrentStatus: Option<bool>, today: string): (out: HoursOutput)
    ensures var id := HoursVendorId(m, r, vendorIdAttr);
            out.Hours? <==> id != 0 && m.IsSeller(id) && GetVendorData(m, id).Some?
                            && HoursEnabled(GetVendorData(m, id).value.storeInfo)
    ensures out.Hours? ==>
              var id := HoursVendorId(m, r, vendorIdAttr);
              var info := GetVendorData(m, id).value.storeInfo;
              var layout := layoutAttr.GetOr("compact");
              out.wrapperClass == "dokan-store-hours dokan-store-hours-" + layout
              && (out.status.Some? <==> showCurrentStatus != Some(false))
              && (out.status.Some? ==> out.status.value == StatusLineOf(info, IsStoreOpen(m, id)))
              && (layout == "detailed" ==> out.schedule == Detailed(DayRows(Days(m), info.storeTime, today)))
              && (layout != "detailed" ==> out.schedule == Compact(CompactHours(ScheduleOf(info.storeTime, today))))
  {
    var id := HoursVendorId(m, r, vendorIdAttr);
    if id == 0 || !m.IsSeller(id) then NoOutput
    else
      match GetVendorData(m, id)
      case None => NoOutput
      case Some(d) =>
        var info := d.storeInfo;
        if !HoursEnabled(info) then NoOutput
        else
          var layout := layoutAttr.GetOr("compact");
          var status := if showCurrentStatus.GetOr(true) then Some(StatusLineOf(info, IsStoreOpen(m, id))) else None;
          Hours("dokan-store-hours dokan-store-hours-" + layout, status,
                if layout == "detailed" then Detailed(DayRows(Days(m), info.storeTime, today))
                else Compact(CompactHours(ScheduleOf(info.storeTime, today))))
  }

  /** Store times switched on with anything other than exactly "yes" hide the block. */
  lemma OnlyYesEnables(m: Market, r: Request, vendorIdAttr: Option<int>, layoutAttr: Option<string>,
                       showCurrentStatus: Option<bool>, today: string)
    requires var id := HoursVendorId(m, r, vendorIdAttr);
             GetVendorData(m, id).Some? && GetVendorData(m, id).value.storeInfo.storeTimeEnabled != Some("yes")
    ensures Render(m, r, vendorIdAttr, layoutAttr, showCurrentStatus, today) == NoOutput
  {
  }
}

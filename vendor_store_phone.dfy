/**
 * The vendor-store-phone block: which vendor it shows, the empty-phone rule,
 * and the number it puts in the `tel:` link.
 */
module VendorStorePhone {
  import opened Wp
  import opened Dokan
  import opened VendorRenderer
  import opened BlockContext

  /** A character the `tel:` number keeps: a decimal digit or '+'. */
  predicate IsDialChar(c: char) {
    '0' <= c <= '9' || c == '+'
  }

  /** `preg_replace('/[^0-9+]/', '', phone)`: the digits and plus signs of `phone`, in order. */
  function CleanPhone(phone: string): (clean: string)
    ensures |clean| <= |phone|
    ensures forall i :: 0 <= i < |clean| ==> IsDialChar(clean[i])
    decreases |phone|
  {
    if |phone| == 0 then ""
    else
      var last := phone[|phone| - 1];
      CleanPhone(phone[..|phone| - 1]) + (if IsDialChar(last) then [last] else [])
  }

  /** Cleaning a string made only of digits and '+' changes nothing. */
  lemma {:induction false} CleanPhoneKeepsDialString(s: string)
    requires forall i :: 0 <= i < |s| ==> IsDialChar(s[i])
    ensures CleanPhone(s) == s
    decreases |s|
  {
    if |s| > 0 {
      CleanPhoneKeepsDialString(s[..|s| - 1]);
    }
  }

  /** Cleaning is idempotent: a cleaned number is left as it is. */
  lemma CleanPhoneIdempotent(phone: string)
    ensures CleanPhone(CleanPhone(phone)) == CleanPhone(phone)
  {
    CleanPhoneKeepsDialString(CleanPhone(phone));
  }

  /** Cleaning works character by character: it distributes over concatenation. */
  lemma {:induction false} CleanPhoneAppend(a: string, b: string)
    ensures CleanPhone(a + b) == CleanPhone(a) + CleanPhone(b)
    decreases |b|
  {
    if |b| == 0 {
      assert a + b == a;
    } else {
      assert (a + b)[..|a + b| - 1] == a + b[..|b| - 1];
      CleanPhoneAppend(a, b[..|b| - 1]);
    }
  }

  /** A separator (space, dash, bracket, letter, …) inside a number is dropped and nothing else changes. */
  lemma CleanPhoneDropsSeparator(a: string, c: char, b: string)
    requires !IsDialChar(c)
    ensures CleanPhone(a + [c] + b) == CleanPhone(a) + CleanPhone(b)
  {
    CleanPhoneAppend(a + [c], b);
    CleanPhoneAppend(a, [c]);
    CleanPhoneOne(c);
  }

  /** A digit or plus sign inside a number is kept in its place. */
  lemma CleanPhoneKeepsDialChar(a: string, c: char, b: string)
    requires IsDialChar(c)
    ensures CleanPhone(a + [c] + b) == CleanPhone(a) + [c] + CleanPhone(b)
  {
    CleanPhoneAppend(a + [c], b);
    CleanPhoneAppend(a, [c]);
    CleanPhoneOne(c);
  }

  /** A single character is kept exactly when it is a digit or '+'. */
  lemma CleanPhoneOne(c: char)
    ensures CleanPhone([c]) == if IsDialChar(c) then [c] else ""
  {
    assert [c][..|[c]| - 1] == "";
  }

  /** The output when no vendor resolves. */
  const PlaceholderHtml: string := "<p class=\"theabd--vendor-store-phone\">+1 234 567 8900</p>"

  /** What the block renders. */
  datatype PhoneOutput =
    | Placeholder(html: string)
    | NoOutput
    | PhoneParagraph(showIcon: bool, telLink: Option<string>, text: string)

  /** The detection fallback keeps `id` and `phone`. */
  function Project(d: VendorData): (v: ContextVendor)
    ensures v.id == Some(d.id) && v.phone == Some(d.phone)
  {
    NoKeys.(id := Some(d.id), phone := Some(d.phone))
  }

  /** `theabd_render_vendor_store_phone_block`. */
  function Render(context: Option<ContextVendor>, m: Market, r: Request,
                  showIcon: Option<bool>, isLink: Option<bool>): (out: PhoneOutput)
    ensures out == Placeholder(PlaceholderHtml) <==> VendorFor(context, m, r, Project).None?
    ensures out == NoOutput <==>
              VendorFor(context, m, r, Project).Some? && Empty(OrEmpty(VendorFor(context, m, r, Project).value.phone))
    ensures out.PhoneParagraph? ==>
              var phone := VendorFor(context, m, r, Project).value.phone.value;
              out.text == phone && !Empty(phone)
              && (out.showIcon <==> showIcon.GetOr(true))
              && (out.telLink.Some? <==> isLink.GetOr(true))
              && (out.telLink.Some? ==> out.telLink.value == CleanPhone(phone))
  {
    match VendorFor(context, m, r, Project)
    case None => Placeholder(PlaceholderHtml)
    case Some(v) =>
      var phone := OrEmpty(v.phone);
      if Empty(phone) then NoOutput
      else PhoneParagraph(showIcon.GetOr(true), if isLink.GetOr(true) then Some(CleanPhone(phone)) else None, phone)
  }

  /** The detected vendor's phone is shown as it is, and dialled cleaned. */
  lemma DetectedVendorPhone(m: Market, r: Request, showIcon: Option<bool>)
    requires DetectedVendorData(m, r).Some? && !Empty(DetectedVendorData(m, r).value.phone)
    ensures var phone := DetectedVendorData(m, r).value.phone;
            Render(None, m, r, showIcon, None) == PhoneParagraph(showIcon.GetOr(true), Some(CleanPhone(phone)), phone)
  {
    DetectedVendorIsFound(m, r, Project);
  }
}

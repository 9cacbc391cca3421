/**
 * The store-terms-conditions block: the gating chain down to a non-empty
 * terms text, and the title tag, which is sanitised as a key and then
 * held to the six heading tags.
 */
module StoreTermsConditions {
  import opened Wp
  import opened Dokan
  import opened ContextDetector

  /** A character `sanitize_key` keeps once lower-cased. */
  predicate IsKeyChar(c: char) {
    ('a' <= c <= 'z') || ('0' <= c <= '9') || c == '_' || c == '-'
  }

  /** ASCII lower-casing of one character. */
  function Lower(c: char): (l: char)
    ensures 'A' <= c <= 'Z' ==> 'a' <= l <= 'z'
    ensures !('A' <= c <= 'Z') ==> l == c
  {
    if 'A' <= c <= 'Z' then (c as int + 32) as char else c
  }

  /** WordPress's `sanitize_key`: lower-case, then drop everything but letters, digits, `_` and `-`. */
  function SanitizeKey(s: string): (k: string)
    ensures |k| <= |s|
    ensures forall i :: 0 <= i < |k| ==> IsKeyChar(k[i])
  {
    if s == [] then []
    else
      var c := Lower(s[0]);
      (if IsKeyChar(c) then [c] else []) + SanitizeKey(s[1..])
  }

  /** A key is its own sanitisation. */
  lemma {:induction false} SanitizeKeyOfKey(s: string)
    requires forall i :: 0 <= i < |s| ==> IsKeyChar(s[i])
    ensures SanitizeKey(s) == s
  {
    if s != [] {
      SanitizeKeyOfKey(s[1..]);
      assert s == [s[0]] + s[1..];
    }
  }

  /** Sanitising twice is sanitising once. */
  lemma SanitizeKeyIdempotent(s: string)
    ensures SanitizeKey(SanitizeKey(s)) == SanitizeKey(s)
  {
    SanitizeKeyOfKey(SanitizeKey(s));
  }

  /** The title tags allowed. */
  const HeadingTags: set<string> := {"h1", "h2", "h3", "h4", "h5", "h6"}

  /** The title tag: the sanitised attribute when it is a heading tag, else `h2`. */
  function TitleTag(titleTag: Option<string>): (tag: string)
    ensures tag in HeadingTags
    ensures titleTag.Some? && SanitizeKey(titleTag.value) in HeadingTags ==> tag == SanitizeKey(titleTag.value)
    ensures titleTag.None? || SanitizeKey(titleTag.value) !in HeadingTags ==> tag == "h2"
  {
    var t := if titleTag.Some? then SanitizeKey(titleTag.value) else "h2";
    if t in HeadingTags then t else "h2"
  }

  /** An upper-case heading tag is accepted as its lower-case form. */
  lemma UpperCaseHeadingAccepted()
    ensures TitleTag(Some("H3")) == "h3"
  {
    assert SanitizeKey("H3") == "h3" by {
      assert SanitizeKey("3") == "3" by {
        assert SanitizeKey("3"[1..]) == [];
      }
      assert "H3"[1..] == "3";
      assert Lower('H') == 'h';
    }
  }

  /** What the block renders; `title` is the heading tag when the title is shown. */
  datatype TermsOutput = NoOutput | Terms(title: Option<string>, tnc: string)

  /** The non-empty `vendorId` attribute, else the detected vendor; 0 is none. */
  function TermsVendorId(m: Market, r: Request, vendorIdAttr: Option<int>): (id: int)
    ensures vendorIdAttr.Some? && vendorIdAttr.value != 0 ==> id == Absint(vendorIdAttr.value)
    ensures (vendorIdAttr.None? || vendorIdAttr.value == 0) ==> id == GetVendorId(m, r).GetOr(0)
  {
    if vendorIdAttr.Some? && vendorIdAttr.value != 0 then Absint(vendorIdAttr.value)
    else GetVendorId(m, r).GetOr(0)
  }

  /** `dokan_render_store_terms_conditions_block`; `dokanLoaded` answers `function_exists('dokan')`. */
  function Render(m: Market, r: Request, vendorIdAttr: Option<int>, showTitle: Option<bool>,
                  titleTag: Option<string>): (out: TermsOutput)
    ensures var id := TermsVendorId(m, r, vendorIdAttr);
            out.Terms? <==> id != 0 && m.IsSeller(id) && m.dokanLoaded && id in m.vendors
                            && m.vendors[id].id != 0 && !Empty(m.vendors[id].tnc)
    ensures out.Terms? ==> out.tnc == m.vendors[TermsVendorId(m, r, vendorIdAttr)].tnc
    ensures out.Terms? ==> (out.title.Some? <==> showTitle.GetOr(true))
    ensures out.Terms? && out.title.Some? ==> out.title.value == TitleTag(titleTag)
  {
    var id := TermsVendorId(m, r, vendorIdAttr);
    if id == 0 || !m.IsSeller(id) then NoOutput
    else if !m.dokanLoaded then NoOutput
    else if id !in m.vendors || m.vendors[id].id == 0 then NoOutput
    else if Empty(m.vendors[id].tnc) then NoOutput
    else Terms(if showTitle.GetOr(true) then Some(TitleTag(titleTag)) else None, m.vendors[id].tnc)
  }
}

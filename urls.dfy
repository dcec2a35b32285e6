/**
 * `extract_product_url`: turning the `href` of a search-result link into the
 * URL of the product page, or into one of a fixed set of sentinel strings.
 * The function is the same, line for line, in main.py and in
 * testing/online_scrape.py.
 *
 * The Python standard library calls it makes are parameters: `urlparse`
 * followed by `parse_qs` is `UrlLib.parse`, which gives `None` where
 * `urlparse` raises ValueError (an unbalanced `[` or `]` in the host, for
 * instance), `unquote` is `UrlLib.unquote`,
 * and the network probe `requests.head(href, allow_redirects=True)` is
 * `head`, which gives the final URL after redirects, or `None` when the
 * request raises.
 */
module ProductUrl {
  import opened Wrappers
  import opened Text

  /** The values `parse_qs` gives for one key (never an empty list). */
  type QueryValues = s: seq<string> | |s| > 0 witness [""]

  /** The parts of `urlparse(href)` the scraper reads, with `parse_qs` already applied to the query. */
  datatype Url = Url(netloc: string, path: string, query: map<string, QueryValues>)

  /** The library functions `urlparse`/`parse_qs` (`None` where `urlparse` raises) and `unquote`, taken as given. */
  datatype UrlLib = UrlLib(parse: string -> Option<Url>, unquote: string -> string)

  const NoLinkFound := "No link found"
  const NoProductUrlFound := "No product URL found"
  const NoUrlInRedirect := "No product URL found in redirect"
  const GoogleSearchLink := "No product URL found (Google search link)"
  const PdfPrefix := "PDF catalog link: "

  /** The sentinel strings `extract_product_url` can return in place of a URL. */
  const Sentinels: set<string> := {NoLinkFound, NoProductUrlFound, NoUrlInRedirect, GoogleSearchLink}

  /** `query_params.get(key, [None])[0]` */
  function FirstParam(query: map<string, QueryValues>, key: string): Option<string> {
    if key in query then Some(query[key][0]) else None
  }

  /** Python truthiness of an optional string: present and non-empty. */
  predicate Truthy(a: Option<string>) {
    a.Some? && a.value != ""
  }

  /** Python's `a or b` on two optional strings. */
  function Or(a: Option<string>, b: Option<string>): (r: Option<string>)
    ensures Truthy(r) <==> Truthy(a) || Truthy(b)
    ensures Truthy(a) ==> r == a
  {
    if Truthy(a) then a else b
  }

  /** `not href or href == "No link found" or not href.strip()` */
  predicate IsBlankHref(href: Option<string>) {
    href.None? || href.value == "" || href.value == NoLinkFound || Strip(href.value) == ""
  }

  /** `href.startswith(("javascript:", "#", "data:"))` */
  predicate IsScriptHref(h: string) {
    StartsWith(h, "javascript:") || StartsWith(h, "#") || StartsWith(h, "data:")
  }

  predicate IsGoogleHost(netloc: string) {
    netloc == "www.google.com" || netloc == "google.com"
  }

  predicate IsGoogleRedirect(u: Url) {
    IsGoogleHost(u.netloc) && StartsWith(u.path, "/url")
  }

  predicate IsGoogleSearch(u: Url) {
    IsGoogleHost(u.netloc) && StartsWith(u.path, "/search")
  }

  /** The redirect target: the `url` parameter, else the `q` parameter. */
  function RedirectTarget(u: Url): Option<string> {
    Or(FirstParam(u.query, "url"), FirstParam(u.query, "q"))
  }

  /** `"shopping" in href or "product" in href or "merchant" in href` */
  predicate MentionsShopping(h: string) {
    Contains(h, "shopping") || Contains(h, "product") || Contains(h, "merchant")
  }

  /** The merchant link: the `merchant_url` parameter, else the `pdp_url` parameter. */
  function MerchantTarget(u: Url): Option<string> {
    Or(FirstParam(u.query, "merchant_url"), FirstParam(u.query, "pdp_url"))
  }

  /** What the HEAD probe contributes: its final URL, unless that is a Google URL or the probe failed. */
  function ProbeResult(h: string, head: string -> Option<string>): Option<string> {
    match head(h)
    case Some(f) => if Contains(f, "google.com") then None else Some(f)
    case None => None
  }

  /** `r` is the unquoted first value of some parameter of the parsed `query`. */
  ghost predicate UnquotedParam(r: string, query: map<string, QueryValues>, lib: UrlLib) {
    exists key :: key in query && r == lib.unquote(query[key][0])
  }

  /** The chosen parameter of `a or b` is one of the two keys, and present. */
  lemma OrParamPresent(q: map<string, QueryValues>, k1: string, k2: string, lib: UrlLib)
    requires Truthy(Or(FirstParam(q, k1), FirstParam(q, k2)))
    ensures var v := Or(FirstParam(q, k1), FirstParam(q, k2)).value;
      UnquotedParam(lib.unquote(v), q, lib)
  {
    if Truthy(FirstParam(q, k1)) {
      assert k1 in q;
    } else {
      assert k2 in q;
    }
  }

  /** The `/url` redirect branch: the unquoted target when it starts with "http". */
  function FollowRedirect(u: Url, lib: UrlLib): (r: string)
    ensures r == NoUrlInRedirect || UnquotedParam(r, u.query, lib)
  {
    var target := RedirectTarget(u);
    if Truthy(target) && StartsWith(target.value, "http") then
      OrParamPresent(u.query, "url", "q", lib);
      lib.unquote(target.value)
    else NoUrlInRedirect
  }

  /** The branches after the Google checks: merchant parameters, `.pdf` links, the HEAD probe, the host. */
  function ClassifyOther(h: string, u: Url, lib: UrlLib, head: string -> Option<string>): (r: string)
    ensures r == NoProductUrlFound || r == h || r == PdfPrefix + h || head(h) == Some(r)
      || UnquotedParam(r, u.query, lib)
  {
    if MentionsShopping(h) && Truthy(MerchantTarget(u)) then
      OrParamPresent(u.query, "merchant_url", "pdp_url", lib);
      lib.unquote(MerchantTarget(u).value)
    else if EndsWith(Lower(h), ".pdf") then PdfPrefix + h
    else if ProbeResult(h, head).Some? then ProbeResult(h, head).value
    else if !Contains(u.netloc, "google.com") then h
    else NoProductUrlFound
  }

  /**
   * `extract_product_url(href)`, with `None` where it raises: `urlparse` is
   * not guarded, so an `href` it refuses ends the call with ValueError. The
   * contract says when that happens and otherwise where the result can
   * come from: a sentinel, the `PDF catalog link: ` text, the `href` itself,
   * the HEAD probe's final URL, or an unquoted query parameter of the `href`.
   */
  function ExtractProductUrl(href: Option<string>, lib: UrlLib, head: string -> Option<string>): (r: Option<string>)
    ensures r.None? <==> !IsBlankHref(href) && !IsScriptHref(href.value) && lib.parse(href.value).None?
    ensures r.Some? ==>
      || r.value in Sentinels
      || (href.Some? && (r.value == href.value || r.value == PdfPrefix + href.value || head(href.value) == r))
      || (href.Some? && lib.parse(href.value).Some? && UnquotedParam(r.value, lib.parse(href.value).value.query, lib))
  {
    if IsBlankHref(href) then Some(NoLinkFound)
    else if IsScriptHref(href.value) then Some(NoProductUrlFound)
    else
      var h := href.value;
      match lib.parse(h)
      case None => None
      case Some(u) =>
        if IsGoogleRedirect(u) then Some(FollowRedirect(u, lib))
        else if IsGoogleSearch(u) then Some(GoogleSearchLink)
        else Some(ClassifyOther(h, u, lib, head))
  }

  /** A missing, empty, blank or "No link found" href gives "No link found", whatever the network says. */
  lemma BlankHrefGivesNoLink(href: Option<string>, lib: UrlLib, head: string -> Option<string>)
    requires href.None? || href == Some("") || href == Some(NoLinkFound)
      || (forall i :: 0 <= i < |href.value| ==> IsSpace(href.value[i]))
    ensures ExtractProductUrl(href, lib, head) == Some(NoLinkFound)
  {
    if href.Some? {
      StripEmptyIffBlank(href.value);
    }
  }

  /** A `javascript:`, `#` or `data:` href gives "No product URL found", whatever the network says. */
  lemma ScriptHrefGivesNoProduct(h: string, lib: UrlLib, head: string -> Option<string>)
    requires !IsBlankHref(Some(h)) && IsScriptHref(h)
    ensures ExtractProductUrl(Some(h), lib, head) == Some(NoProductUrlFound)
  {
  }

  /**
   * A Google `/url` redirect is decided by its `url` parameter, else its `q`
   * parameter: the unquoted target when it starts with "http", otherwise
   * "No product URL found in redirect"; the network is not consulted.
   */
  lemma GoogleRedirectRule(h: string, lib: UrlLib, head: string -> Option<string>)
    requires !IsBlankHref(Some(h)) && !IsScriptHref(h)
    requires lib.parse(h).Some? && IsGoogleRedirect(lib.parse(h).value)
    ensures var q := lib.parse(h).value.query;
      var target := if Truthy(FirstParam(q, "url")) then FirstParam(q, "url") else FirstParam(q, "q");
      ExtractProductUrl(Some(h), lib, head)
        == Some(if target.Some? && StartsWith(target.value, "http") then lib.unquote(target.value)
                else NoUrlInRedirect)
  {
  }

  /** A Google `/search` link is refused, whatever the network says. */
  lemma GoogleSearchRule(h: string, lib: UrlLib, head: string -> Option<string>)
    requires !IsBlankHref(Some(h)) && !IsScriptHref(h)
    requires lib.parse(h).Some? && !IsGoogleRedirect(lib.parse(h).value) && IsGoogleSearch(lib.parse(h).value)
    ensures ExtractProductUrl(Some(h), lib, head) == Some(GoogleSearchLink)
  {
  }

  /**
   * For a shopping, product or merchant href with a non-empty `merchant_url`
   * or `pdp_url` parameter, the result is that parameter unquoted, and
   * `merchant_url` is preferred.
   */
  lemma MerchantParamRule(h: string, lib: UrlLib, head: string -> Option<string>)
    requires !IsBlankHref(Some(h)) && !IsScriptHref(h)
    requires lib.parse(h).Some? && !IsGoogleRedirect(lib.parse(h).value) && !IsGoogleSearch(lib.parse(h).value)
    requires MentionsShopping(h)
    ensures var q := lib.parse(h).value.query;
      && (Truthy(FirstParam(q, "merchant_url")) ==>
            ExtractProductUrl(Some(h), lib, head) == Some(lib.unquote(q["merchant_url"][0])))
      && (!Truthy(FirstParam(q, "merchant_url")) && Truthy(FirstParam(q, "pdp_url")) ==>
            ExtractProductUrl(Some(h), lib, head) == Some(lib.unquote(q["pdp_url"][0])))
  {
  }

  /** A link ending in `.pdf` (in any letter case) is reported as a catalog, without probing the network. */
  lemma PdfRule(h: string, lib: UrlLib, head: string -> Option<string>)
    requires !IsBlankHref(Some(h)) && !IsScriptHref(h)
    requires lib.parse(h).Some? && !IsGoogleRedirect(lib.parse(h).value) && !IsGoogleSearch(lib.parse(h).value)
    requires !(MentionsShopping(h) && Truthy(MerchantTarget(lib.parse(h).value)))
    requires EndsWith(Lower(h), ".pdf")
    ensures ExtractProductUrl(Some(h), lib, head) == Some(PdfPrefix + h)
  {
  }

  /**
   * The last branches: a HEAD probe that ends on a non-Google URL gives that URL;
   * otherwise a non-Google host passes the href through unchanged, and a
   * Google host gives "No product URL found".
   */
  lemma FallThroughRule(h: string, lib: UrlLib, head: string -> Option<string>)
    requires !IsBlankHref(Some(h)) && !IsScriptHref(h)
    requires lib.parse(h).Some? && !IsGoogleRedirect(lib.parse(h).value) && !IsGoogleSearch(lib.parse(h).value)
    requires !(MentionsShopping(h) && Truthy(MerchantTarget(lib.parse(h).value)))
    requires !EndsWith(Lower(h), ".pdf")
    ensures match head(h)
      case Some(f) =>
        !Contains(f, "google.com") ==> ExtractProductUrl(Some(h), lib, head) == Some(f)
      case None => true
    ensures ProbeResult(h, head).None? ==>
      ExtractProductUrl(Some(h), lib, head)
        == Some(if Contains(lib.parse(h).value.netloc, "google.com") then NoProductUrlFound else h)
  {
  }

  /**
   * The network is consulted by the last branches only: two probes that
   * agree on `h` give the same result, and any two probes give the same
   * result when an earlier branch decides.
   */
  lemma NetworkOnlyAtTheEnd(href: Option<string>, lib: UrlLib, head1: string -> Option<string>, head2: string -> Option<string>)
    requires IsBlankHref(href) || IsScriptHref(href.value) || lib.parse(href.value).None?
      || IsGoogleRedirect(lib.parse(href.value).value) || IsGoogleSearch(lib.parse(href.value).value)
      || (MentionsShopping(href.value) && Truthy(MerchantTarget(lib.parse(href.value).value)))
      || EndsWith(Lower(href.value), ".pdf")
      || head1(href.value) == head2(href.value)
    ensures ExtractProductUrl(href, lib, head1) == ExtractProductUrl(href, lib, head2)
  {
  }

  /** A `.pdf` href never yields a URL that starts with "http", so it is never chosen as a product page. */
  lemma PdfResultIsNotHttp(h: string)
    ensures !StartsWith(PdfPrefix + h, "http")
  {
    assert (PdfPrefix + h)[0] == 'P';
  }

  /** None of the sentinels starts with "http". */
  lemma SentinelsAreNotHttp(s: string)
    requires s in Sentinels
    ensures !StartsWith(s, "http")
  {
    assert s[0] == 'N';
  }
}

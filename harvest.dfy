/**
 * `scrape_product_images`: the set of image URLs harvested from a product
 * page, the extension filter, the save names and the retention loop that
 * keeps a downloaded image only when it is similar enough to the query
 * image.
 *
 * The page is given as the `<img>` attribute triples of the three passes
 * (the first parse, the parse after hovering, and one list per fallback
 * selector). The download and the comparator are oracles, and the save
 * folder is the set of file names it holds.
 */
module ImageHarvest {
  import opened Wrappers
  import opened Text
  import opened Html
  import opened Scripts

  // ----- the URL set -----

  /**
   * The URL one `<img>` adds to the set: its zoom image when that mentions
   * "http", else its `src`, else its `data-src`, each of the last two only
   * when it mentions "http" and is not a data URL.
   */
  function Pick(img: ImgAttrs): (r: Option<string>)
    ensures r.Some? ==> Contains(r.value, "http")
    ensures r.Some? && r != img.zoom ==> !StartsWith(r.value, "data:")
    ensures r.Some? ==> r == img.zoom || r == img.src || r == img.dataSrc
    ensures r != img.zoom ==> !MentionsHttp(img.zoom)
    ensures r != img.zoom && r != img.src ==> !HttpNotData(img.src)
    ensures r.None? ==> !HttpNotData(img.dataSrc)
    ensures !MentionsHttp(img.zoom) && HttpNotData(img.src) ==> r == img.src
    ensures r.None? ==> !MentionsHttp(img.zoom) && !HttpNotData(img.src)
  {
    if MentionsHttp(img.zoom) then img.zoom
    else if HttpNotData(img.src) then img.src
    else if HttpNotData(img.dataSrc) then img.dataSrc
    else None
  }

  /** The URLs a list of `<img>` elements adds to the set. */
  function Picks(tags: seq<ImgAttrs>): set<string>
    decreases |tags|
  {
    if tags == [] then {}
    else
      var last := Pick(tags[|tags| - 1]);
      Picks(tags[..|tags| - 1]) + (if last.Some? then {last.value} else {})
  }

  /** Each element adds at most one URL, every URL comes from an element, and every element's pick is added. */
  lemma {:induction false} PicksMembers(tags: seq<ImgAttrs>)
    ensures |Picks(tags)| <= |tags|
    ensures forall u :: u in Picks(tags) <==> exists j :: 0 <= j < |tags| && Pick(tags[j]) == Some(u)
    decreases |tags|
  {
    if tags != [] {
      var init := tags[..|tags| - 1];
      PicksMembers(init);
      assert forall j :: 0 <= j < |init| ==> init[j] == tags[j];
      forall u | exists j :: 0 <= j < |tags| && Pick(tags[j]) == Some(u)
        ensures u in Picks(tags)
      {
        var j :| 0 <= j < |tags| && Pick(tags[j]) == Some(u);
        if j < |init| {
          assert Pick(init[j]) == Some(u);
        }
      }
    }
  }

  /** Every harvested URL mentions "http". */
  lemma PicksMentionHttp(tags: seq<ImgAttrs>)
    ensures forall u :: u in Picks(tags) ==> Contains(u, "http")
  {
    PicksMembers(tags);
  }

  /** One pass over a list of `<img>` elements, adding each one's pick to the set. */
  method AddPicks(urls: set<string>, tags: seq<ImgAttrs>) returns (result: set<string>)
    ensures result == urls + Picks(tags)
  {
    result := urls;
    for k := 0 to |tags|
      invariant result == urls + Picks(tags[..k])
    {
      var src := tags[k].src;
      var dataSrc := tags[k].dataSrc;
      var zoom := tags[k].zoom;
      if zoom.Some? && zoom.value != "" && Contains(zoom.value, "http") {
        result := result + {zoom.value};
      } else if src.Some? && src.value != "" && Contains(src.value, "http") && !StartsWith(src.value, "data:") {
        result := result + {src.value};
      } else if dataSrc.Some? && dataSrc.value != "" && Contains(dataSrc.value, "http") && !StartsWith(dataSrc.value, "data:") {
        result := result + {dataSrc.value};
      }
      assert tags[..k + 1][..k] == tags[..k];
    }
    assert tags[..|tags|] == tags;
  }

  /** The `<img>` elements of the three passes over a product page. */
  datatype Page = Page(
    initial: seq<ImgAttrs>,          // the first parse of the page source
    afterHover: seq<ImgAttrs>,       // the parse after hovering; empty when the hover pass raises
    fallback: seq<seq<ImgAttrs>>)    // per fallback selector, the elements processed before its pass raises

  function FallbackPicks(groups: seq<seq<ImgAttrs>>): set<string>
    decreases |groups|
  {
    if groups == [] then {} else FallbackPicks(groups[..|groups| - 1]) + Picks(groups[|groups| - 1])
  }

  /** `image_urls` once the three passes are done. */
  function Harvest(page: Page): set<string> {
    Picks(page.initial) + Picks(page.afterHover) + FallbackPicks(page.fallback)
  }

  /** A URL is harvested exactly when some `<img>` of some pass picks it. */
  lemma {:induction false} FallbackMembers(groups: seq<seq<ImgAttrs>>)
    ensures forall u :: u in FallbackPicks(groups) <==> exists g :: 0 <= g < |groups| && u in Picks(groups[g])
    decreases |groups|
  {
    if groups != [] {
      var init := groups[..|groups| - 1];
      FallbackMembers(init);
      assert forall g :: 0 <= g < |init| ==> init[g] == groups[g];
    }
  }

  /** Every harvested URL mentions "http" and was picked from some `<img>` of the page. */
  lemma HarvestSound(page: Page, u: string)
    requires u in Harvest(page)
    ensures Contains(u, "http")
    ensures (exists j :: 0 <= j < |page.initial| && Pick(page.initial[j]) == Some(u))
         || (exists j :: 0 <= j < |page.afterHover| && Pick(page.afterHover[j]) == Some(u))
         || (exists g, j :: 0 <= g < |page.fallback| && 0 <= j < |page.fallback[g]| && Pick(page.fallback[g][j]) == Some(u))
  {
    PicksMembers(page.initial);
    PicksMembers(page.afterHover);
    FallbackMembers(page.fallback);
    if u in FallbackPicks(page.fallback) {
      var g :| 0 <= g < |page.fallback| && u in Picks(page.fallback[g]);
      PicksMembers(page.fallback[g]);
    }
  }

  /** The three passes of `scrape_product_images` that fill `image_urls`. */
  method CollectImageUrls(page: Page) returns (urls: set<string>)
    ensures urls == Harvest(page)
  {
    urls := AddPicks({}, page.initial);
    urls := AddPicks(urls, page.afterHover);
    var fallbackUrls: set<string> := {};
    for g := 0 to |page.fallback|
      invariant fallbackUrls == FallbackPicks(page.fallback[..g])
    {
      fallbackUrls := AddPicks(fallbackUrls, page.fallback[g]);
      assert page.fallback[..g + 1][..g] == page.fallback[..g];
    }
    assert page.fallback[..|page.fallback|] == page.fallback;
    urls := urls + fallbackUrls;
  }

  // ----- iteration order -----

  /** `order` lists every element of `s` exactly once: the order in which Python iterates a set. */
  ghost predicate IsEnumeration(order: seq<string>, s: set<string>) {
    && (forall i, j :: 0 <= i < j < |order| ==> order[i] != order[j])
    && (forall u :: u in order <==> u in s)
  }

  /**
   * Some enumeration of `s`. Python's iteration order depends on string
   * hashes; the model leaves it open, and every property below holds for
   * every order.
   */
  method Enumerate(s: set<string>) returns (order: seq<string>)
    ensures IsEnumeration(order, s)
    ensures |order| == |s|
  {
    order := [];
    var rest := s;
    while rest != {}
      invariant rest !! set u | u in order
      invariant forall u :: u in s <==> u in order || u in rest
      invariant forall i, j :: 0 <= i < j < |order| ==> order[i] != order[j]
      invariant |order| + |rest| == |s|
      decreases |rest|
    {
      var u :| u in rest;
      order := order + [u];
      rest := rest - {u};
    }
  }

  // ----- extension and save name -----

  /** `url.split('.')[-1].split('?')[0]` */
  function FileExtension(url: string): (ext: string)
    ensures '.' !in ext && '?' !in ext
  {
    BeforeFirst(AfterLast(url, '.'), '?')
  }

  /** The extension of a URL `stem.ext?query` is `ext`, when neither `ext` nor the query has a '.'. */
  lemma ExtensionOfUrl(stem: string, ext: string, query: string)
    requires '.' !in ext && '?' !in ext && '.' !in query
    requires query == [] || query[0] == '?'
    ensures FileExtension(stem + "." + ext + query) == ext
  {
    assert stem + "." + ext + query == stem + ['.'] + (ext + query);
    AfterLastJoin(stem, '.', ext + query);
    IndexOfJoin(ext, query, '?');
    assert (ext + query)[..|ext|] == ext;
  }

  const AllowedExtensions: set<string> := {"jpg", "jpeg", "png", "webp"}

  /** `file_extension.lower() in ['jpg', 'jpeg', 'png', 'webp']` */
  predicate AllowedExtension(ext: string) {
    Lower(ext) in AllowedExtensions
  }

  /** The filter ignores case, and an accepted extension is three or four ASCII letters. */
  lemma AllowedExtensionShape(ext: string)
    ensures AllowedExtension(ext) <==> AllowedExtension(Lower(ext))
    ensures AllowedExtension(ext) ==> (|ext| == 3 || |ext| == 4) && forall i :: 0 <= i < |ext| ==> IsAsciiLetter(ext[i])
  {
    LowerIdempotent(ext);
    if AllowedExtension(ext) {
      var l := Lower(ext);
      assert forall w, j :: w in AllowedExtensions && 0 <= j < |w| ==> 'a' <= w[j] <= 'z';
      forall i | 0 <= i < |ext|
        ensures IsAsciiLetter(ext[i])
      {
        assert l[i] == LowerChar(ext[i]);
      }
    }
  }

  const SavePrefix := "product_image_"

  /** `f"product_image_{i}.{file_extension}"` */
  function SaveName(i: nat, ext: string): (name: string)
    ensures StartsWith(name, SavePrefix)
  {
    SavePrefix + FromNat(i) + "." + ext
  }

  /** Two save names are equal only for the same index and extension. */
  lemma SaveNameInjective(i: nat, e1: string, j: nat, e2: string)
    requires SaveName(i, e1) == SaveName(j, e2)
    ensures i == j && e1 == e2
  {
    var a, b := FromNat(i), FromNat(j);
    var n1, n2 := SaveName(i, e1), SaveName(j, e2);
    assert n1[|SavePrefix|..] == a + "." + e1;
    assert n2[|SavePrefix|..] == b + "." + e2;
    assert '.' !in a by {
      assert forall k :: 0 <= k < |a| ==> IsDigit(a[k]);
    }
    assert '.' !in b by {
      assert forall k :: 0 <= k < |b| ==> IsDigit(b[k]);
    }
    IndexOfJoin(a, "." + e1, '.');
    IndexOfJoin(b, "." + e2, '.');
    var t := a + ("." + e1);
    assert t == n1[|SavePrefix|..] == n2[|SavePrefix|..] == b + ("." + e2);
    assert a == t[..|a|] && b == t[..|b|];
    assert |a| == |b|;
    FromNatInjective(i, j);
    assert e1 == t[|a| + 1..] && e2 == t[|b| + 1..];
  }

  /** The text after the last '.' of a save name is its extension when that has no '.': the `data:image/...` type. */
  lemma SaveNameExtension(i: nat, ext: string)
    requires '.' !in ext
    ensures AfterLast(SaveName(i, ext), '.') == ext
  {
    assert SaveName(i, ext) == (SavePrefix + FromNat(i)) + ['.'] + ext;
    AfterLastJoin(SavePrefix + FromNat(i), '.', ext);
  }

  /** The query image's temporary file is never a save name. */
  lemma TempImageIsNoSaveName(i: nat, ext: string)
    ensures SaveName(i, ext) != "temp_image.jpg"
  {
    StartsWithHead(SaveName(i, ext), SavePrefix);
  }

  // ----- download and retention -----

  /** `download_image`: refuses a URL not starting with "http", else asks the download oracle. */
  predicate DownloadImage(url: string, download: string -> bool) {
    StartsWith(url, "http") && download(url)
  }

  /** A URL that does not start with "http" is never fetched; any other is saved exactly when the fetch succeeds. */
  lemma DownloadGate(url: string, download: string -> bool)
    ensures !StartsWith(url, "http") ==> !DownloadImage(url, download)
    ensures StartsWith(url, "http") ==> (DownloadImage(url, download) <==> download(url))
  {
  }

  /** A file is kept when its similarity score is at least this. */
  const Threshold: real := 0.85

  /** The folder's names while the loop runs, or when a comparison gave `None` and `None >= 0.85` raised. */
  datatype Progress = Running(files: set<string>) | Aborted(files: set<string>)

  /**
   * `compare_images(image_path, save_path)`: `None` when the file is not in
   * the folder (loading it fails), else the comparator's verdict on the file
   * stored under that name.
   */
  function Compare(name: string, files: set<string>, score: string -> Option<real>): (r: Option<real>)
    ensures name !in files ==> r.None?
  {
    if name in files then score(name) else None
  }

  /** The retention decision for a file that is now compared. */
  function Judge(name: string, files: set<string>, score: string -> Option<real>): (p: Progress)
    ensures p.Aborted? <==> Compare(name, files, score).None?
    ensures p.Running? ==> p.files == if Compare(name, files, score).value >= Threshold then files else files - {name}
    ensures p.Aborted? ==> p.files == files
  {
    match Compare(name, files, score)
    case None => Aborted(files)
    case Some(s) => if s >= Threshold then Running(files) else Running(files - {name})
  }

  /** What one turn of the loop knows about its URL: the save name, whether the extension passes, whether the download succeeds. */
  datatype Turn = Turn(name: string, eligible: bool, saved: bool)

  /** The turn for URL number `i` (counting from 1, as `enumerate(image_urls, 1)` does). */
  function TurnOf(i: nat, url: string, download: string -> bool): Turn {
    var ext := FileExtension(url);
    Turn(SaveName(i, ext), AllowedExtension(ext), DownloadImage(url, download))
  }

  /** The turns of the loop over `order`. */
  function Turns(order: seq<string>, download: string -> bool): (ts: seq<Turn>)
    ensures |ts| == |order|
    ensures forall k :: 0 <= k < |order| ==> ts[k] == TurnOf(k + 1, order[k], download)
  {
    seq(|order|, k requires 0 <= k < |order| => TurnOf(k + 1, order[k], download))
  }

  /** No two turns share a save name. */
  predicate DistinctNames(ts: seq<Turn>) {
    forall j, k :: 0 <= j < k < |ts| ==> ts[j].name != ts[k].name
  }

  /** The indices differ, so the save names of the turns differ, whatever the URLs. */
  lemma TurnNamesDistinct(order: seq<string>, download: string -> bool)
    ensures DistinctNames(Turns(order, download))
  {
    var ts := Turns(order, download);
    forall j, k | 0 <= j < k < |ts|
      ensures ts[j].name != ts[k].name
    {
      if ts[j].name == ts[k].name {
        SaveNameInjective(j + 1, FileExtension(order[j]), k + 1, FileExtension(order[k]));
      }
    }
  }

  /**
   * One turn of `for i, url in enumerate(image_urls, 1)`. main.py compares
   * only after a successful download; testing/online_scrape.py compares
   * whatever the download did.
   */
  function Step(v: Variant, t: Turn, files: set<string>, score: string -> Option<real>): Progress {
    if !t.eligible then Running(files)
    else
      var stored := if t.saved then files + {t.name} else files;
      match v
      case App => if t.saved then Judge(t.name, stored, score) else Running(files)
      case Standalone => Judge(t.name, stored, score)
  }

  /** The loop over the turns, stopping at the first abort. */
  function Run(v: Variant, ts: seq<Turn>, files: set<string>, score: string -> Option<real>): Progress
    decreases |ts|
  {
    if ts == [] then Running(files)
    else
      match Step(v, ts[0], files, score)
      case Aborted(f) => Aborted(f)
      case Running(f) => Run(v, ts[1..], f, score)
  }

  /** One turn only touches its own save name. */
  lemma StepFrame(v: Variant, t: Turn, files: set<string>, score: string -> Option<real>, n: string)
    requires n != t.name
    ensures n in Step(v, t, files, score).files <==> n in files
  {
  }

  /** The loop only touches the save names of its own turns. */
  lemma {:induction false} RunFrame(v: Variant, ts: seq<Turn>, files: set<string>,
                                    score: string -> Option<real>, n: string)
    requires forall k :: 0 <= k < |ts| ==> n != ts[k].name
    ensures n in Run(v, ts, files, score).files <==> n in files
    decreases |ts|
  {
    if ts != [] {
      StepFrame(v, ts[0], files, score, n);
      var st := Step(v, ts[0], files, score);
      if st.Running? {
        assert forall k :: 0 <= k < |ts[1..]| ==> ts[1..][k] == ts[k + 1];
        RunFrame(v, ts[1..], st.files, score, n);
      }
    }
  }

  /** Only `product_image_...` files are touched: the query image and any other file stay as they were. */
  lemma RunKeepsOtherFiles(v: Variant, order: seq<string>, files: set<string>,
                           download: string -> bool, score: string -> Option<real>, n: string)
    requires !StartsWith(n, SavePrefix)
    ensures n in Run(v, Turns(order, download), files, score).files <==> n in files
  {
    RunFrame(v, Turns(order, download), files, score, n);
  }

  /** Whether a turn is compared at all. */
  predicate Compared(v: Variant, t: Turn) {
    t.eligible && (v == App ==> t.saved)
  }

  /**
   * Whether the comparison of a turn gives `None`. Its file is there after a
   * successful download, or, in testing/online_scrape.py, when an earlier
   * run left it in the folder.
   */
  predicate CompareFails(v: Variant, t: Turn, files: set<string>, score: string -> Option<real>) {
    Compared(v, t) && (score(t.name).None? || (!t.saved && t.name !in files))
  }

  /** The loop aborts exactly when some turn's comparison gives `None`. */
  lemma {:induction false} AbortIffCompareFails(v: Variant, ts: seq<Turn>, files: set<string>,
                                                score: string -> Option<real>)
    requires DistinctNames(ts)
    ensures Run(v, ts, files, score).Aborted? <==> exists k :: 0 <= k < |ts| && CompareFails(v, ts[k], files, score)
    decreases |ts|
  {
    if ts != [] {
      var st := Step(v, ts[0], files, score);
      assert st.Aborted? <==> CompareFails(v, ts[0], files, score);
      if st.Running? {
        var rest := ts[1..];
        assert forall k :: 0 <= k < |rest| ==> rest[k] == ts[k + 1];
        AbortIffCompareFails(v, rest, st.files, score);
        forall k | 0 <= k < |rest|
          ensures CompareFails(v, rest[k], st.files, score) <==> CompareFails(v, ts[k + 1], files, score)
        {
          StepFrame(v, ts[0], files, score, rest[k].name);
        }
        if exists k :: 0 <= k < |ts| && CompareFails(v, ts[k], files, score) {
          var k :| 0 <= k < |ts| && CompareFails(v, ts[k], files, score);
          assert CompareFails(v, rest[k - 1], st.files, score);
        }
      }
    }
  }

  /**
   * When the loop finishes, each compared file is in the folder exactly
   * when its score reached the threshold.
   */
  lemma {:induction false} RunRetains(v: Variant, ts: seq<Turn>, files: set<string>,
                                      score: string -> Option<real>, k: nat)
    requires DistinctNames(ts) && Run(v, ts, files, score).Running?
    requires k < |ts| && Compared(v, ts[k])
    ensures score(ts[k].name).Some?
    ensures ts[k].name in Run(v, ts, files, score).files <==> score(ts[k].name).value >= Threshold
    decreases |ts|
  {
    var st := Step(v, ts[0], files, score);
    var rest := ts[1..];
    assert forall j :: 0 <= j < |rest| ==> rest[j] == ts[j + 1];
    if k == 0 {
      RunFrame(v, rest, st.files, score, ts[0].name);
    } else {
      RunRetains(v, rest, st.files, score, k - 1);
    }
  }

  /**
   * A file that the finished loop added to the folder was saved by one of
   * its turns and scored at least the threshold.
   */
  lemma {:induction false} RunAddsOnlyKept(v: Variant, ts: seq<Turn>, files: set<string>,
                                           score: string -> Option<real>, n: string)
    requires DistinctNames(ts) && Run(v, ts, files, score).Running?
    requires n in Run(v, ts, files, score).files && n !in files
    ensures exists k :: 0 <= k < |ts| && ts[k].name == n && ts[k].eligible && ts[k].saved
                        && score(n).Some? && score(n).value >= Threshold
    decreases |ts|
  {
    var st := Step(v, ts[0], files, score);
    var rest := ts[1..];
    assert forall j :: 0 <= j < |rest| ==> rest[j] == ts[j + 1];
    if n == ts[0].name {
      RunFrame(v, rest, st.files, score, n);
      assert ts[0].name == n;
    } else {
      StepFrame(v, ts[0], files, score, n);
      RunAddsOnlyKept(v, rest, st.files, score, n);
      var k :| 0 <= k < |rest| && rest[k].name == n && rest[k].eligible && rest[k].saved;
      assert ts[k + 1].name == n;
    }
  }

  /** The enumerate loop of `scrape_product_images`, over the folder's names. */
  method RetainSimilar(v: Variant, order: seq<string>, files0: set<string>,
                       download: string -> bool, score: string -> Option<real>)
    returns (p: Progress)
    ensures p == Run(v, Turns(order, download), files0, score)
  {
    ghost var ts := Turns(order, download);
    var files := files0;
    var k := 0;
    while k < |order|
      invariant 0 <= k <= |order|
      invariant Run(v, ts, files0, score) == Run(v, ts[k..], files, score)
    {
      ghost var st := Step(v, ts[k], files, score);
      assert ts[k..][1..] == ts[k + 1..];
      var i := k + 1;
      var url := order[k];
      var ext := FileExtension(url);
      var allowed := AllowedExtension(ext);
      var name := SaveName(i, ext);
      var saved := DownloadImage(url, download);
      assert ts[k] == Turn(name, allowed, saved);
      if allowed {
        if saved {
          files := files + {name};
        }
        if v == Standalone || saved {
          var s := if name in files then score(name) else None;
          if s.None? {
            // `None >= 0.85` raises TypeError: `scrape_product_images` returns [].
            assert st == Aborted(files);
            return Aborted(files);
          }
          if !(s.value >= Threshold) {
            files := files - {name};
          }
        }
      }
      assert st == Running(files);
      k := k + 1;
    }
    return Running(files);
  }

  /**
   * `scrape_product_images` once the page is loaded: the enumeration order,
   * the returned list and the folder's names afterwards.
   */
  method ScrapeProductImages(v: Variant, page: Page, files0: set<string>,
                             download: string -> bool, score: string -> Option<real>)
    returns (order: seq<string>, listing: seq<string>, files: set<string>)
    ensures IsEnumeration(order, Harvest(page))
    ensures listing == if Run(v, Turns(order, download), files0, score).Running? then order else []
    ensures files == Run(v, Turns(order, download), files0, score).files
  {
    var urls := CollectImageUrls(page);
    order := Enumerate(urls);
    var p := RetainSimilar(v, order, files0, download, score);
    listing := if p.Running? then order else [];
    files := p.files;
  }

  /**
   * The two scripts part ways on a failed download: with one URL of an
   * accepted extension that does not download and an empty folder, main.py
   * skips it and returns the URL, while testing/online_scrape.py compares a
   * missing file and returns [].
   */
  lemma UngatedCompareDiverges(url: string, download: string -> bool, score: string -> Option<real>)
    requires AllowedExtension(FileExtension(url)) && !download(url)
    ensures Run(App, Turns([url], download), {}, score) == Running({})
    ensures Run(Standalone, Turns([url], download), {}, score).Aborted?
  {
    var t := Turns([url], download)[0];
    assert t.eligible && !t.saved;
  }
}

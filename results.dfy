/**
 * `extract_exact_matches_results_targeted`: one result record per
 * "Exact matches" container, and the selection of the first valid product
 * in `reverse_image_search_and_scrape`.
 *
 * The browser is not modelled: each container is given as what the
 * scraper's element lookups return (the link's `href`, the raw texts of the
 * title, size and source elements, and the `<img>` elements each image
 * selector finds), with `None` where a lookup raises.
 */
module SearchResults {
  import opened Wrappers
  import opened Text
  import opened Html
  import opened ProductUrl
  import opened Scripts


  /** One result container, as the element lookups see it. */
  datatype Container = Container(
    href: Option<string>,                // the `href` of `a.ngTNl.ggLgoc`; None when missing
    titleText: Option<string>,           // the text of the title element; None when the lookup raises
    fallbackTexts: seq<Option<string>>,  // the texts of `h3`, `div[role='heading']`, `.wyccme div`
    imageGroups: seq<seq<ImgAttrs>>,     // the `<img>` elements found by each image selector, in order
    sizeText: Option<string>,            // the text of the size element
    sourceText: Option<string>)          // the text of the source-name element

  datatype Metadata = Metadata(size: Option<string>, sourceName: Option<string>)

  datatype Record = Record(title: string, imageUrl: string, productUrl: string, source: string, metadata: Metadata)

  const NoProductLinkFound := "No product link found"
  const NoTitleFound := "No title found"
  const NoImageFound := "No image found"
  const UnknownSource := "Unknown source"
  const MaxContainers := 20

  // ----- product URL -----

  /** The link is followed only when its `href` is present, non-empty and not a script, anchor or data link. */
  function ProductUrlOf(c: Container, lib: UrlLib, head: string -> Option<string>): string {
    if c.href.Some? && c.href.value != "" && !IsScriptHref(c.href.value)
    then ExtractProductUrl(c.href, lib, head).GetOr(NoProductLinkFound)
    else NoProductLinkFound
  }

  // ----- title -----

  /** A fallback text is accepted when, stripped, it is longer than three characters. */
  predicate LongText(t: Option<string>) {
    t.Some? && |Strip(t.value)| > 3
  }

  /** The first accepted fallback text, stripped. */
  function FirstLongText(texts: seq<Option<string>>): Option<string> {
    if texts == [] then None
    else if LongText(texts[0]) then Some(Strip(texts[0].value))
    else FirstLongText(texts[1..])
  }

  /** The index of the first accepted fallback text, or the number of texts when none is accepted. */
  function FirstLongIndex(texts: seq<Option<string>>): (k: nat)
    ensures k <= |texts|
    ensures forall j :: 0 <= j < k ==> !LongText(texts[j])
    ensures k < |texts| ==> LongText(texts[k])
  {
    if texts == [] || LongText(texts[0]) then 0
    else
      var k := FirstLongIndex(texts[1..]);
      assert forall j :: 1 <= j < k + 1 ==> texts[j] == texts[1..][j - 1];
      k + 1
  }

  /** `FirstLongText` is the stripped text at `FirstLongIndex`. */
  lemma {:induction false} FirstLongTextAtIndex(texts: seq<Option<string>>)
    ensures var k := FirstLongIndex(texts);
      FirstLongText(texts) == if k < |texts| then Some(Strip(texts[k].value)) else None
  {
    if texts != [] && !LongText(texts[0]) {
      FirstLongTextAtIndex(texts[1..]);
    }
  }

  /** `FirstLongText` picks the first accepted text, and finds nothing only when no text is accepted. */
  lemma FirstLongTextIsFirst(texts: seq<Option<string>>)
    ensures FirstLongText(texts).None? <==> forall k :: 0 <= k < |texts| ==> !LongText(texts[k])
    ensures FirstLongText(texts).Some? ==>
      exists k :: 0 <= k < |texts| && LongText(texts[k])
        && FirstLongText(texts).value == Strip(texts[k].value)
        && forall j :: 0 <= j < k ==> !LongText(texts[j])
  {
    var k := FirstLongIndex(texts);
    FirstLongTextAtIndex(texts);
  }

  /** The title as each script computes it; see the lemmas below for how they differ. */
  function TitleOf(v: Variant, c: Container): string {
    match v
    case App =>
      // main.py: a found but empty title falls back; a missing title does not
      if c.titleText.None? then NoTitleFound
      else if Strip(c.titleText.value) != "" then Strip(c.titleText.value)
      else FirstLongText(c.fallbackTexts).GetOr(Strip(c.titleText.value))
    case Standalone =>
      // testing/online_scrape.py: only a lookup that raises falls back
      if c.titleText.None? then FirstLongText(c.fallbackTexts).GetOr(NoTitleFound)
      else Strip(c.titleText.value)
  }

  /** Scan the fallback texts in order and stop at the first accepted one. */
  method FallbackTitle(texts: seq<Option<string>>, current: string) returns (title: string)
    ensures title == FirstLongText(texts).GetOr(current)
  {
    title := current;
    var k := 0;
    while k < |texts|
      invariant 0 <= k <= |texts|
      invariant FirstLongText(texts) == FirstLongText(texts[k..])
    {
      if texts[k].Some? {
        var text := Strip(texts[k].value);
        if text != "" && |text| > 3 {
          title := text;
          return;
        }
      }
      assert texts[k..][1..] == texts[k + 1..];
      k := k + 1;
    }
  }

  /** main.py: the fallback texts are read only when the title element is found but empty. */
  lemma AppTitleRule(c: Container)
    ensures c.titleText.None? ==> TitleOf(App, c) == NoTitleFound
    ensures c.titleText.Some? && Strip(c.titleText.value) != "" ==> TitleOf(App, c) == Strip(c.titleText.value)
    ensures c.titleText.Some? && Strip(c.titleText.value) == "" ==>
      (forall k :: 0 <= k < |c.fallbackTexts| ==> !LongText(c.fallbackTexts[k])) ==> TitleOf(App, c) == ""
    ensures c.titleText.Some? && Strip(c.titleText.value) == "" && FirstLongText(c.fallbackTexts).Some? ==>
      exists k :: 0 <= k < |c.fallbackTexts| && LongText(c.fallbackTexts[k])
        && TitleOf(App, c) == Strip(c.fallbackTexts[k].value)
        && forall j :: 0 <= j < k ==> !LongText(c.fallbackTexts[j])
  {
    FirstLongTextIsFirst(c.fallbackTexts);
  }

  /** testing/online_scrape.py: the fallback texts are read only when the title lookup raises. */
  lemma StandaloneTitleRule(c: Container)
    ensures c.titleText.Some? ==> TitleOf(Standalone, c) == Strip(c.titleText.value)
    ensures c.titleText.None? && (forall k :: 0 <= k < |c.fallbackTexts| ==> !LongText(c.fallbackTexts[k]))
      ==> TitleOf(Standalone, c) == NoTitleFound
    ensures c.titleText.None? && FirstLongText(c.fallbackTexts).Some? ==>
      exists k :: 0 <= k < |c.fallbackTexts| && LongText(c.fallbackTexts[k])
        && TitleOf(Standalone, c) == Strip(c.fallbackTexts[k].value)
        && forall j :: 0 <= j < k ==> !LongText(c.fallbackTexts[j])
  {
    FirstLongTextIsFirst(c.fallbackTexts);
  }

  /** A container with no title element but a usable heading `h`: only testing/online_scrape.py reads the heading. */
  lemma MissingTitleDiverges(h: string)
    requires |h| > 3 && !IsSpace(h[0]) && !IsSpace(h[|h| - 1])
    ensures var c := Container(None, None, [Some(h)], [], None, None);
      TitleOf(App, c) == NoTitleFound && TitleOf(Standalone, c) == h
  {
    StripUnpadded(h);
  }

  /** A container whose title element is blank and whose heading `h` is usable: only main.py reads the heading. */
  lemma BlankTitleDiverges(blank: string, h: string)
    requires forall i :: 0 <= i < |blank| ==> IsSpace(blank[i])
    requires |h| > 3 && !IsSpace(h[0]) && !IsSpace(h[|h| - 1])
    ensures var c := Container(None, Some(blank), [Some(h)], [], None, None);
      TitleOf(App, c) == h && TitleOf(Standalone, c) == ""
  {
    StripUnpadded(h);
    StripEmptyIffBlank(blank);
  }

  // ----- image -----

  /** The image choice for one `<img>`: an http `src`, else an http `data-src`, else a long `src`, cut at 100 characters. */
  function ImgChoice(img: ImgAttrs): (r: Option<string>)
    ensures r.Some? ==> r.value != NoImageFound
    ensures HttpNotData(img.src) ==> r == img.src
    ensures !HttpNotData(img.src) && HttpNotData(img.dataSrc) ==> r == img.dataSrc
    ensures !HttpNotData(img.src) && !HttpNotData(img.dataSrc) ==>
      r == (if img.src.Some? && |img.src.value| > 50 then
              Some(if |img.src.value| > 100 then img.src.value[..100] + "..." else img.src.value)
            else None)
  {
    if HttpNotData(img.src) then
      MentionsHttpHasH(img.src.value);
      assert 'h' !in NoImageFound;
      img.src
    else if HttpNotData(img.dataSrc) then
      MentionsHttpHasH(img.dataSrc.value);
      assert 'h' !in NoImageFound;
      img.dataSrc
    else if img.src.Some? && |img.src.value| > 50 then
      Some(if |img.src.value| > 100 then img.src.value[..100] + "..." else img.src.value)
    else None
  }

  /** The choice of the first `<img>` in the list that yields one. */
  function FirstChoice(imgs: seq<ImgAttrs>): Option<string> {
    if imgs == [] then None
    else if ImgChoice(imgs[0]).Some? then ImgChoice(imgs[0])
    else FirstChoice(imgs[1..])
  }

  /** The choice from the first selector whose elements yield one. */
  function GroupsChoice(groups: seq<seq<ImgAttrs>>): Option<string> {
    if groups == [] then None
    else if FirstChoice(groups[0]).Some? then FirstChoice(groups[0])
    else GroupsChoice(groups[1..])
  }

  function ImageUrlOf(groups: seq<seq<ImgAttrs>>): string {
    GroupsChoice(groups).GetOr(NoImageFound)
  }

  /** The index of the first `<img>` that yields a choice, or the number of elements when none does. */
  function FirstChoiceIndex(imgs: seq<ImgAttrs>): (j: nat)
    ensures j <= |imgs|
    ensures forall i :: 0 <= i < j ==> ImgChoice(imgs[i]).None?
    ensures j < |imgs| ==> ImgChoice(imgs[j]).Some?
  {
    if imgs == [] || ImgChoice(imgs[0]).Some? then 0
    else
      var j := FirstChoiceIndex(imgs[1..]);
      assert forall i :: 1 <= i < j + 1 ==> imgs[i] == imgs[1..][i - 1];
      j + 1
  }

  /** `FirstChoice` is the choice of the element at `FirstChoiceIndex`. */
  lemma {:induction false} FirstChoiceAtIndex(imgs: seq<ImgAttrs>)
    ensures var j := FirstChoiceIndex(imgs);
      FirstChoice(imgs) == if j < |imgs| then ImgChoice(imgs[j]) else None
  {
    if imgs != [] && ImgChoice(imgs[0]).None? {
      FirstChoiceAtIndex(imgs[1..]);
    }
  }

  /** The index of the first selector whose elements yield a choice, or the number of selectors when none does. */
  function GroupsChoiceIndex(groups: seq<seq<ImgAttrs>>): (g: nat)
    ensures g <= |groups|
    ensures forall h :: 0 <= h < g ==> FirstChoice(groups[h]).None?
    ensures g < |groups| ==> FirstChoice(groups[g]).Some?
  {
    if groups == [] || FirstChoice(groups[0]).Some? then 0
    else
      var g := GroupsChoiceIndex(groups[1..]);
      assert forall h :: 1 <= h < g + 1 ==> groups[h] == groups[1..][h - 1];
      g + 1
  }

  /** `GroupsChoice` is the choice of the selector at `GroupsChoiceIndex`. */
  lemma {:induction false} GroupsChoiceAtIndex(groups: seq<seq<ImgAttrs>>)
    ensures var g := GroupsChoiceIndex(groups);
      GroupsChoice(groups) == if g < |groups| then FirstChoice(groups[g]) else None
  {
    if groups != [] && FirstChoice(groups[0]).None? {
      GroupsChoiceAtIndex(groups[1..]);
    }
  }

  /**
   * `FirstChoice` finds nothing exactly when no `<img>` yields a choice, and
   * otherwise returns the choice of the first element that yields one.
   */
  lemma FirstChoiceFound(imgs: seq<ImgAttrs>)
    ensures FirstChoice(imgs).None? <==> forall j :: 0 <= j < |imgs| ==> ImgChoice(imgs[j]).None?
    ensures FirstChoice(imgs).Some? ==>
      exists j :: 0 <= j < |imgs| && ImgChoice(imgs[j]) == FirstChoice(imgs)
        && forall i :: 0 <= i < j ==> ImgChoice(imgs[i]).None?
  {
    var j := FirstChoiceIndex(imgs);
    FirstChoiceAtIndex(imgs);
  }

  /**
   * The image URL is "No image found" exactly when no `<img>` of any selector
   * yields a choice; otherwise it is the choice of the first yielding `<img>`
   * of the first selector that has one.
   */
  lemma ImageUrlIsFirstChoice(groups: seq<seq<ImgAttrs>>)
    ensures ImageUrlOf(groups) == NoImageFound <==>
      forall g, j :: 0 <= g < |groups| && 0 <= j < |groups[g]| ==> ImgChoice(groups[g][j]).None?
    ensures ImageUrlOf(groups) != NoImageFound ==>
      exists g, j :: 0 <= g < |groups| && 0 <= j < |groups[g]|
        && ImgChoice(groups[g][j]) == Some(ImageUrlOf(groups))
        && (forall i :: 0 <= i < j ==> ImgChoice(groups[g][i]).None?)
        && (forall h, i :: 0 <= h < g && 0 <= i < |groups[h]| ==> ImgChoice(groups[h][i]).None?)
  {
    var g := GroupsChoiceIndex(groups);
    GroupsChoiceAtIndex(groups);
    forall h | 0 <= h < g
      ensures forall i :: 0 <= i < |groups[h]| ==> ImgChoice(groups[h][i]).None?
    {
      FirstChoiceFound(groups[h]);
    }
    if g < |groups| {
      FirstChoiceFound(groups[g]);
      var j :| 0 <= j < |groups[g]| && ImgChoice(groups[g][j]) == FirstChoice(groups[g])
        && forall i :: 0 <= i < j ==> ImgChoice(groups[g][i]).None?;
      assert ImgChoice(groups[g][j]) == Some(ImageUrlOf(groups));
    }
  }

  /** Walk the image selectors and their elements in order, stopping at the first usable one. */
  method SelectImageUrl(groups: seq<seq<ImgAttrs>>) returns (imageUrl: string)
    ensures imageUrl == ImageUrlOf(groups)
  {
    imageUrl := NoImageFound;
    var g := 0;
    while g < |groups|
      invariant 0 <= g <= |groups|
      invariant imageUrl == NoImageFound
      invariant GroupsChoice(groups) == GroupsChoice(groups[g..])
    {
      var imgs := groups[g];
      var j := 0;
      while j < |imgs|
        invariant 0 <= j <= |imgs|
        invariant imageUrl == NoImageFound
        invariant FirstChoice(imgs) == FirstChoice(imgs[j..])
      {
        var src := imgs[j].src;
        var dataSrc := imgs[j].dataSrc;
        if src.Some? && src.value != "" && !StartsWith(src.value, "data:") && Contains(src.value, "http") {
          imageUrl := src.value;
          break;
        } else if dataSrc.Some? && dataSrc.value != "" && !StartsWith(dataSrc.value, "data:") && Contains(dataSrc.value, "http") {
          imageUrl := dataSrc.value;
          break;
        } else if src.Some? && src.value != "" && |src.value| > 50 {
          imageUrl := if |src.value| > 100 then src.value[..100] + "..." else src.value;
          break;
        }
        assert imgs[j..][1..] == imgs[j + 1..];
        j := j + 1;
      }
      if imageUrl != NoImageFound {
        assert GroupsChoice(groups[g..]) == FirstChoice(imgs);
        return;
      }
      assert groups[g..][1..] == groups[g + 1..];
      g := g + 1;
    }
  }

  // ----- source and metadata -----

  /** `source`: the source-name text when non-empty, else the host without "www." for an http URL, else "Unknown source". */
  function SourceOf(productUrl: string, sourceText: Option<string>, lib: UrlLib): string {
    if sourceText.Some? && Strip(sourceText.value) != "" then Strip(sourceText.value)
    else if StartsWith(productUrl, "http") && lib.parse(productUrl).Some?
    then RemoveAll(lib.parse(productUrl).value.netloc, "www.")
    else UnknownSource
  }

  /** `metadata`: `size` when the stripped size text contains 'x', `source_name` when the stripped source text is non-empty. */
  function MetadataOf(c: Container): Metadata {
    Metadata(
      if c.sizeText.Some? && Strip(c.sizeText.value) != "" && 'x' in Strip(c.sizeText.value)
      then Some(Strip(c.sizeText.value)) else None,
      if c.sourceText.Some? && Strip(c.sourceText.value) != ""
      then Some(Strip(c.sourceText.value)) else None)
  }

  /** The record built for one container (before the decision to keep it). */
  function RecordOf(v: Variant, c: Container, lib: UrlLib, head: string -> Option<string>): Record {
    var productUrl := ProductUrlOf(c, lib, head);
    Record(TitleOf(v, c), ImageUrlOf(c.imageGroups), productUrl,
           SourceOf(productUrl, c.sourceText, lib), MetadataOf(c))
  }

  /** A record is kept when at least one of URL, title and image is not its "not found" sentinel. */
  predicate Keep(r: Record) {
    || r.productUrl !in {NoProductLinkFound, NoProductUrlFound}
    || r.title != NoTitleFound
    || r.imageUrl != NoImageFound
  }

  /** A non-empty source name wins over the URL's host, and is recorded in the metadata. */
  lemma SourceNameWins(v: Variant, c: Container, lib: UrlLib, head: string -> Option<string>)
    requires c.sourceText.Some? && Strip(c.sourceText.value) != ""
    ensures var r := RecordOf(v, c, lib, head);
      r.source == Strip(c.sourceText.value) && r.metadata.sourceName == Some(r.source)
  {
  }

  /**
   * Without a source name, an http product URL gives its host with "www."
   * removed, any other product URL, or one that `urlparse` refuses, gives
   * "Unknown source", and no source name is recorded.
   */
  lemma SourceFromHost(v: Variant, c: Container, lib: UrlLib, head: string -> Option<string>, host: string)
    requires !(c.sourceText.Some? && Strip(c.sourceText.value) != "")
    ensures var r := RecordOf(v, c, lib, head);
      && r.metadata.sourceName.None?
      && (!StartsWith(r.productUrl, "http") || lib.parse(r.productUrl).None? ==> r.source == UnknownSource)
      && (StartsWith(r.productUrl, "http") && lib.parse(r.productUrl).Some? ==>
            r.source == RemoveAll(lib.parse(r.productUrl).value.netloc, "www."))
      && ((StartsWith(r.productUrl, "http") && lib.parse(r.productUrl).Some?
           && lib.parse(r.productUrl).value.netloc == "www." + host
           && !Contains(host, "www.")) ==> r.source == host)
  {
    if !Contains(host, "www.") {
      RemoveAllLeading("www.", host);
    }
  }

  /** The size is recorded exactly when the stripped size text contains an 'x'. */
  lemma SizeRule(c: Container)
    ensures MetadataOf(c).size.Some? <==> c.sizeText.Some? && 'x' in Strip(c.sizeText.value)
    ensures MetadataOf(c).size.Some? ==> MetadataOf(c).size.value == Strip(c.sizeText.value)
  {
  }

  /**
   * The product URL is "No product link found" unless the link has a usable
   * href, and then it is that href's product URL; when `extract_product_url`
   * raises, the surrounding `try` keeps "No product link found".
   */
  lemma ProductUrlRule(c: Container, lib: UrlLib, head: string -> Option<string>)
    ensures c.href.None? || c.href == Some("") || IsScriptHref(c.href.value) ==>
      ProductUrlOf(c, lib, head) == NoProductLinkFound
    ensures c.href.Some? && c.href.value != "" && !IsScriptHref(c.href.value) ==>
      match ExtractProductUrl(c.href, lib, head)
      case Some(u) => ProductUrlOf(c, lib, head) == u
      case None => ProductUrlOf(c, lib, head) == NoProductLinkFound
  {
  }

  /** The title block of the loop body, in each script's form. */
  method ReadTitle(v: Variant, c: Container) returns (productTitle: string)
    ensures productTitle == TitleOf(v, c)
  {
    productTitle := NoTitleFound;
    match v {
      case App =>
        if c.titleText.Some? {
          productTitle := Strip(c.titleText.value);
          if productTitle == "" {
            productTitle := FallbackTitle(c.fallbackTexts, productTitle);
          }
        }
      case Standalone =>
        if c.titleText.Some? {
          productTitle := Strip(c.titleText.value);
        } else {
          productTitle := FallbackTitle(c.fallbackTexts, productTitle);
        }
    }
  }

  /** Build one record, as the loop body does. */
  method BuildRecord(v: Variant, c: Container, lib: UrlLib, head: string -> Option<string>) returns (rec: Record)
    ensures rec == RecordOf(v, c, lib, head)
  {
    var productUrl := NoProductLinkFound;
    if c.href.Some? && c.href.value != "" && !IsScriptHref(c.href.value) {
      var extracted := ExtractProductUrl(c.href, lib, head);
      if extracted.Some? {
        productUrl := extracted.value;
      }
    }
    var productTitle := ReadTitle(v, c);
    var imageUrl := SelectImageUrl(c.imageGroups);
    var source := UnknownSource;
    if productUrl != "" && StartsWith(productUrl, "http") {
      var parsed := lib.parse(productUrl);
      if parsed.Some? {
        source := RemoveAll(parsed.value.netloc, "www.");
      }
    }
    var size: Option<string> := None;
    if c.sizeText.Some? {
      var sizeText := Strip(c.sizeText.value);
      if sizeText != "" && 'x' in sizeText {
        size := Some(sizeText);
      }
    }
    var sourceName: Option<string> := None;
    if c.sourceText.Some? {
      var name := Strip(c.sourceText.value);
      if name != "" {
        sourceName := Some(name);
        source := name;
      }
    }
    rec := Record(productTitle, imageUrl, productUrl, source, Metadata(size, sourceName));
  }

  // ----- the container loop -----

  /** The records built for the containers, one per container, in order. */
  function BuiltRecords(v: Variant, cs: seq<Container>, lib: UrlLib, head: string -> Option<string>): (rs: seq<Record>)
    ensures |rs| == |cs|
    ensures forall k :: 0 <= k < |cs| ==> rs[k] == RecordOf(v, cs[k], lib, head)
  {
    seq(|cs|, k requires 0 <= k < |cs| => RecordOf(v, cs[k], lib, head))
  }

  /** The kept records, in order. */
  function Kept(rs: seq<Record>): seq<Record>
    decreases |rs|
  {
    if rs == [] then []
    else Kept(rs[..|rs| - 1]) + (if Keep(rs[|rs| - 1]) then [rs[|rs| - 1]] else [])
  }

  /** The kept records are those of the records that pass `Keep`, and there are no more of them. */
  lemma {:induction false} KeptMembers(rs: seq<Record>)
    ensures |Kept(rs)| <= |rs|
    ensures forall r :: r in Kept(rs) <==> r in rs && Keep(r)
    decreases |rs|
  {
    if rs != [] {
      var init := rs[..|rs| - 1];
      KeptMembers(init);
      assert rs == init + [rs[|rs| - 1]];
    }
  }

  /** Appending one record extends the kept records by that record when it is kept. */
  lemma KeptSnoc(rs: seq<Record>, r: Record)
    ensures Kept(rs + [r]) == Kept(rs) + (if Keep(r) then [r] else [])
  {
    assert (rs + [r])[..|rs|] == rs;
  }

  /** One step of the container loop: the next record extends the kept prefix. */
  lemma KeptStep(built: seq<Record>, i: nat, rec: Record)
    requires i < |built| && rec == built[i]
    ensures Kept(built[..i + 1]) == Kept(built[..i]) + (if Keep(rec) then [rec] else [])
  {
    assert built[..i + 1] == built[..i] + [rec];
    KeptSnoc(built[..i], rec);
  }

  /** The records of the first 20 containers (`result_containers[:20]`) that are kept. */
  function ExtractResults(v: Variant, cs: seq<Container>, lib: UrlLib, head: string -> Option<string>): seq<Record> {
    Kept(BuiltRecords(v, cs[..if |cs| < MaxContainers then |cs| else MaxContainers], lib, head))
  }

  /** Every result is the kept record of one of the first 20 containers, and every such record is a result. */
  lemma ResultsMembers(v: Variant, cs: seq<Container>, lib: UrlLib, head: string -> Option<string>)
    ensures |ExtractResults(v, cs, lib, head)| <= MaxContainers
    ensures forall r :: r in ExtractResults(v, cs, lib, head) <==>
      Keep(r) && exists k :: 0 <= k < |cs| && k < MaxContainers && r == RecordOf(v, cs[k], lib, head)
  {
    var batch := cs[..if |cs| < MaxContainers then |cs| else MaxContainers];
    var built := BuiltRecords(v, batch, lib, head);
    KeptMembers(built);
    forall r ensures r in built <==> exists k :: 0 <= k < |cs| && k < MaxContainers && r == RecordOf(v, cs[k], lib, head) {
      BatchMember(v, cs, lib, head, r);
    }
  }

  /** A record is built for the first 20 containers exactly when it is the record of one of them. */
  lemma BatchMember(v: Variant, cs: seq<Container>, lib: UrlLib, head: string -> Option<string>, r: Record)
    ensures r in BuiltRecords(v, cs[..if |cs| < MaxContainers then |cs| else MaxContainers], lib, head) <==>
      exists k :: 0 <= k < |cs| && k < MaxContainers && r == RecordOf(v, cs[k], lib, head)
  {
    var n := if |cs| < MaxContainers then |cs| else MaxContainers;
    PrefixMember(v, cs, n, lib, head, r);
  }

  /** A record is built for the first `n` containers exactly when it is the record of one of them. */
  lemma PrefixMember(v: Variant, cs: seq<Container>, n: nat, lib: UrlLib, head: string -> Option<string>, r: Record)
    requires n <= |cs|
    ensures r in BuiltRecords(v, cs[..n], lib, head) <==>
      exists k :: 0 <= k < n && r == RecordOf(v, cs[k], lib, head)
  {
    var built := BuiltRecords(v, cs[..n], lib, head);
    if r in built {
      var k :| 0 <= k < |built| && built[k] == r;
      assert cs[..n][k] == cs[k];
    }
    if exists k :: 0 <= k < n && r == RecordOf(v, cs[k], lib, head) {
      var k :| 0 <= k < n && r == RecordOf(v, cs[k], lib, head);
      assert cs[..n][k] == cs[k];
      assert built[k] == r;
    }
  }

  /** `extract_exact_matches_results_targeted`, after the containers have been found. */
  method ExtractExactMatches(v: Variant, cs: seq<Container>, lib: UrlLib, head: string -> Option<string>)
    returns (results: seq<Record>)
    ensures results == ExtractResults(v, cs, lib, head)
    ensures |results| <= MaxContainers
    ensures forall r :: r in results ==> Keep(r)
  {
    var batch := cs[..if |cs| < MaxContainers then |cs| else MaxContainers];
    ghost var built := BuiltRecords(v, batch, lib, head);
    results := [];
    for i := 0 to |batch|
      invariant results == Kept(built[..i])
    {
      var rec := BuildRecord(v, batch[i], lib, head);
      KeptStep(built, i, rec);
      if Keep(rec) {
        results := results + [rec];
      }
    }
    assert built[..|batch|] == built;
    KeptMembers(built);
  }

  // ----- valid results and the first product -----

  /** The five strings that `valid_results` refuses as product URLs. */
  const RefusedUrls: set<string> :=
    {NoLinkFound, GoogleSearchLink, NoUrlInRedirect, NoProductUrlFound, NoProductLinkFound}

  predicate IsValidProductUrl(u: string) {
    u !in RefusedUrls && StartsWith(u, "http")
  }

  /** The sentinel test is implied by the "http" test: none of the five refused strings starts with "http". */
  lemma ValidIffHttp(u: string)
    ensures IsValidProductUrl(u) <==> StartsWith(u, "http")
  {
    if u in Sentinels {
      SentinelsAreNotHttp(u);
    } else if u == NoProductLinkFound && StartsWith(u, "http") {
      StartsWithHead(u, "http");
    }
  }

  /** `[r for r in results if valid(r['product_url'])]` */
  function ValidResults(rs: seq<Record>): seq<Record> {
    if rs == [] then []
    else (if IsValidProductUrl(rs[0].productUrl) then [rs[0]] else []) + ValidResults(rs[1..])
  }

  /** The valid results are those with a valid URL, and none is lost. */
  lemma {:induction false} ValidResultsMembers(rs: seq<Record>)
    ensures forall r :: r in ValidResults(rs) <==> r in rs && IsValidProductUrl(r.productUrl)
  {
    if rs != [] {
      ValidResultsMembers(rs[1..]);
      assert forall r :: r in rs <==> r == rs[0] || r in rs[1..];
    }
  }

  /** When there are valid results, the first of them is the earliest result with a valid URL. */
  lemma {:induction false} FirstValidIsEarliest(rs: seq<Record>)
    ensures ValidResults(rs) == [] <==> forall k :: 0 <= k < |rs| ==> !IsValidProductUrl(rs[k].productUrl)
    ensures ValidResults(rs) != [] ==>
      exists k :: 0 <= k < |rs| && ValidResults(rs)[0] == rs[k] && IsValidProductUrl(rs[k].productUrl)
        && forall j :: 0 <= j < k ==> !IsValidProductUrl(rs[j].productUrl)
  {
    if rs != [] {
      FirstValidIsEarliest(rs[1..]);
      if !IsValidProductUrl(rs[0].productUrl) {
        assert forall k :: 1 <= k < |rs| ==> rs[k] == rs[1..][k - 1];
        if ValidResults(rs) != [] {
          var k :| 0 <= k < |rs[1..]| && ValidResults(rs[1..])[0] == rs[1..][k]
            && IsValidProductUrl(rs[1..][k].productUrl)
            && forall j :: 0 <= j < k ==> !IsValidProductUrl(rs[1..][j].productUrl);
          assert forall j :: 0 <= j < k + 1 ==> !IsValidProductUrl(rs[j].productUrl) by {
            forall j | 0 <= j < k + 1 ensures !IsValidProductUrl(rs[j].productUrl) {
              if j > 0 { assert rs[j] == rs[1..][j - 1]; }
            }
          }
          assert ValidResults(rs)[0] == rs[k + 1];
        }
      } else {
        assert ValidResults(rs)[0] == rs[0];
      }
    }
  }

  /** `first_product = valid_results[0]`, or `None` where the caller answers "No valid product URLs found". */
  function FirstProduct(rs: seq<Record>): (r: Option<Record>)
    ensures r.Some? ==> r.value in rs && StartsWith(r.value.productUrl, "http")
  {
    var valid := ValidResults(rs);
    ValidResultsMembers(rs);
    if valid == [] then None
    else
      assert valid[0] in valid;
      Some(valid[0])
  }

  /** A record whose product URL came from a `.pdf` link is never the first product. */
  lemma PdfRecordNeverSelected(h: string, r: Record)
    requires r.productUrl == PdfPrefix + h
    ensures !IsValidProductUrl(r.productUrl)
  {
    PdfResultIsNotHttp(h);
  }
}

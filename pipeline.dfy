/**
 * `reverse_image_search_and_scrape`, in main.py (the entry point the web
 * page calls, with the query image as a data URL) and in
 * testing/online_scrape.py (with the query image as a file path): the upload
 * prologue, the early failures, the choice of the first valid product, the
 * scrape of its page, the response and the clean-up in `finally`.
 *
 * The browser is given as what its lookups find (whether the camera button
 * and the file input exist, the result containers, the product page for
 * each URL); base64 decoding and encoding are oracles.
 */
module Pipeline {
  import opened Wrappers
  import opened Text
  import opened SearchResults
  import opened ImageHarvest
  import opened Scripts

  /** The dictionary the function returns: `{"error": ...}` or the product. */
  datatype Response =
    | Failure(error: string)
    | Found(productTitle: string, productUrl: string, source: string,
            imageUrls: seq<string>, savedImages: Option<seq<string>>, metadata: Metadata)

  /** What a call ends with: a returned dictionary, or an exception that escapes it. */
  datatype Outcome = Returned(response: Response) | Raised(exception: string)

  /** What the browser finds during a run. */
  datatype Browser = Browser(
    cameraFound: bool,              // `find_camera_button` found the camera button
    fileInputFound: bool,           // `find_upload_elements` found a file input
    containers: seq<Container>,     // the "Exact matches" result containers
    pages: string -> Page)          // the `<img>` elements of the page at each product URL

  const TempImage := "temp_image.jpg"
  const IndexErrorMessage := "list index out of range"
  const CameraMissing := "Could not find camera button"
  const FileInputMissing := "Could not find file input element"
  const NoValidProduct := "No valid product URLs found"
  const UnboundTempPath := "UnboundLocalError"

  // ----- the upload prologue of main.py -----

  /** How writing the query image to the temporary file ends. */
  datatype Upload = Uploaded | UploadFailed(message: string)

  /**
   * `image_data.split(',')[1]` and `base64.b64decode` of the result:
   * IndexError when there is no comma, else whatever the decoder raises
   * (`decodeError` gives its message, or `None` when decoding succeeds).
   */
  function DecodeUpload(imageData: string, decodeError: string -> Option<string>): (u: Upload)
    ensures ',' !in imageData ==> u == UploadFailed(IndexErrorMessage)
    ensures ',' in imageData ==> var payload := SecondField(imageData, ',').value;
      u == if decodeError(payload).Some? then UploadFailed(decodeError(payload).value) else Uploaded
  {
    match SecondField(imageData, ',')
    case None => UploadFailed(IndexErrorMessage)
    case Some(payload) => if decodeError(payload).Some? then UploadFailed(decodeError(payload).value) else Uploaded
  }

  /** A browser data URL `data:image/<type>;base64,<payload>` yields its payload. */
  lemma PayloadOfDataUrl(imageType: string, payload: string)
    requires ',' !in imageType && ',' !in payload
    ensures SecondField("data:image/" + imageType + ";base64," + payload, ',') == Some(payload)
  {
    var head := "data:image/" + imageType + ";base64";
    assert ',' !in head;
    assert "data:image/" + imageType + ";base64," + payload == head + ([','] + payload);
    IndexOfJoin(head, [','] + payload, ',');
    assert (head + ([','] + payload))[|head| + 1..] == payload;
  }

  /**
   * The prologue's exit when the upload fails, as written: the `except`
   * clause builds `{"error": str(e)}`, but `finally` then evaluates
   * `os.path.exists(temp_image_path)` before that name was ever bound, and
   * the UnboundLocalError it raises replaces the return.
   */
  function UploadExitAsWritten(u: Upload): (r: Option<Outcome>)
    ensures r.Some? <==> u.UploadFailed?
  {
    match u
    case Uploaded => None
    case UploadFailed(_) => Some(Raised(UnboundTempPath))
  }

  /** The prologue's exit when the upload fails, as evidently intended: the error dictionary. */
  function UploadExit(u: Upload): (r: Option<Outcome>)
    ensures r.Some? <==> u.UploadFailed?
    ensures r.Some? ==> r.value.Returned? && r.value.response.Failure?
  {
    match u
    case Uploaded => None
    case UploadFailed(m) => Some(Returned(Failure(m)))
  }

  /** As written, every failed upload escapes as an exception, and the caller receives no error dictionary. */
  lemma FailedUploadRaisesAsWritten(imageData: string, decodeError: string -> Option<string>)
    requires DecodeUpload(imageData, decodeError).UploadFailed?
    ensures UploadExitAsWritten(DecodeUpload(imageData, decodeError)) == Some(Raised(UnboundTempPath))
    ensures UploadExit(DecodeUpload(imageData, decodeError))
         == Some(Returned(Failure(DecodeUpload(imageData, decodeError).message)))
  {
  }

  /** A bare base64 string (no `data:` prefix, so no comma) shows it: IndexError, then UnboundLocalError. */
  lemma BareBase64Upload(decodeError: string -> Option<string>)
    ensures UploadExitAsWritten(DecodeUpload("aGVsbG8=", decodeError)) == Some(Raised(UnboundTempPath))
    ensures UploadExit(DecodeUpload("aGVsbG8=", decodeError)) == Some(Returned(Failure(IndexErrorMessage)))
  {
    assert ',' !in "aGVsbG8=";
  }

  // ----- the saved images sent back to the page -----

  /** `f"data:image/{img_file.split('.')[-1]};base64,{img_data}"` */
  function DataUrl(name: string, encode: string -> string): string {
    "data:image/" + AfterLast(name, '.') + ";base64," + encode(name)
  }

  /** A saved image's data URL names its extension as the image type, and its payload is read back by the upload prologue. */
  lemma SavedImageRoundTrip(i: nat, ext: string, encode: string -> string)
    requires AllowedExtension(ext) && ',' !in encode(SaveName(i, ext))
    ensures DataUrl(SaveName(i, ext), encode) == "data:image/" + ext + ";base64," + encode(SaveName(i, ext))
    ensures SecondField(DataUrl(SaveName(i, ext), encode), ',') == Some(encode(SaveName(i, ext)))
  {
    AllowedExtensionShape(ext);
    assert '.' !in ext && ',' !in ext by {
      assert forall k :: 0 <= k < |ext| ==> IsAsciiLetter(ext[k]);
    }
    SaveNameExtension(i, ext);
    PayloadOfDataUrl(ext, encode(SaveName(i, ext)));
  }

  /** The data URLs of the `product_image_` files, in the order the names are listed. */
  function SavedImages(names: seq<string>, encode: string -> string): seq<string>
    decreases |names|
  {
    if names == [] then []
    else
      var last := names[|names| - 1];
      SavedImages(names[..|names| - 1], encode) + (if StartsWith(last, SavePrefix) then [DataUrl(last, encode)] else [])
  }

  /** Each saved image is the data URL of a listed `product_image_` file, and each such file has one. */
  lemma {:induction false} SavedImagesMembers(names: seq<string>, encode: string -> string)
    ensures |SavedImages(names, encode)| <= |names|
    ensures forall x :: x in SavedImages(names, encode) <==>
      exists f :: f in names && StartsWith(f, SavePrefix) && x == DataUrl(f, encode)
    decreases |names|
  {
    if names != [] {
      var init := names[..|names| - 1];
      SavedImagesMembers(init, encode);
      assert names == init + [names[|names| - 1]];
    }
  }

  /** The loop over `os.listdir(save_folder)` that encodes the product images. */
  method EncodeSavedImages(names: seq<string>, encode: string -> string) returns (images: seq<string>)
    ensures images == SavedImages(names, encode)
  {
    images := [];
    for k := 0 to |names|
      invariant images == SavedImages(names[..k], encode)
    {
      var imgFile := names[k];
      if StartsWith(imgFile, SavePrefix) {
        images := images + [DataUrl(imgFile, encode)];
      }
      assert names[..k + 1][..k] == names[..k];
    }
    assert names[..|names|] == names;
  }

  // ----- the two entry points -----

  /** What happens to the first product: its page is scraped into the folder `files0`. */
  ghost predicate Scraped(v: Variant, first: Record, browser: Browser, files0: set<string>,
                          download: string -> bool, score: string -> Option<real>,
                          imageUrls: seq<string>, scrapedFiles: set<string>)
  {
    exists order ::
      && IsEnumeration(order, Harvest(browser.pages(first.productUrl)))
      && imageUrls == (if Run(v, Turns(order, download), files0, score).Running? then order else [])
      && scrapedFiles == Run(v, Turns(order, download), files0, score).files
  }

  /**
   * main.py's `reverse_image_search_and_scrape`, with the clean-up in
   * `finally` as evidently intended (see `UploadExit`). `folder0` is the
   * save folder's files beforehand; `files` is the folder afterwards.
   */
  method ReverseImageSearchAndScrape(imageData: string, folder0: set<string>, decodeError: string -> Option<string>,
                                     browser: Browser, lib: ProductUrl.UrlLib, head: string -> Option<string>,
                                     download: string -> bool, score: string -> Option<real>, encode: string -> string)
    returns (outcome: Outcome, files: set<string>)
    ensures outcome.Returned? && TempImage !in files
    ensures var u := DecodeUpload(imageData, decodeError);
      && (u.UploadFailed? ==> outcome == Returned(Failure(u.message)) && files == {})
      && (u.Uploaded? && !browser.cameraFound ==> outcome == Returned(Failure(CameraMissing)) && files == {})
      && (u.Uploaded? && browser.cameraFound && !browser.fileInputFound ==>
            outcome == Returned(Failure(FileInputMissing)) && files == {})
    ensures var first := FirstProduct(ExtractResults(App, browser.containers, lib, head));
      DecodeUpload(imageData, decodeError).Uploaded? && browser.cameraFound && browser.fileInputFound ==>
        && (first.None? ==> outcome == Returned(Failure(NoValidProduct)) && files == {})
        && (first.Some? ==> outcome.response.Found? && exists scrapedFiles, listing ::
              && Scraped(App, first.value, browser, {TempImage}, download, score, outcome.response.imageUrls, scrapedFiles)
              && IsEnumeration(listing, scrapedFiles)
              && outcome.response == Found(first.value.title, first.value.productUrl, first.value.source,
                                           outcome.response.imageUrls, Some(SavedImages(listing, encode)), first.value.metadata)
              && files == scrapedFiles - {TempImage})
  {
    // Clear the save folder: every entry of the model's folder is a file.
    files := {};
    var upload := DecodeUpload(imageData, decodeError);
    var exit := UploadExit(upload);
    if exit.Some? {
      return exit.value, files;
    }
    files := files + {TempImage};
    if !browser.cameraFound {
      return Returned(Failure(CameraMissing)), files - {TempImage};
    }
    if !browser.fileInputFound {
      return Returned(Failure(FileInputMissing)), files - {TempImage};
    }
    var results := ExtractExactMatches(App, browser.containers, lib, head);
    var valid := ValidResults(results);
    if valid == [] {
      return Returned(Failure(NoValidProduct)), files - {TempImage};
    }
    var first := valid[0];
    assert FirstProduct(results) == Some(first);
    outcome, files := ScrapeAndRespond(first, browser, download, score, encode);
  }

  /**
   * main.py's success path: scrape the first product's page into the folder
   * that holds only the query image, return the product with the data URLs
   * of the folder's saved images, and remove the query image in `finally`.
   */
  method ScrapeAndRespond(first: Record, browser: Browser, download: string -> bool,
                          score: string -> Option<real>, encode: string -> string)
    returns (outcome: Outcome, files: set<string>)
    ensures outcome.Returned? && outcome.response.Found? && TempImage !in files
    ensures exists scrapedFiles, listing ::
      && Scraped(App, first, browser, {TempImage}, download, score, outcome.response.imageUrls, scrapedFiles)
      && IsEnumeration(listing, scrapedFiles)
      && outcome.response == Found(first.title, first.productUrl, first.source,
                                   outcome.response.imageUrls, Some(SavedImages(listing, encode)), first.metadata)
      && files == scrapedFiles - {TempImage}
  {
    var order, imageUrls, scrapedFiles := ScrapeProductImages(App, browser.pages(first.productUrl), {TempImage}, download, score);
    var listing := Enumerate(scrapedFiles);
    var savedImages := EncodeSavedImages(listing, encode);
    outcome := Returned(Found(first.title, first.productUrl, first.source, imageUrls, Some(savedImages), first.metadata));
    // `finally`: remove the temporary query image.
    files := scrapedFiles - {TempImage};
    assert Scraped(App, first, browser, {TempImage}, download, score, imageUrls, scrapedFiles);
  }

  /**
   * testing/online_scrape.py's `reverse_image_search_and_scrape`: the query
   * image is a file outside the model's folder, the folder is not cleared,
   * and the response has no saved images.
   */
  method StandaloneSearchAndScrape(folder0: set<string>, browser: Browser, lib: ProductUrl.UrlLib,
                                   head: string -> Option<string>, download: string -> bool,
                                   score: string -> Option<real>)
    returns (outcome: Outcome, files: set<string>)
    ensures outcome.Returned?
    ensures !browser.cameraFound ==> outcome == Returned(Failure(CameraMissing)) && files == folder0
    ensures browser.cameraFound && !browser.fileInputFound ==> outcome == Returned(Failure(FileInputMissing)) && files == folder0
    ensures var first := FirstProduct(ExtractResults(Standalone, browser.containers, lib, head));
      browser.cameraFound && browser.fileInputFound ==>
        && (first.None? ==> outcome == Returned(Failure(NoValidProduct)) && files == folder0)
        && (first.Some? ==>
              && outcome.response.Found?
              && Scraped(Standalone, first.value, browser, folder0, download, score, outcome.response.imageUrls, files)
              && outcome.response == Found(first.value.title, first.value.productUrl, first.value.source,
                                           outcome.response.imageUrls, None, first.value.metadata))
  {
    files := folder0;
    if !browser.cameraFound {
      return Returned(Failure(CameraMissing)), files;
    }
    if !browser.fileInputFound {
      return Returned(Failure(FileInputMissing)), files;
    }
    var results := ExtractExactMatches(Standalone, browser.containers, lib, head);
    var valid := ValidResults(results);
    if valid == [] {
      return Returned(Failure(NoValidProduct)), files;
    }
    var first := valid[0];
    var order, imageUrls;
    order, imageUrls, files := ScrapeProductImages(Standalone, browser.pages(first.productUrl), files, download, score);
    outcome := Returned(Found(first.title, first.productUrl, first.source, imageUrls, None, first.metadata));
    assert FirstProduct(results) == Some(first);
  }

  /**
   * In main.py the query image never counts among the saved images: after
   * the scrape the folder still holds it (the loop only touches
   * `product_image_` names), and `finally` removes it.
   */
  lemma QueryImageSurvivesScrape(order: seq<string>, download: string -> bool, score: string -> Option<real>)
    ensures TempImage in Run(App, Turns(order, download), {TempImage}, score).files
    ensures forall f :: f in Run(App, Turns(order, download), {TempImage}, score).files && f != TempImage ==>
      StartsWith(f, SavePrefix)
  {
    assert TempImage[0] != SavePrefix[0];
    if StartsWith(TempImage, SavePrefix) {
      StartsWithHead(TempImage, SavePrefix);
    }
    RunKeepsOtherFiles(App, order, {TempImage}, download, score, TempImage);
    var ts := Turns(order, download);
    TurnNamesDistinct(order, download);
    forall f | f in Run(App, ts, {TempImage}, score).files && f != TempImage
      ensures StartsWith(f, SavePrefix)
    {
      if !StartsWith(f, SavePrefix) {
        RunKeepsOtherFiles(App, order, {TempImage}, download, score, f);
      }
    }
  }
}

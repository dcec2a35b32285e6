# DeltaSearch scraper: the decision logic, modelled and proved in Dafny

DeltaSearch takes a photo of a product. It runs a Google reverse image
search and picks the first "Exact matches" result that links to a product
page. It collects every image URL on that page and downloads the ones with
an image extension. A downloaded image is kept when an image-similarity
score against the query photo is at least 0.85.

The same logic exists twice, with small differences:

- `main.py` is the entry point the web page calls.
- `testing/online_scrape.py` is a command-line variant.

This project models the string and selection rules of that pipeline:

- how a result link becomes a product URL or a "No ..." sentinel
- how each result container becomes a record, and which records are kept
- which result counts as the first valid product
- how image URLs are harvested from the product page
- the extension filter and the save names
- the retention loop, where a downloaded image is kept or removed
- the data-URL handling at both ends of `main.py`

It then proves the properties those rules promise.

The model has seven modules:

- `Text` is the Python `str` operations the code relies on: `startswith`,
  `in`, `strip`, `lower`, `replace`, `split` and `str(n)`.
- `ProductUrl` is `extract_product_url`. It is identical in the two scripts.
- `SearchResults` is the record rules of
  `extract_exact_matches_results_targeted`, the `valid_results` filter and
  the choice of the first product.
- `ImageHarvest` is `scrape_product_images`.
- `Pipeline` is `reverse_image_search_and_scrape` in both scripts.
- `Wrappers` and `Html` hold the optional values and the `<img>` attributes.
- `Scripts` names the two scripts, as a `Variant`.

The two scripts share the helpers `extract_product_url`,
`extract_exact_matches_results_targeted` and `scrape_product_images`. Those
helpers differ in two places:

- where the title fallback applies;
- whether the comparison waits for a successful download.

The model covers both with a `Variant` parameter. `App` is `main.py` and
`Standalone` is `testing/online_scrape.py`.

The two `reverse_image_search_and_scrape` functions differ more. Only the
one in main.py clears the save folder, decodes the uploaded data URL, cleans
up the temporary file and returns `saved_images`. Compare main.py:430-445
and 530-558 with testing/online_scrape.py:487-601. Each is modelled by its
own method in `Pipeline`.

Everything outside the program's own logic is a parameter:

- `urlparse`/`parse_qs` and `unquote`, where `urlparse` may refuse an
  `href` (it raises ValueError, for instance, on an unbalanced `[` in the
  host);
- the HTTP `HEAD` probe;
- the image download;
- the similarity comparator, as an `Option<real>` score per saved file;
- base64 decoding and encoding;
- what the browser finds on each page.

The save folder is modelled as the set of file names it holds. Python
iterates a `set` and `os.listdir` in an order the code does not control.
The model leaves that order open: a method picks some enumeration, and the
contracts hold for every one.

An undefined similarity score does not discard the file. `compare_images`
returns `None` when it fails (similarity.py:55 and :71-73), and the
retention loop does not test for it. The comparison `None >= 0.85` at
main.py:410 then raises TypeError. `scrape_product_images` catches it at
main.py:415-416 and returns `[]`. The file stays in the folder, and the
remaining URLs are not processed. The model follows this
(`ImageHarvest.AbortIffCompareFails`).

## Model

| member | source | states |
|---|---|---|
| `ProductUrl.ExtractProductUrl` | main.py:24-64 | The call raises exactly when a non-blank, non-script `href` is refused by `urlparse`. Otherwise the result comes from one of five places: a sentinel string, the `href` itself, `"PDF catalog link: " + href`, the HEAD probe's final URL, or the unquoted value of a query parameter of the `href`. |
| `ProductUrl.FollowRedirect` | main.py:34-39 | A Google `/url` redirect yields "No product URL found in redirect" or the unquoted value of one of its query parameters. |
| `ProductUrl.ClassifyOther` | main.py:44-64 | After the Google branches, the result is the unquoted merchant parameter, the PDF text, the probe's URL, the `href`, or "No product URL found". |
| `ProductUrl.BlankHrefGivesNoLink` | main.py:26-27 | These `href`s give "No link found" for every probe: a missing one, an empty one, one of only white space, and the text "No link found". |
| `ProductUrl.ScriptHrefGivesNoProduct` | main.py:29-30 | A `javascript:`, `#` or `data:` href gives "No product URL found" for every probe. |
| `ProductUrl.GoogleRedirectRule` | main.py:34-39 | A Google `/url` redirect reads `url`, or `q` when `url` is absent or empty. It gives that value unquoted when it starts with "http", else "No product URL found in redirect". The probe is not consulted. |
| `ProductUrl.GoogleSearchRule` | main.py:41-42 | A Google `/search` link gives "No product URL found (Google search link)". |
| `ProductUrl.MerchantParamRule` | testing/online_scrape.py:39-43 | A shopping, product or merchant href gives its unquoted `merchant_url` when that is non-empty, else its unquoted `pdp_url` when that is non-empty. |
| `ProductUrl.PdfRule` | main.py:50-51 | A link ending in `.pdf`, in any letter case, gives `"PDF catalog link: " + href`, without a probe. |
| `ProductUrl.FallThroughRule` | main.py:53-64 | A probe that ends on a URL without "google.com" gives that URL. Without one, a host without "google.com" gives the `href` unchanged, and a Google host gives "No product URL found". |
| `ProductUrl.NetworkOnlyAtTheEnd` | main.py:26-64 | The result depends on the probe only in the last branches. Two probes that agree on the `href` give the same result. |
| `ProductUrl.PdfResultIsNotHttp` | main.py:50-51 | A PDF result never starts with "http". |
| `ProductUrl.SentinelsAreNotHttp` | main.py:518-521 | No sentinel of `extract_product_url` starts with "http". |
| `SearchResults.FirstLongIndex` | main.py:203-212 | The fallback scan stops at the first text longer than 3 characters once stripped. Every text before it is rejected. |
| `SearchResults.FirstLongTextAtIndex` | main.py:203-212 | The fallback title is the stripped text at that index, or nothing when the scan reaches the end. |
| `SearchResults.FirstLongTextIsFirst` | main.py:203-212 | The fallback yields the first text that is longer than 3 characters once stripped. It yields nothing exactly when no text qualifies. |
| `SearchResults.FallbackTitle` | testing/online_scrape.py:227-236 | The fallback loop returns the first qualifying stripped text, and stops there. Otherwise it keeps the current title. |
| `SearchResults.AppTitleRule` | main.py:199-214 | main.py: no title element gives "No title found". A non-blank title is used stripped. Only a found but blank title falls back. It falls back to the first qualifying stripped text, every earlier text being rejected, and with no qualifying text the title is "". |
| `SearchResults.StandaloneTitleRule` | testing/online_scrape.py:216-236 | testing/online_scrape.py: a found title is used stripped, even when blank. Only a missing title falls back, to the first qualifying text or to "No title found". |
| `SearchResults.MissingTitleDiverges` | testing/online_scrape.py:224-236 | Take a container with no title element and a heading longer than 3 characters with no white space at either end. main.py gives "No title found", testing/online_scrape.py gives the heading. |
| `SearchResults.BlankTitleDiverges` | main.py:201-212 | Take a container with a blank title and such a heading. main.py gives the heading, testing/online_scrape.py gives "". |
| `SearchResults.ImgChoice` | main.py:229-240 | For one `<img>`, an http `src` that is not a data URL wins over such a `data-src`, which wins over a `src` of more than 50 characters. The last is cut to 100 characters plus "...". A choice is never "No image found". |
| `SearchResults.ImageUrlIsFirstChoice` | main.py:216-246 | The image URL is "No image found" exactly when no `<img>` of any selector yields a choice. Otherwise it is the choice of the first yielding `<img>` of the first selector that has one. Every earlier element of that selector, and every element of every earlier selector, yields nothing. |
| `SearchResults.FirstChoiceIndex` | main.py:228-239 | The element scan stops at the first `<img>` that yields a choice. Every element before it yields nothing. |
| `SearchResults.FirstChoiceAtIndex` | main.py:228-239 | A selector's choice is the choice of the element at that index, or nothing when the scan reaches the end. |
| `SearchResults.GroupsChoiceIndex` | main.py:225-243 | The selector scan stops at the first selector whose elements yield a choice. Every selector before it yields nothing. |
| `SearchResults.GroupsChoiceAtIndex` | main.py:225-243 | The image choice is that selector's choice, or nothing when no selector yields one. |
| `SearchResults.FirstChoiceFound` | main.py:226-243 | Within one selector, nothing is found exactly when no `<img>` yields a choice. Otherwise the choice is that of the first element that yields one. |
| `SearchResults.SelectImageUrl` | main.py:216-246 | The loop over selectors and elements, with its two breaks, computes the first choice of the first selector that yields one. |
| `SearchResults.SourceNameWins` | testing/online_scrape.py:289-295 | A non-empty stripped source name becomes `source` and is recorded in the metadata. |
| `SearchResults.SourceFromHost` | testing/online_scrape.py:271-277 | Without a source name, an http URL's source is its host with every "www." removed. For a host `www.<h>` with no other "www." that is `<h>`. A non-http URL, or one `urlparse` refuses, gives "Unknown source". |
| `SearchResults.SizeRule` | testing/online_scrape.py:280-286 | `size` is recorded exactly when the stripped size text contains 'x', and then it is that text. |
| `SearchResults.ProductUrlRule` | main.py:188-197 | A missing, empty or script/anchor/data href leaves "No product link found". Any other href gives `extract_product_url(href)`, or "No product link found" when that raises. |
| `SearchResults.ReadTitle` | main.py:199-214 | The title block of each script computes the title the title rules define. |
| `SearchResults.BuildRecord` | main.py:188-271 | The per-container body, with its mutable locals, builds the record the rules above define. |
| `SearchResults.KeptMembers` | main.py:273-283 | The kept records are exactly the built records that pass the keep rule, and there are no more of them. A record passes when at least one of URL, title and image is not its "not found" sentinel. |
| `SearchResults.ResultsMembers` | testing/online_scrape.py:196-309 | At most 20 results. Each is the kept record of one of the first 20 containers, and every such kept record is a result. |
| `SearchResults.BatchMember` | main.py:186 | A record belongs to the first 20 containers' records exactly when one of those containers builds it. |
| `SearchResults.PrefixMember` | main.py:186 | A record belongs to the records of the first `n` containers exactly when one of them builds it. |
| `SearchResults.ExtractExactMatches` | main.py:186-288 | The container loop returns, in container order, the kept records of the first 20 containers. |
| `SearchResults.ValidIffHttp` | main.py:518-521 | A product URL passes `valid_results` exactly when it starts with "http". The sentinel test adds nothing. |
| `SearchResults.ValidResultsMembers` | main.py:518-521 | `valid_results` holds exactly the results with a valid product URL. |
| `SearchResults.FirstValidIsEarliest` | main.py:518-526 | The list is empty exactly when no result has a valid URL. Otherwise its first element is the earliest result with one. |
| `SearchResults.FirstProduct` | main.py:523-526 | The chosen product is one of the results, and its URL starts with "http". |
| `SearchResults.PdfRecordNeverSelected` | main.py:518-521 | A result whose URL came from the `.pdf` branch never passes `valid_results`. |
| `ImageHarvest.Pick` | main.py:321-331 | An `<img>` adds at most one URL, in the order zoom > src > data-src. A zoom that mentions "http" is added. Failing that, an http `src` that is not a data URL is added. Otherwise the pick is the `data-src` or nothing. Nothing is added only when none of the three qualifies. The URL added contains "http", and a chosen src or data-src does not start with "data:". |
| `ImageHarvest.PicksMembers` | main.py:321-331 | A pass adds at most one URL per element. The URLs added are exactly the elements' picks. |
| `ImageHarvest.PicksMentionHttp` | main.py:326-331 | Every URL a pass adds mentions "http". |
| `ImageHarvest.AddPicks` | main.py:358-368 | One pass over the `<img>` elements adds exactly their picks to the set. |
| `ImageHarvest.FallbackMembers` | main.py:384-399 | The fallback selectors add exactly the picks of their elements. |
| `ImageHarvest.HarvestSound` | main.py:317-399 | Every harvested URL mentions "http" and is the pick of some `<img>` in one of the three passes. |
| `ImageHarvest.CollectImageUrls` | main.py:317-399 | The three passes fill `image_urls` with the union of their picks. |
| `ImageHarvest.Enumerate` | main.py:401-413 | The loop and the returned list see each URL of the set exactly once. |
| `ImageHarvest.FileExtension` | main.py:403 | The extension contains no '.' and no '?'. |
| `ImageHarvest.ExtensionOfUrl` | main.py:403 | The extension of `stem.ext?query` is `ext`, when neither `ext` nor the query contains a '.'. |
| `ImageHarvest.AllowedExtensionShape` | main.py:404-405 | The filter ignores letter case. An accepted extension is 3 or 4 ASCII letters. |
| `ImageHarvest.SaveName` | main.py:407 | Every save name starts with `product_image_`. |
| `ImageHarvest.SaveNameInjective` | main.py:407 | Two save names are equal only for the same index and the same extension. |
| `ImageHarvest.SaveNameExtension` | main.py:407 | The text after the last '.' of a save name is its extension. |
| `ImageHarvest.TempImageIsNoSaveName` | main.py:407 | No save name is `temp_image.jpg`. |
| `ImageHarvest.DownloadGate` | main.py:290-305 | A URL that does not start with "http" is never saved. Any other URL is saved exactly when the fetch succeeds. |
| `ImageHarvest.Compare` | similarity.py:46-73 | Comparing a file that is not in the folder gives `None`. |
| `ImageHarvest.Judge` | main.py:409-411 | A `None` score raises. A score of at least 0.85 keeps the file, and a lower one removes it. |
| `ImageHarvest.Turns` | main.py:401-407 | URL number `k` (counting from 1) is saved as `product_image_{k}.{ext}`. |
| `ImageHarvest.TurnNamesDistinct` | main.py:401-407 | No two URLs of the loop share a save name. |
| `ImageHarvest.StepFrame` | main.py:402-411 | One turn of the loop touches no file but its own. |
| `ImageHarvest.RunFrame` | main.py:401-411 | The loop touches no file but its own save names. |
| `ImageHarvest.RunKeepsOtherFiles` | main.py:401-411 | A file not named `product_image_...`, such as the query image, is in the folder after the loop exactly when it was before. |
| `ImageHarvest.AbortIffCompareFails` | main.py:408-416 | The loop aborts exactly when some compared file's score is `None`. An abort makes the scrape return `[]`. In testing/online_scrape.py this includes a failed download with no file left from an earlier run. |
| `ImageHarvest.RunRetains` | main.py:408-411 | When the loop completes, each compared file is in the folder exactly when its score is at least 0.85. |
| `ImageHarvest.RunAddsOnlyKept` | main.py:404-411 | When the loop completes, a file it added has an accepted extension, was downloaded, and scored at least 0.85. |
| `ImageHarvest.RetainSimilar` | main.py:401-411 | The enumerate loop, with its early exit on the raised comparison, computes the folder and the outcome the turn rules define. |
| `ImageHarvest.ScrapeProductImages` | main.py:307-416 | The returned list is every harvested URL, rejected ones included, or `[]` on an abort. The folder is what the loop leaves. |
| `ImageHarvest.UngatedCompareDiverges` | testing/online_scrape.py:461-467 | Take one URL with an accepted extension that fails to download, and an empty folder. main.py skips it and finishes; testing/online_scrape.py compares a missing file and aborts. |
| `Pipeline.DecodeUpload` | main.py:441-442 | Data without a comma fails with "list index out of range". Otherwise the payload after the first comma is decoded, and a decode error fails with its message. |
| `Pipeline.PayloadOfDataUrl` | main.py:441 | `split(',')[1]` of `data:image/<t>;base64,<payload>` is the payload. |
| `Pipeline.UploadExitAsWritten` | main.py:547-558 | As written, every failed upload ends with UnboundLocalError, raised in `finally`. |
| `Pipeline.UploadExit` | main.py:547-548 | As intended, a failed upload returns the error dictionary. |
| `Pipeline.FailedUploadRaisesAsWritten` | main.py:441-558 | For every failed upload, the written code raises where the intended code returns `{"error": message}`. |
| `Pipeline.BareBase64Upload` | main.py:441-443 | A bare base64 string with no `data:` prefix raises as written, and returns "list index out of range" as intended. |
| `Pipeline.SavedImageRoundTrip` | main.py:536 | A saved image's data URL has its extension as the image type. Stripping its prefix, as the upload does, gives back the base64 payload. |
| `Pipeline.SavedImagesMembers` | main.py:530-536 | `saved_images` holds exactly the data URLs of the folder's `product_image_` files. |
| `Pipeline.EncodeSavedImages` | main.py:530-536 | The directory loop builds those data URLs in listing order. |
| `Pipeline.ReverseImageSearchAndScrape` | main.py:419-558 | main.py, with the intended `finally`, never raises and removes `temp_image.jpg`. It fails at each step with that step's message: upload, camera button, file input, no valid product. Otherwise it returns the first valid product's fields, its scraped URLs and the data URLs of the kept images. |
| `Pipeline.ScrapeAndRespond` | main.py:527-558 | On the success path, the first product's page is scraped into a folder that holds only the query image. The response carries the product's fields, the scraped URLs and the data URLs of the folder's saved images, in listing order. The query image is then removed. |
| `Pipeline.StandaloneSearchAndScrape` | testing/online_scrape.py:475-612 | testing/online_scrape.py fails at the camera-button, file-input and no-valid-product steps. Otherwise it returns the first valid product with its scraped URLs, has no saved images, and leaves the folder as the loop does. |
| `Pipeline.QueryImageSurvivesScrape` | main.py:443-558 | In main.py the query image stays in the folder through the scrape. Every other file there afterwards is a `product_image_` file. |

## Left out

- Browser driving is not modelled. Its results are inputs, because they are
  I/O through Selenium with no contract beyond "what was found". This covers:
  - starting Chrome and loading Google Images
  - the cookie banner, the camera and upload selector loops, and the
    "Exact matches" tab
  - the hovering and all waits
- Finding the result containers is not modelled (the three container
  selectors, and the fallback to at most 10 link ancestors). The containers
  are an input to `SearchResults.ExtractExactMatches`.
- HTML parsing (BeautifulSoup) is not modelled. Each `<img>` is given as
  its three attributes.
- Selenium can return `src` as an absolute URL where the page has a relative
  one. The model takes whatever the browser reports.
- `urlparse`, `parse_qs` and `unquote` are parameters, since they come from
  the standard library. Only the `netloc`, `path` and query parts the code
  reads are modelled.
- `requests.head`, `requests.get` and the file writes are oracles, since they
  are network and filesystem I/O. A download is a success flag for a URL that
  starts with "http". Response bodies are not modelled.
- `ImageHarvest.Compare`: CLIP loading, Canny edges and cosine similarity are
  not modelled. They are floating-point machine learning in foreign
  libraries (torch, clip, cv2).
  - The comparator is a score per saved file name, or `None` when loading
    fails.
  - The query image is fixed for a run.
  - A NaN score, for which `>=` is false, is not represented.
- ImageHarvest.Judge: `Threshold` is the real 0.85, not the double nearest
  to it (0.84999999999999997779…). A score equal to that double is kept by
  main.py:410 but removed by `Judge`, because scores are modelled as reals.
- `Text.Lower` maps only `A`-`Z`. Python also lowers other letters, but the
  lowered text is only compared with `.pdf` and the four extensions. No
  non-ASCII character lowers to one of their letters.
- Base64 decoding and encoding are oracles. The decoder gives an error
  message or success, and the encoder gives the payload of a named file.
- Failures of the comparator's own construction, `driver.get`, `makedirs`
  and `os.remove` are not modelled. In `scrape_product_images` of both
  scripts, and in testing/online_scrape.py's entry point, these are I/O
  errors that become `[]` or `{"error": str(e)}`. main.py's entry point
  differs:
  - A failure of `makedirs`, `listdir` or `os.remove` while clearing the
    folder (main.py:431-438) happens before `temp_image_path` is bound
    (main.py:443). It escapes as the `UnboundLocalError` raised by
    `finally` (main.py:557), as in the Finding.
  - A failing `os.remove(temp_image_path)` in `finally` (main.py:558)
    escapes directly.
- `driver.quit()` in `finally` is not modelled, since it is browser I/O.
- The save folder holds files only. main.py's clearing loop skips
  sub-directories, and `os.listdir` would list a sub-directory named
  `product_image_...`; neither case is modelled.
- In testing/online_scrape.py the query image is a path outside the save
  folder. The model does not place it in the folder, so it cannot be
  overwritten by a save name.
- The `__main__` blocks and the Eel start-up are not modelled, since they
  only wire the UI. web/script.js is not part of this model.

## Findings

| source | as written | input that shows it | evidently intended | confidence | as-written member | corrected member |
|---|---|---|---|---|---|---|
| main.py:441-558 | A failed upload is caught by `except Exception`. The failure is either `image_data.split(',')[1]` raising IndexError or `base64.b64decode` raising. `finally` then evaluates `os.path.exists(temp_image_path)` before `temp_image_path` was assigned. The UnboundLocalError replaces the `{"error": ...}` return and escapes to the caller. | `image_data = "aGVsbG8="`, base64 without the `data:image/...;base64,` prefix | return `{"error": "list index out of range"}` (or the decoder's message) and skip the clean-up of a file that was never written | not executed | `Pipeline.UploadExitAsWritten` (exhibited by `Pipeline.BareBase64Upload`) | `Pipeline.UploadExit` (used by `Pipeline.ReverseImageSearchAndScrape`, which never raises) |

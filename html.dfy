/**
 * What the scraper reads off an `<img>` element, whether through
 * BeautifulSoup (`img.get(name)`) or through Selenium
 * (`img.get_attribute(name)`): an attribute is a string or `None`.
 */
module Html {
  import opened Wrappers
  import opened Text

  datatype ImgAttrs = ImgAttrs(src: Option<string>, dataSrc: Option<string>, zoom: Option<string>)

  /** `a and "http" in a`: the attribute is present and mentions "http". */
  predicate MentionsHttp(a: Option<string>) {
    a.Some? && Contains(a.value, "http")
  }

  /** `a and "http" in a and not a.startswith("data:")`, in either order of the two tests. */
  predicate HttpNotData(a: Option<string>) {
    MentionsHttp(a) && !StartsWith(a.value, "data:")
  }

  /** A string that mentions "http" has an 'h' in it: this tells it apart from a sentinel such as "No image found". */
  lemma MentionsHttpHasH(s: string)
    requires Contains(s, "http")
    ensures 'h' in s
  {
    ContainsFirstChar(s, "http");
  }
}

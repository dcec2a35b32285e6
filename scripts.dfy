/** The two scripts that carry the scraper's logic. */
module Scripts {

  /** main.py, the entry point the web page calls (`App`), and testing/online_scrape.py (`Standalone`). */
  datatype Variant = App | Standalone
}

/**
 * The tracker's configuration module: its default values and the live,
 * mutable set of options that the command line overwrites at start-up.
 */
module Config {

  /** A snapshot of every configuration option. */
  datatype Settings = Settings(
    keywords: seq<string>,
    location: string,
    category: string,
    maxListings: int,
    daysRecent: int,
    outputDir: string,
    listingsCsv: string,
    applicationsCsv: string,
    screenshotsDir: string,
    headless: bool,
    browserTimeout: int,
    baseUrl: string,
    searchUrl: string)

  const BASE_URL: string := "https://www.kenyajob.com"

  /** The values the configuration module starts with. */
  function Defaults(): Settings {
    Settings(
      keywords := ["software developer", "python developer", "web developer"],
      location := "Nairobi",
      category := "IT & Telecoms",
      maxListings := 50,
      daysRecent := 7,
      outputDir := "output",
      listingsCsv := "job_listings.csv",
      applicationsCsv := "applications_tracker.csv",
      screenshotsDir := "screenshots",
      headless := false,
      browserTimeout := 30,
      baseUrl := BASE_URL,
      searchUrl := BASE_URL)
  }

  /**
   * The configuration module's globals. Only the search options and the
   * headless flag are ever reassigned; the output paths, the browser timeout
   * and the site URLs keep the values they were loaded with.
   */
  class LiveConfig {
    var keywords: seq<string>
    var location: string
    var category: string
    var maxListings: int
    var daysRecent: int
    const outputDir: string
    const listingsCsv: string
    const applicationsCsv: string
    const screenshotsDir: string
    var headless: bool
    const browserTimeout: int
    const baseUrl: string
    const searchUrl: string

    /** The current value of every option. */
    function Snapshot(): Settings
      reads this
    {
      Settings(keywords, location, category, maxListings, daysRecent, outputDir, listingsCsv,
               applicationsCsv, screenshotsDir, headless, browserTimeout, baseUrl, searchUrl)
    }

    /** Loading the module binds every option to its default. */
    constructor ()
      ensures Snapshot() == Defaults()
    {
      var d := Defaults();
      keywords, location, category := d.keywords, d.location, d.category;
      maxListings, daysRecent := d.maxListings, d.daysRecent;
      outputDir, listingsCsv, applicationsCsv, screenshotsDir := d.outputDir, d.listingsCsv, d.applicationsCsv, d.screenshotsDir;
      headless, browserTimeout := d.headless, d.browserTimeout;
      baseUrl, searchUrl := d.baseUrl, d.searchUrl;
    }
  }
}

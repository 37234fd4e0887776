/**
 * Turning one result element into a job posting: the exception-swallowing
 * field lookups `get_text_safe` / `get_attribute_safe`, the URL clean-up and
 * `extract_job_details`.
 */
module Extraction {

  import opened Wrappers
  import opened Text
  import opened Config

  /** A page node as the tracker reads it: its visible text and its attributes. */
  datatype Node = Node(text: string, attributes: map<string, string>)

  /**
   * A result element, seen only through `find_element(By.CSS_SELECTOR, selector)`
   * beneath it: the first matching node, or `None` where the lookup raises.
   */
  datatype ListingElement = ListingElement(find: string -> Option<Node>)

  const TITLE_SELECTOR: string := "h3.job-title, h2.job-title, a.job-title"
  const COMPANY_SELECTOR: string := ".company-name, .employer-name"
  const LOCATION_SELECTOR: string := ".job-location"
  const POSTED_DATE_SELECTOR: string := ".posted-date"
  const DESCRIPTION_SELECTOR: string := ".job-description, .description"
  const URL_SELECTOR: string := "a.job-title"
  const URL_ATTRIBUTE: string := "href"

  /** A clock reading formatted as "%Y-%m-%d %H:%M:%S" (always nineteen characters for four-digit years). */
  type Timestamp = s: string | |s| == 19 witness "1970-01-01 00:00:00"

  /** One extracted listing. */
  datatype JobPosting = JobPosting(
    title: string,
    company: string,
    location: string,
    postedDate: string,
    description: string,
    url: string,
    extractedAt: Timestamp)

  /** `s` carries no surrounding whitespace, as `str.strip()` leaves it. */
  predicate IsStripped(s: string) {
    s == [] || (!IsSpace(s[0]) && !IsSpace(s[|s| - 1]))
  }

  /** The stripped text of the node under `selector`, or "" when there is none. */
  function GetTextSafe(element: ListingElement, selector: string): (r: string)
    ensures IsStripped(r)
    ensures element.find(selector).None? ==> r == ""
    ensures element.find(selector).Some? ==> exists i, j :: StrippedSlice(element.find(selector).value.text, r, i, j)
  {
    match element.find(selector)
    case None => ""
    case Some(node) => Strip(node.text)
  }

  /**
   * The value of `attribute` on the node under `selector`, or "" when the node
   * is missing. An attribute the node does not carry also reads as "".
   */
  function GetAttributeSafe(element: ListingElement, selector: string, attribute: string): (r: string)
    ensures r != "" ==> element.find(selector).Some?
                        && attribute in element.find(selector).value.attributes
                        && element.find(selector).value.attributes[attribute] == r
    ensures element.find(selector).Some? && attribute in element.find(selector).value.attributes
            ==> r == element.find(selector).value.attributes[attribute]
  {
    match element.find(selector)
    case None => ""
    case Some(node) => if attribute in node.attributes then node.attributes[attribute] else ""
  }

  /** A non-empty link that does not start with "http" gets the site's base URL glued in front, with no separator. */
  function NormalizeUrl(url: string, baseUrl: string): string {
    if url != "" && !StartsWith(url, "http") then baseUrl + url else url
  }

  /** The three cases of the clean-up. */
  lemma NormalizeUrlCases(url: string, baseUrl: string)
    ensures url == "" ==> NormalizeUrl(url, baseUrl) == ""
    ensures StartsWith(url, "http") ==> NormalizeUrl(url, baseUrl) == url
    ensures url != "" && !StartsWith(url, "http") ==> NormalizeUrl(url, baseUrl) == baseUrl + url
  {
  }

  /** With an absolute base URL, every non-empty cleaned-up link is absolute. */
  lemma NormalizedUrlIsAbsolute(url: string, baseUrl: string)
    ensures StartsWith(baseUrl, "http")
            ==> NormalizeUrl(url, baseUrl) == "" || StartsWith(NormalizeUrl(url, baseUrl), "http")
    ensures NormalizeUrl(url, baseUrl) == "" <==> url == ""
  {
    if url != "" && !StartsWith(url, "http") && StartsWith(baseUrl, "http") {
      StartsWithConcat(baseUrl, url, "http");
    }
  }

  /** With an absolute base URL, cleaning up a link twice is cleaning it up once. */
  lemma NormalizeUrlIdempotent(url: string, baseUrl: string)
    requires StartsWith(baseUrl, "http")
    ensures NormalizeUrl(NormalizeUrl(url, baseUrl), baseUrl) == NormalizeUrl(url, baseUrl)
  {
    NormalizedUrlIsAbsolute(url, baseUrl);
  }

  /** The site's base URL is absolute, so with it every cleaned-up link is absolute or empty and a second clean-up changes nothing. */
  lemma SiteLinksAreAbsolute(url: string)
    ensures StartsWith(BASE_URL, "https")
    ensures NormalizeUrl(url, BASE_URL) == "" || StartsWith(NormalizeUrl(url, BASE_URL), "http")
    ensures NormalizeUrl(NormalizeUrl(url, BASE_URL), BASE_URL) == NormalizeUrl(url, BASE_URL)
  {
    assert BASE_URL[..5] == "https";
    assert BASE_URL[..4] == "http";
    NormalizedUrlIsAbsolute(url, BASE_URL);
    NormalizeUrlIdempotent(url, BASE_URL);
  }

  /** The original link always survives as the tail of the cleaned-up one. */
  lemma NormalizeUrlKeepsLink(url: string, baseUrl: string)
    ensures var r := NormalizeUrl(url, baseUrl);
      |url| <= |r| && r[|r| - |url|..] == url
  {
  }

  /** A site-relative path is joined onto the base URL. */
  lemma RelativePathJoined(url: string, baseUrl: string)
    requires url == "/jobs/123" && baseUrl == "https://www.kenyajob.com"
    ensures NormalizeUrl(url, baseUrl) == "https://www.kenyajob.com/jobs/123"
  {
    assert url[..4] != "http" by { assert url[0] == '/'; }
  }

  /** `extract_job_details`: every field looked up on its own, a missing one reading as "". */
  function ExtractJobDetails(element: ListingElement, baseUrl: string, now: Timestamp): (p: JobPosting)
    ensures IsStripped(p.title) && IsStripped(p.company) && IsStripped(p.location)
    ensures IsStripped(p.postedDate) && IsStripped(p.description)
    ensures p.title == GetTextSafe(element, TITLE_SELECTOR)
    ensures p.company == GetTextSafe(element, COMPANY_SELECTOR)
    ensures p.location == GetTextSafe(element, LOCATION_SELECTOR)
    ensures p.postedDate == GetTextSafe(element, POSTED_DATE_SELECTOR)
    ensures p.description == GetTextSafe(element, DESCRIPTION_SELECTOR)
    ensures p.url == NormalizeUrl(GetAttributeSafe(element, URL_SELECTOR, URL_ATTRIBUTE), baseUrl)
    ensures StartsWith(baseUrl, "http") ==> p.url == "" || StartsWith(p.url, "http")
    ensures p.url == "" <==> GetAttributeSafe(element, URL_SELECTOR, URL_ATTRIBUTE) == ""
    ensures p.extractedAt == now
  {
    var url := GetAttributeSafe(element, URL_SELECTOR, URL_ATTRIBUTE);
    NormalizedUrlIsAbsolute(url, baseUrl);
    JobPosting(
      title := GetTextSafe(element, TITLE_SELECTOR),
      company := GetTextSafe(element, COMPANY_SELECTOR),
      location := GetTextSafe(element, LOCATION_SELECTOR),
      postedDate := GetTextSafe(element, POSTED_DATE_SELECTOR),
      description := GetTextSafe(element, DESCRIPTION_SELECTOR),
      url := NormalizeUrl(url, baseUrl),
      extractedAt := now)
  }

  /** An element with nothing under any selector still yields a posting, with every field empty. */
  lemma BareElementGivesEmptyFields(element: ListingElement, baseUrl: string, now: Timestamp)
    requires forall selector :: element.find(selector).None?
    ensures var p := ExtractJobDetails(element, baseUrl, now);
      p.title == p.company == p.location == p.postedDate == p.description == p.url == ""
  {
  }
}

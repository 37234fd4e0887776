# KenyaJob.com job tracker — a Dafny model of its decision logic

The tracker is a Selenium scraper for KenyaJob.com. A run opens the search page, types the keywords and clicks a search button. It then reads the result cards, keeps the recently posted ones, records each as a "Not Applied" application and writes two CSV files. Around the browser and file I/O sit a few pieces of exact decision logic, and this project models and proves them:

- **Recency filter** `is_recent_job`. Its priority-ordered rules run over the lower-cased date text: "hour"/"today", then "day", then "week", then anything else. In the numeric branches the number is built from *every* digit in the text, glued together (`''.join(filter(str.isdigit, …))`). The model follows the code here, so "1-2 days ago" reads as twelve days. The failures of `int()` are kept too, both on `''` and past CPython's 4300-digit limit: the "day" rule fails open and the "week" rule fails closed.
- **Field lookups and URL clean-up.** `get_text_safe` and `get_attribute_safe` turn a missing node into `""`. `extract_job_details` puts `BASE_URL` in front of a non-empty link that does not start with `http`, with no separator.
- **Selector fallback.** The search button is looked up through ten CSS candidates and then six XPath candidates, and the first element found wins. When none is found the search fails with a fixed message. Result elements come from the first of seven selectors that matches anything.
- **The tracker object** `KenyaJobTracker` is a class with `jobListings` and `applications`. Its methods cover:
  - the capped extract-filter-append loop of `extract_job_listings`
  - `track_application`
  - the tracking loop of `run`
  - `run` itself, over an abstract page
- **The configuration** is a class whose option fields `update_config_from_args` overwrites one by one. Each overwrite is guarded by Python truthiness, and the test flag is applied last.

The central definitions, on which the lemmas below state their properties:

- `Recency.IsRecentJob` is `is_recent_job` (kenyajob_tracker.py:215-240).
- `Extraction.NormalizeUrl` is the link clean-up expression (kenyajob_tracker.py:207).
- `Cli.MergeArgs` is the configuration that `update_config_from_args` leaves behind (main.py:55-70).
- `Tracker.KeepRecent` is the recency test in the extraction loop, and `Tracker.NewListings` is everything one pass of that loop appends (kenyajob_tracker.py:172-186).

Modules, one file each:

- `wrappers.dfy`: `Option`, `Result`
- `text.dfy`: Python's `strip`, `lower`, `in`, `filter(str.isdigit, …)` and `int(…)` on strings
- `recency.dfy`
- `extraction.dfy`
- `locator.dfy`
- `sequences.dfy`: a generic filter and an indexed map, the shapes of the extraction loop
- `config.dfy`
- `cli.dfy`
- `tracker.dfy`

The browser is replaced by functions:

- a result element is a map from CSS selector to an optional node
- the page's button lookup is a map from candidate to an optional element
- its element-list lookup is a map from selector to a list

Each `datetime.now()` is a clock, a function from the position in a loop to a 19-character timestamp.

## Model

| member | source | states |
|---|---|---|
| Text.Strip | kenyajob_tracker.py:246 | the result is a slice of the input with only whitespace (Python's `isspace` set) cut from either end, and it starts and ends with a non-space |
| Text.StripIdempotent | kenyajob_tracker.py:246 | stripping an already stripped text changes nothing |
| Text.Lower | kenyajob_tracker.py:220 | same length; every character is the lower case of the original one, for A-Z and the Kelvin sign (which lowers to `k`) |
| Text.Contains | kenyajob_tracker.py:224-232 | `p in s` holds exactly when `p` occurs at some position of `s` |
| Text.DigitsOf | kenyajob_tracker.py:228 | the result is all digits, no longer than the input, and empty exactly when the input has no digit |
| Text.DigitsOfConcat | kenyajob_tracker.py:228 | keeping the digits distributes over concatenation |
| Text.DigitsOfLower | kenyajob_tracker.py:220-228 | lower-casing first does not change which digits are kept |
| Text.DigitsOfDigits | kenyajob_tracker.py:228 | a string of digits keeps all of itself |
| Text.ParseInt | kenyajob_tracker.py:228-234 | `int(…)` of the kept digits fails exactly when there are none or more than CPython's 4300-digit limit, and otherwise gives their value |
| Text.DecimalValue | kenyajob_tracker.py:228-234 | the value of k digits is below 10^k |
| Text.NatToDecimal | kenyajob_tracker.py:228-234 | Python's decimal spelling of a number: non-empty digits with no leading zero |
| Text.DecimalOfNat | kenyajob_tracker.py:228-234 | `int(str(n)) == n`: reading back the digits of n gives n |
| Text.NatOfDecimal | kenyajob_tracker.py:228-234 | `str(int(ds)) == ds` for every digit string without a leading zero |
| Text.LeadingZeroIgnored | kenyajob_tracker.py:228-234 | a leading zero leaves the value unchanged, as `int("07") == 7` |
| Recency.EmptyDateIsRecent | kenyajob_tracker.py:217-218 | an empty posted date is kept |
| Recency.HourOrTodayIsRecent | kenyajob_tracker.py:220-225 | text mentioning "hour" or "today", in any case, is kept whatever its digits |
| Recency.DayRule | kenyajob_tracker.py:226-231 | past hour/today, text mentioning "day" is kept iff `int()` fails on its glued digits (none, or too many) or their value is at most the threshold |
| Recency.WeekRule | kenyajob_tracker.py:232-237 | past hour/today/day, text mentioning "week" is kept iff `int()` accepts its glued digits and their value is exactly 1 |
| Recency.OtherTextIsRecent | kenyajob_tracker.py:238-240 | text mentioning none of the four words is kept |
| Recency.CaseInsensitive | kenyajob_tracker.py:220 | texts equal up to case get the same verdict |
| Recency.MonotoneInThreshold | kenyajob_tracker.py:229 | a text kept under one threshold is kept under every larger one |
| Recency.DigitsDaysAgo | kenyajob_tracker.py:226-231 | any digit string then " day(s) ago" is kept iff it is longer than `int()` accepts or its value is at most the threshold |
| Recency.DigitsWeeksAgo | kenyajob_tracker.py:232-237 | any digit string then " week(s) ago" is kept iff `int()` accepts its length and its value is 1 |
| Recency.NDaysAgo | kenyajob_tracker.py:226-231 | for every number N, "N days ago" / "N day ago" is kept iff N is at most the threshold or N has more than 4300 digits |
| Recency.NWeeksAgo | kenyajob_tracker.py:232-237 | for every number N, "N weeks ago" / "N week ago" is kept iff N is 1 |
| Recency.LeadingZeroDaysAgo | kenyajob_tracker.py:226-231 | "07 days ago" gets the same verdict as "7 days ago" while the longer text is within the `int()` limit |
| Recency.KelvinSignWeeksDropped | kenyajob_tracker.py:220-235 | "2 WEE\u212AS AGO" (with a Kelvin sign) lower-cases to "2 weeks ago" and is dropped |
| Recency.OneWeekAgoKept | kenyajob_tracker.py:232-235 | "1 week ago" is kept for every threshold |
| Recency.TwoWeeksAgoDropped | kenyajob_tracker.py:232-235 | "2 weeks ago" is dropped for every threshold |
| Recency.SeveralWeeksAgoDropped | kenyajob_tracker.py:232-237 | "several weeks ago" has no digits and is dropped |
| Recency.YesterdayKept | kenyajob_tracker.py:226-231 | "Yesterday" mentions "day", has no digits and is kept |
| Recency.RangeReadsAsTwelve | kenyajob_tracker.py:226-229 | "1-2 days ago" is kept iff the threshold is at least 12 |
| Extraction.GetTextSafe | kenyajob_tracker.py:242-248 | a missing node gives ""; a found node gives its text with surrounding whitespace stripped |
| Extraction.GetAttributeSafe | kenyajob_tracker.py:250-256 | a non-empty result is the attribute's value on the found node; a found node carrying the attribute gives exactly its value |
| Extraction.NormalizeUrlCases | kenyajob_tracker.py:207 | an empty link stays empty, an `http` link is unchanged, any other link becomes base + link |
| Extraction.NormalizedUrlIsAbsolute | kenyajob_tracker.py:207 | the result is empty iff the link is; with an `http` base every non-empty result starts with `http` |
| Extraction.NormalizeUrlIdempotent | kenyajob_tracker.py:207 | with an `http` base, cleaning up twice is cleaning up once |
| Extraction.NormalizeUrlKeepsLink | kenyajob_tracker.py:207 | the original link is always the tail of the result |
| Extraction.RelativePathJoined | kenyajob_tracker.py:207 | "/jobs/123" becomes "https://www.kenyajob.com/jobs/123", with no separator added |
| Extraction.SiteLinksAreAbsolute | config.py:23 | the site's base URL starts with "https", so with it every cleaned-up link is empty or absolute and the clean-up is idempotent |
| Extraction.ExtractJobDetails | kenyajob_tracker.py:193-209 | each field is the safe lookup of its own selector (title, company, location, posted date, description), the link is the cleaned-up `href` of `a.job-title`, the stamp is the clock reading; every text field is stripped, and the link is empty iff the `href` lookup is and absolute or empty under an `http` base |
| Extraction.BareElementGivesEmptyFields | kenyajob_tracker.py:196-202 | an element with no matching node still yields a posting, with every field "" |
| Locator.Tagged | kenyajob_tracker.py:62-100 | candidate i is selector i with the given lookup strategy |
| Locator.FirstHit | kenyajob_tracker.py:80-112 | the index found is the lowest one whose lookup succeeds; none is found iff every lookup fails |
| Locator.FindSearchButton | kenyajob_tracker.py:75-131 | returns the element and selector of the first candidate, CSS before XPath, that finds one; fails with the source's message iff all sixteen fail |
| Locator.XPathOnlyAfterEveryCss | kenyajob_tracker.py:91-112 | an XPath candidate wins only when all ten CSS candidates missed |
| Locator.FirstNonEmpty | kenyajob_tracker.py:161-170 | the result is the list of the first selector that matches anything (earlier ones matched nothing), and is empty iff every selector matches nothing |
| Locator.FindJobElements | kenyajob_tracker.py:150-170 | the elements found are exactly that first non-empty list |
| Sequences.FilterSound | kenyajob_tracker.py:180-181 | everything kept comes from the input and passes the test |
| Sequences.FilterComplete | kenyajob_tracker.py:180-181 | everything that passes the test is kept |
| Sequences.FilterConcat | kenyajob_tracker.py:177-181 | filtering a concatenation concatenates the filtered parts |
| Sequences.MapIndexedAt | kenyajob_tracker.py:177-179 | position j of the map is the function applied to element j at index j |
| Sequences.FilterMapStep | kenyajob_tracker.py:177-181 | one visit of the append loop keeps the accumulated list equal to the start plus the filtered, mapped prefix |
| Tracker.KeepRecentSound | kenyajob_tracker.py:180-181 | every kept posting is one of the input postings and passes `is_recent_job` |
| Tracker.KeepRecentComplete | kenyajob_tracker.py:180-181 | every input posting that passes `is_recent_job` is kept |
| Tracker.KeepRecentConcat | kenyajob_tracker.py:177-181 | filtering two batches in turn keeps what filtering them together keeps |
| Tracker.ExtractedAt | kenyajob_tracker.py:177-179 | the i-th extracted posting is `extract_job_details` of the i-th element at the i-th clock reading |
| Tracker.Take | kenyajob_tracker.py:177 | `s[:n]` is the prefix of exactly min(n, len(s)) elements |
| Tracker.NewListingsBounded | kenyajob_tracker.py:172-186 | one pass adds at most `MAX_LISTINGS` postings, no more than the elements found, each of them recent |
| Tracker.NewListingsLinksAbsolute | kenyajob_tracker.py:177-209 | with an `http` base every added posting's link is empty or absolute |
| Tracker.NoElementsNoListings | kenyajob_tracker.py:172-175 | when no selector matches anything, a pass adds nothing |
| Tracker.ApplicationFor | kenyajob_tracker.py:258-269 | title, company, location and url are copied; notes are ""; the applied date is non-empty iff the status is "Applied", and is then the clock reading |
| Tracker.NotAppliedRecordsMatchListings | kenyajob_tracker.py:310-311 | record i is "Not Applied", with no applied date and empty notes, and copies listing i |
| Tracker.KenyaJobTracker.constructor | kenyajob_tracker.py:14-17 | a new tracker holds no listings and no applications |
| Tracker.KenyaJobTracker.ExtractJobListings | kenyajob_tracker.py:145-186 | the new listings are the old ones followed by the recent postings extracted from the first `MAX_LISTINGS` result elements; applications are untouched |
| Tracker.KenyaJobTracker.AppendRecent | kenyajob_tracker.py:177-186 | the loop appends, in page order, exactly the extracted postings that are recent |
| Tracker.KenyaJobTracker.TrackApplication | kenyajob_tracker.py:258-270 | exactly one record is appended and nothing else changes |
| Tracker.KenyaJobTracker.TrackAllNotApplied | kenyajob_tracker.py:309-311 | one "Not Applied" record per listing is appended, in listing order |
| Tracker.KenyaJobTracker.Run | kenyajob_tracker.py:301-322 | a run completes iff the form appears, a button is found and results appear; a failed run changes nothing; a completed one extracts, tracks every listing and writes each file only for a non-empty list |
| Config.LiveConfig.constructor | config.py:4-24 | loading the configuration binds every option to its default |
| Cli.UpdateConfigFromArgs | main.py:55-70 | the new configuration is the old one merged with the arguments, option by option |
| Cli.FixedOptionsUnchanged | main.py:55-70 | output paths, timeout and URLs are never changed |
| Cli.NoArgsNoChange | main.py:55-70 | a bare invocation changes nothing |
| Cli.FalsyValuesDoNotOverride | main.py:57-70 | option by option, whatever the other arguments: an absent or falsy argument leaves its option unchanged (the cap also needs `--test` unset) |
| Cli.TruthyValuesOverride | main.py:57-70 | option by option, whatever the other arguments: a given truthy argument replaces its option (the cap only without `--test`) |
| Cli.HeadlessOnlySwitchesOn | main.py:67-68 | headless mode can be switched on but never off |
| Cli.TestModeWins | main.py:63-70 | the test flag sets the cap to 5 even when a cap is given |
| Cli.MergeIdempotent | main.py:55-70 | applying the same arguments twice is applying them once |
| Cli.MergeKeepsCapNonNegative | main.py:63-70 | a non-negative cap stays non-negative unless a negative one is given |

## Left out

- Browser I/O is not modelled. This covers driver setup, navigation, waiting, typing the keyword query (`" ".join(KEYWORDS)`), the click, the debug listing of all buttons, screenshots and driver teardown (kenyajob_tracker.py:25-45, 53-55, 114-130, 133-138, 292-299, 320-322). A run sees the page only as whether the keyword field appears, the two lookups, and whether result cards appear.
- CSV writing through pandas and directory creation are file I/O. The model records only whether each file would be written, which happens for a non-empty list.
- `datetime.now()` in `extract_job_details` and `track_application` is a clock parameter. `is_recent_job` reads the clock into `current_date` and never uses it, so `Recency.IsRecentJob` takes no clock at all. Console printing, argparse parsing and `sys.exit` are not modelled.
- Tracker.KenyaJobTracker.ExtractJobListings: requires `MAX_LISTINGS >= 0`, because a negative Python slice bound counts from the end.
- Text.DigitsOf: only ASCII digits count. Unicode digits, which `str.isdigit` accepts but `int()` may reject, are not modelled.
- Text.Lower: changes A-Z and the Kelvin sign (U+212A, which Python lowers to `k`) and leaves every other character alone. Python also lowers other non-ASCII letters, all to non-ASCII text; U+0130 even becomes two characters (`i` and a combining dot). None of those results is a digit or a letter of "hour", "today", "day" or "week", so the model's one-to-one lowering gives the same verdicts, but it does not promise Python's length or text for them.
- Text.ParseInt: uses CPython's default limit of 4300 digits. A program that changes it with `sys.set_int_max_str_digits`, or a Python from before the 2022 security releases that introduced it, converts any length.
- Extraction.GetAttributeSafe: a missing attribute (Selenium's `None`) reads as "". The source keeps `None` as the url, and `None` is falsy like "", so the clean-up treats both the same.
- Extraction.ExtractJobDetails: is total. Every lookup in the source already swallows its own exception, so its `None` result and the per-element `except` of the extraction loop are not modelled.
- Locator.FindJobElements: a lookup that raises is treated as one that finds nothing, as the source's `except: continue` does.
- Tracker.KenyaJobTracker.Run: the application records use one clock reading each. For "Not Applied" the `applied_date` reading is never stored, so only the `tracked_at` reading is kept.

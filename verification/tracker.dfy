/**
 * The tracker object `KenyaJobTracker`: the listings it keeps, the
 * application records it derives from them, and the run sequence
 * navigate -> search -> extract and filter -> track -> save.
 */
module Tracker {

  import opened Wrappers
  import opened Config
  import opened Recency
  import opened Extraction
  import opened Locator
  import opened Sequences

  /** One row of the application tracker. */
  datatype ApplicationRecord = ApplicationRecord(
    jobTitle: string,
    company: string,
    location: string,
    jobUrl: string,
    status: string,
    appliedDate: string,
    notes: string,
    trackedAt: Timestamp)

  const APPLIED: string := "Applied"
  const NOT_APPLIED: string := "Not Applied"

  /**
   * The record `track_application` builds for a posting. `appliedAt` and
   * `trackedAt` are the two clock readings it takes; the first is only used
   * for an "Applied" status.
   */
  function ApplicationFor(job: JobPosting, status: string, appliedAt: Timestamp, trackedAt: Timestamp): (r: ApplicationRecord)
    ensures r.jobTitle == job.title && r.company == job.company
    ensures r.location == job.location && r.jobUrl == job.url
    ensures r.status == status && r.notes == "" && r.trackedAt == trackedAt
    ensures r.appliedDate != "" <==> status == APPLIED
    ensures status == APPLIED ==> r.appliedDate == appliedAt
  {
    ApplicationRecord(
      jobTitle := job.title,
      company := job.company,
      location := job.location,
      jobUrl := job.url,
      status := status,
      appliedDate := if status == APPLIED then appliedAt else "",
      notes := "",
      trackedAt := trackedAt)
  }

  /** The test `is_recent_job` applies to a posting's date text. */
  function Recent(daysRecent: int): JobPosting -> bool {
    (p: JobPosting) => IsRecentJob(p.postedDate, daysRecent)
  }

  /** The postings that pass the recency filter, in their original order. */
  function KeepRecent(postings: seq<JobPosting>, daysRecent: int): seq<JobPosting> {
    Filter(postings, Recent(daysRecent))
  }

  /** Everything the filter keeps is one of the postings and is recent. */
  lemma KeepRecentSound(postings: seq<JobPosting>, daysRecent: int, k: int)
    requires 0 <= k < |KeepRecent(postings, daysRecent)|
    ensures var kept := KeepRecent(postings, daysRecent);
      kept[k] in postings && IsRecentJob(kept[k].postedDate, daysRecent)
  {
    FilterSound(postings, Recent(daysRecent), k);
  }

  /** Nothing recent is lost: every posting that passes the filter is kept. */
  lemma KeepRecentComplete(postings: seq<JobPosting>, daysRecent: int, i: int)
    requires 0 <= i < |postings| && IsRecentJob(postings[i].postedDate, daysRecent)
    ensures postings[i] in KeepRecent(postings, daysRecent)
  {
    FilterComplete(postings, Recent(daysRecent), i);
  }

  /** Filtering two batches one after the other keeps what filtering them together keeps. */
  lemma KeepRecentConcat(a: seq<JobPosting>, b: seq<JobPosting>, daysRecent: int)
    ensures KeepRecent(a + b, daysRecent) == KeepRecent(a, daysRecent) + KeepRecent(b, daysRecent)
  {
    FilterConcat(a, b, Recent(daysRecent));
  }

  /** `extract_job_details` on the i-th visited element, at the i-th clock reading. */
  function Extract(baseUrl: string, clock: nat -> Timestamp): (ListingElement, nat) -> JobPosting {
    (element: ListingElement, i: nat) => ExtractJobDetails(element, baseUrl, clock(i))
  }

  /** The posting extracted from each element, in page order. */
  function Extracted(elements: seq<ListingElement>, baseUrl: string, clock: nat -> Timestamp): seq<JobPosting> {
    MapIndexed(elements, Extract(baseUrl, clock))
  }

  /** The i-th extracted posting is the one `extract_job_details` builds from the i-th element at the i-th reading. */
  lemma ExtractedAt(elements: seq<ListingElement>, baseUrl: string, clock: nat -> Timestamp, j: int)
    requires 0 <= j < |elements|
    ensures |Extracted(elements, baseUrl, clock)| == |elements|
    ensures Extracted(elements, baseUrl, clock)[j] == ExtractJobDetails(elements[j], baseUrl, clock(j))
  {
    MapIndexedAt(elements, Extract(baseUrl, clock), j);
  }

  /** Python's `s[:n]` for a non-negative `n`. */
  function Take<T>(s: seq<T>, n: nat): (r: seq<T>)
    ensures |r| == if n < |s| then n else |s|
    ensures r == s[..|r|]
    ensures n >= |s| ==> r == s
  {
    if n < |s| then s[..n] else s
  }

  /** The postings one extraction pass appends: the first `maxListings` result elements, extracted and filtered. */
  function NewListings(findAll: string -> seq<ListingElement>, config: Settings, clock: nat -> Timestamp): seq<JobPosting>
    requires config.maxListings >= 0
  {
    var elements := Take(FirstNonEmpty(findAll, JOB_SELECTORS), config.maxListings);
    KeepRecent(Extracted(elements, config.baseUrl, clock), config.daysRecent)
  }

  /** One pass adds at most `maxListings` postings, and every one of them is recent. */
  lemma NewListingsBounded(findAll: string -> seq<ListingElement>, config: Settings, clock: nat -> Timestamp)
    requires config.maxListings >= 0
    ensures var added := NewListings(findAll, config, clock);
      |added| <= config.maxListings
      && |added| <= |FirstNonEmpty(findAll, JOB_SELECTORS)|
      && forall k :: 0 <= k < |added| ==> IsRecentJob(added[k].postedDate, config.daysRecent)
  {
    var all := Extracted(Take(FirstNonEmpty(findAll, JOB_SELECTORS), config.maxListings), config.baseUrl, clock);
    var added := KeepRecent(all, config.daysRecent);
    forall k | 0 <= k < |added|
      ensures IsRecentJob(added[k].postedDate, config.daysRecent)
    {
      KeepRecentSound(all, config.daysRecent, k);
    }
  }

  /** With an http base address, every added posting's link is absolute or empty. */
  lemma NewListingsLinksAbsolute(findAll: string -> seq<ListingElement>, config: Settings, clock: nat -> Timestamp, k: int)
    requires config.maxListings >= 0
    requires Text.StartsWith(config.baseUrl, "http")
    requires 0 <= k < |NewListings(findAll, config, clock)|
    ensures var url := NewListings(findAll, config, clock)[k].url;
      url == "" || Text.StartsWith(url, "http")
  {
    var elements := Take(FirstNonEmpty(findAll, JOB_SELECTORS), config.maxListings);
    var all := Extracted(elements, config.baseUrl, clock);
    KeepRecentSound(all, config.daysRecent, k);
    var j :| 0 <= j < |all| && all[j] == NewListings(findAll, config, clock)[k];
    ExtractedAt(elements, config.baseUrl, clock, j);
  }

  /** When the page has no result elements, a pass adds nothing. */
  lemma NoElementsNoListings(findAll: string -> seq<ListingElement>, config: Settings, clock: nat -> Timestamp)
    requires config.maxListings >= 0
    requires forall j :: 0 <= j < |JOB_SELECTORS| ==> findAll(JOB_SELECTORS[j]) == []
    ensures NewListings(findAll, config, clock) == []
  {
  }

  /** One "Not Applied" record per listing, in listing order; the i-th is stamped with the i-th clock reading. */
  function NotAppliedRecords(jobs: seq<JobPosting>, clock: nat -> Timestamp): (records: seq<ApplicationRecord>)
    ensures |records| == |jobs|
  {
    seq(|jobs|, i requires 0 <= i < |jobs| => ApplicationFor(jobs[i], NOT_APPLIED, clock(i), clock(i)))
  }

  /** Every tracked listing yields a "Not Applied" record with no applied date and empty notes, copied from it. */
  lemma NotAppliedRecordsMatchListings(jobs: seq<JobPosting>, clock: nat -> Timestamp, i: int)
    requires 0 <= i < |jobs|
    ensures var r := NotAppliedRecords(jobs, clock)[i];
      r.status == NOT_APPLIED && r.appliedDate == "" && r.notes == ""
      && r.jobTitle == jobs[i].title && r.company == jobs[i].company
      && r.location == jobs[i].location && r.jobUrl == jobs[i].url
  {
    assert NotAppliedRecords(jobs, clock)[i] == ApplicationFor(jobs[i], NOT_APPLIED, clock(i), clock(i));
    assert NOT_APPLIED != APPLIED by { assert |NOT_APPLIED| != |APPLIED|; }
  }

  /** Why a run stopped early. */
  datatype Failure =
    | SearchFormMissing
    | SearchButtonMissing(message: string)
    | ResultsTimedOut

  /** How a run ended: the two file writes that happen only for non-empty lists, or the failure. */
  datatype RunOutcome =
    | Completed(listingsFileWritten: bool, applicationsFileWritten: bool)
    | Aborted(failure: Failure)

  /**
   * The website, as far as a run can observe it: whether the keyword field
   * appears, the search-button lookup, whether result cards appear after the
   * click, and the result-element lookup.
   */
  datatype Page<E> = Page(
    hasKeywordInput: bool,
    find: Candidate -> Option<E>,
    resultsAppear: bool,
    findAll: string -> seq<ListingElement>)

  /** The search form is filled in, a search button is found and results appear. */
  predicate SearchSucceeds<E>(page: Page<E>) {
    page.hasKeywordInput && FirstHit(page.find, SearchButtonCandidates()).Some? && page.resultsAppear
  }

  class KenyaJobTracker {
    var jobListings: seq<JobPosting>
    var applications: seq<ApplicationRecord>

    /** A new tracker has no listings and no applications. */
    constructor ()
      ensures jobListings == [] && applications == []
    {
      jobListings := [];
      applications := [];
    }

    /**
     * `extract_job_listings`: find the result elements; visit at most
     * `maxListings` of them in page order; append each extracted posting that
     * passes the recency filter. Existing listings are left as they are.
     */
    method ExtractJobListings(findAll: string -> seq<ListingElement>, config: Settings, clock: nat -> Timestamp)
      requires config.maxListings >= 0
      modifies this
      ensures jobListings == old(jobListings) + NewListings(findAll, config, clock)
      ensures applications == old(applications)
    {
      var elements := FindJobElements(findAll);
      if |elements| == 0 {
        return;
      }
      AppendRecent(Take(elements, config.maxListings), config.baseUrl, clock, config.daysRecent);
    }

    /** The loop of `extract_job_listings` over the capped element list: extract each, keep the recent ones. */
    method AppendRecent(batch: seq<ListingElement>, baseUrl: string, clock: nat -> Timestamp, daysRecent: int)
      modifies this
      ensures jobListings == old(jobListings) + KeepRecent(Extracted(batch, baseUrl, clock), daysRecent)
      ensures applications == old(applications)
    {
      ghost var start := jobListings;
      ghost var extract, recent := Extract(baseUrl, clock), Recent(daysRecent);
      var i := 0;
      while i < |batch|
        invariant 0 <= i <= |batch|
        invariant jobListings == start + Filter(MapIndexed(batch[..i], extract), recent)
        invariant applications == old(applications)
      {
        var job := ExtractJobDetails(batch[i], baseUrl, clock(i));
        FilterMapStep(start, jobListings, batch, i, extract, recent, job);
        if IsRecentJob(job.postedDate, daysRecent) {
          jobListings := jobListings + [job];
        }
        i := i + 1;
      }
      assert batch[..i] == batch;
    }

    /** `track_application`: append the one record built from the posting. */
    method TrackApplication(job: JobPosting, status: string, appliedAt: Timestamp, trackedAt: Timestamp)
      modifies this
      ensures applications == old(applications) + [ApplicationFor(job, status, appliedAt, trackedAt)]
      ensures jobListings == old(jobListings)
    {
      applications := applications + [ApplicationFor(job, status, appliedAt, trackedAt)];
    }

    /** The tracking loop of `run`: every listing, in order, tracked as "Not Applied". */
    method TrackAllNotApplied(clock: nat -> Timestamp)
      modifies this
      ensures applications == old(applications) + NotAppliedRecords(jobListings, clock)
      ensures jobListings == old(jobListings)
    {
      var jobs := jobListings;
      var i := 0;
      while i < |jobs|
        invariant 0 <= i <= |jobs|
        invariant jobListings == jobs
        invariant applications == old(applications) + NotAppliedRecords(jobs[..i], clock)
      {
        TrackApplication(jobs[i], NOT_APPLIED, clock(i), clock(i));
        assert NotAppliedRecords(jobs[..i + 1], clock)
            == NotAppliedRecords(jobs[..i], clock) + [ApplicationFor(jobs[i], NOT_APPLIED, clock(i), clock(i))];
        i := i + 1;
      }
      assert jobs[..i] == jobs;
    }

    /**
     * `run`: open the search page, search, extract, track and save. Any
     * failure before extraction ends the run with nothing extracted, tracked
     * or written; otherwise each output file is written only for a non-empty list.
     */
    method Run<E>(page: Page<E>, config: Settings, extractClock: nat -> Timestamp, trackClock: nat -> Timestamp)
      returns (outcome: RunOutcome)
      requires config.maxListings >= 0
      modifies this
      ensures outcome.Completed? <==> SearchSucceeds(page)
      ensures outcome.Aborted? ==> jobListings == old(jobListings) && applications == old(applications)
      ensures outcome.Completed? ==>
        jobListings == old(jobListings) + NewListings(page.findAll, config, extractClock)
        && applications == old(applications) + NotAppliedRecords(jobListings, trackClock)
        && outcome.listingsFileWritten == (jobListings != [])
        && outcome.applicationsFileWritten == (applications != [])
    {
      if !page.hasKeywordInput {
        return Aborted(SearchFormMissing);
      }
      var button := FindSearchButton(page.find);
      if button.Err? {
        return Aborted(SearchButtonMissing(button.error));
      }
      if !page.resultsAppear {
        return Aborted(ResultsTimedOut);
      }
      ExtractJobListings(page.findAll, config, extractClock);
      TrackAllNotApplied(trackClock);
      outcome := Completed(|jobListings| > 0, |applications| > 0);
    }
  }
}

/**
 * The selector-fallback search: candidate selectors are tried in a fixed
 * order and the first one the page answers wins. `perform_search` uses it to
 * find the search button (CSS candidates, then XPath candidates) and
 * `extract_job_listings` to find the result elements (the first candidate
 * that matches at least one element).
 */
module Locator {

  import opened Wrappers

  /** The two lookup strategies the tracker uses. */
  datatype By = CssSelector | XPath

  datatype Candidate = Candidate(strategy: By, selector: string)

  const SEARCH_BUTTON_CSS: seq<string> := [
    "button[type='submit']",
    "input[type='submit']",
    "button.btn-primary",
    "button.btn",
    "input.btn",
    "input[value*='Search']",
    "input[value*='Find']",
    "input[value*='Go']",
    "button[class*='search']",
    "input[class*='search']"
  ]

  const SEARCH_BUTTON_XPATH: seq<string> := [
    "//button[contains(text(), 'Search')]",
    "//button[contains(text(), 'Find')]",
    "//input[@type='submit' and contains(@value, 'Search')]",
    "//input[@type='submit' and contains(@value, 'Find')]",
    "//input[@type='button' and contains(@value, 'Search')]",
    "//input[@type='button' and contains(@value, 'Find')]"
  ]

  const JOB_SELECTORS: seq<string> := [
    ".job-card",
    ".job-listing",
    ".job-item",
    ".job",
    "[class*='job']",
    "[class*='listing']",
    "div[data-job]"
  ]

  const SEARCH_BUTTON_NOT_FOUND: string :=
    "Search button not found with any known selector. Check debug output above."

  /** The selectors as candidates of one strategy, in order. */
  function Tagged(strategy: By, selectors: seq<string>): (cs: seq<Candidate>)
    ensures |cs| == |selectors|
    ensures forall i :: 0 <= i < |cs| ==> cs[i] == Candidate(strategy, selectors[i])
  {
    seq(|selectors|, i requires 0 <= i < |selectors| => Candidate(strategy, selectors[i]))
  }

  /** Every search-button candidate in the order they are tried: all CSS ones, then all XPath ones. */
  function SearchButtonCandidates(): seq<Candidate> {
    Tagged(CssSelector, SEARCH_BUTTON_CSS) + Tagged(XPath, SEARCH_BUTTON_XPATH)
  }

  /** The index of the first candidate for which the page returns an element. */
  function FirstHit<E>(find: Candidate -> Option<E>, candidates: seq<Candidate>): (r: Option<nat>)
    ensures r.Some? ==> r.value < |candidates| && find(candidates[r.value]).Some?
    ensures r.Some? ==> forall j :: 0 <= j < r.value ==> find(candidates[j]).None?
    ensures r.None? <==> forall j :: 0 <= j < |candidates| ==> find(candidates[j]).None?
  {
    if candidates == [] then None
    else if find(candidates[0]).Some? then Some(0)
    else
      match FirstHit(find, candidates[1..])
      case None => None
      case Some(i) => Some(i + 1)
  }

  /** A found search button and the selector that found it. */
  datatype ButtonHit<E> = ButtonHit(button: E, selector: string, strategy: By)

  /** Candidate `i` of a CSS list followed by an XPath list. */
  lemma CandidateAt(css: seq<string>, xpath: seq<string>, i: int)
    requires 0 <= i < |css| + |xpath|
    ensures |Tagged(CssSelector, css) + Tagged(XPath, xpath)| == |css| + |xpath|
    ensures (Tagged(CssSelector, css) + Tagged(XPath, xpath))[i]
            == if i < |css| then Candidate(CssSelector, css[i]) else Candidate(XPath, xpath[i - |css|])
  {
  }

  /** A candidate that matches after only misses is the first hit. */
  lemma FirstHitAt<E>(find: Candidate -> Option<E>, candidates: seq<Candidate>, i: nat)
    requires i < |candidates| && find(candidates[i]).Some?
    requires forall j :: 0 <= j < i ==> find(candidates[j]).None?
    ensures FirstHit(find, candidates) == Some(i)
  {
    var r := FirstHit(find, candidates);
    assert r.Some?;
  }

  /**
   * The search-button lookup of `perform_search`: the CSS candidates in order,
   * then, only when none matched, the XPath candidates in order; the first
   * element found wins, and when none is found the search fails.
   */
  method FindSearchButton<E>(find: Candidate -> Option<E>) returns (r: Result<ButtonHit<E>, string>)
    ensures match FirstHit(find, SearchButtonCandidates())
            case None => r.Err? && r.error == SEARCH_BUTTON_NOT_FOUND
            case Some(i) =>
              r.Ok? && find(SearchButtonCandidates()[i]) == Some(r.value.button)
              && SearchButtonCandidates()[i] == Candidate(r.value.strategy, r.value.selector)
  {
    ghost var all := SearchButtonCandidates();
    var css, xpath := SEARCH_BUTTON_CSS, SEARCH_BUTTON_XPATH;
    assert all == Tagged(CssSelector, css) + Tagged(XPath, xpath);
    var hit: Option<ButtonHit<E>> := None;
    ghost var at: nat := 0;
    var i := 0;
    while i < |css|
      invariant 0 <= i <= |css|
      invariant forall j :: 0 <= j < i ==> find(all[j]).None?
    {
      CandidateAt(css, xpath, i);
      var outcome := find(Candidate(CssSelector, css[i]));
      if outcome.Some? {
        hit := Some(ButtonHit(outcome.value, css[i], CssSelector));
        at := i;
        break;
      }
      i := i + 1;
    }
    if hit.None? {
      var k := 0;
      while k < |xpath|
        invariant 0 <= k <= |xpath|
        invariant forall j :: 0 <= j < |css| + k ==> find(all[j]).None?
      {
        CandidateAt(css, xpath, |css| + k);
        var outcome := find(Candidate(XPath, xpath[k]));
        if outcome.Some? {
          hit := Some(ButtonHit(outcome.value, xpath[k], XPath));
          at := |css| + k;
          break;
        }
        k := k + 1;
      }
    }
    if hit.None? {
      assert FirstHit(find, all).None?;
      r := Err(SEARCH_BUTTON_NOT_FOUND);
    } else {
      CandidateAt(css, xpath, at);
      FirstHitAt(find, all, at);
      r := Ok(hit.value);
    }
  }

  /** An XPath candidate is only ever chosen after every CSS candidate has missed. */
  lemma XPathOnlyAfterEveryCss<E>(find: Candidate -> Option<E>)
    requires FirstHit(find, SearchButtonCandidates()).Some?
    requires SearchButtonCandidates()[FirstHit(find, SearchButtonCandidates()).value].strategy == XPath
    ensures forall j :: 0 <= j < |SEARCH_BUTTON_CSS| ==> find(Candidate(CssSelector, SEARCH_BUTTON_CSS[j])).None?
  {
    var css, xpath := SEARCH_BUTTON_CSS, SEARCH_BUTTON_XPATH;
    var all := SearchButtonCandidates();
    var i := FirstHit(find, all).value;
    CandidateAt(css, xpath, i);
    forall j | 0 <= j < |css| ensures find(Candidate(CssSelector, css[j])).None? {
      CandidateAt(css, xpath, j);
    }
  }

  /** The first candidate, in order, for which the page returns a non-empty element list, and that list. */
  function FirstNonEmpty<T>(findAll: string -> seq<T>, selectors: seq<string>): (r: seq<T>)
    ensures r == [] <==> forall j :: 0 <= j < |selectors| ==> findAll(selectors[j]) == []
    ensures r != [] ==> exists i :: 0 <= i < |selectors| && r == findAll(selectors[i])
                                    && forall j :: 0 <= j < i ==> findAll(selectors[j]) == []
  {
    if selectors == [] then []
    else if |findAll(selectors[0])| > 0 then findAll(selectors[0])
    else
      var r := FirstNonEmpty(findAll, selectors[1..]);
      assert forall j :: 1 <= j < |selectors| ==> selectors[j] == selectors[1..][j - 1];
      assert r != [] ==> exists i :: 0 <= i < |selectors| && r == findAll(selectors[i])
                                     && forall j :: 0 <= j < i ==> findAll(selectors[j]) == [] by {
        if r != [] {
          var i :| 0 <= i < |selectors[1..]| && r == findAll(selectors[1..][i])
                   && forall j :: 0 <= j < i ==> findAll(selectors[1..][j]) == [];
          assert r == findAll(selectors[i + 1]);
        }
      }
      r
  }

  /**
   * The result-element lookup of `extract_job_listings`: the job selectors in
   * order; the elements of the first one that matches anything, never a
   * mixture of two selectors' matches. A lookup that raises counts as no match.
   */
  method FindJobElements<T>(findAll: string -> seq<T>) returns (elements: seq<T>)
    ensures elements == FirstNonEmpty(findAll, JOB_SELECTORS)
  {
    elements := [];
    var i := 0;
    while i < |JOB_SELECTORS|
      invariant 0 <= i <= |JOB_SELECTORS|
      invariant elements == []
      invariant FirstNonEmpty(findAll, JOB_SELECTORS) == FirstNonEmpty(findAll, JOB_SELECTORS[i..])
    {
      var found := findAll(JOB_SELECTORS[i]);
      if |found| > 0 {
        elements := found;
        break;
      }
      i := i + 1;
    }
  }
}

/**
 * The command-line entry point's `update_config_from_args`: parsed arguments
 * overwrite configuration options one by one, each guarded by Python
 * truthiness, with the test flag applied last.
 */
module Cli {

  import opened Wrappers
  import opened Config

  /**
   * The parsed arguments. An option that was not given is `None`; the two
   * flags are `false` unless given.
   */
  datatype Args = Args(
    keywords: Option<seq<string>>,
    location: Option<string>,
    category: Option<string>,
    maxListings: Option<int>,
    daysRecent: Option<int>,
    headless: bool,
    test: bool)

  /** The arguments of a bare invocation. */
  const NO_ARGS: Args := Args(None, None, None, None, None, false, false)

  /** The listing cap that test mode imposes. */
  const TEST_MAX_LISTINGS: int := 5

  /** Python truthiness of an optional list or string: given and non-empty. */
  predicate GivenSeq<T>(o: Option<seq<T>>) {
    o.Some? && |o.value| > 0
  }

  /** Python truthiness of an optional integer: given and non-zero. */
  predicate GivenInt(o: Option<int>) {
    o.Some? && o.value != 0
  }

  /** What the configuration holds once the arguments are merged, option by option. */
  function MergeArgs(c: Settings, a: Args): Settings {
    c.(keywords := if GivenSeq(a.keywords) then a.keywords.value else c.keywords,
       location := if GivenSeq(a.location) then a.location.value else c.location,
       category := if GivenSeq(a.category) then a.category.value else c.category,
       maxListings := if a.test then TEST_MAX_LISTINGS
                      else if GivenInt(a.maxListings) then a.maxListings.value
                      else c.maxListings,
       daysRecent := if GivenInt(a.daysRecent) then a.daysRecent.value else c.daysRecent,
       headless := c.headless || a.headless)
  }

  /** Overwrites the live configuration from the arguments, in the order the entry point does. */
  method UpdateConfigFromArgs(config: LiveConfig, args: Args)
    modifies config
    ensures config.Snapshot() == MergeArgs(old(config.Snapshot()), args)
  {
    if GivenSeq(args.keywords) {
      config.keywords := args.keywords.value;
    }
    if GivenSeq(args.location) {
      config.location := args.location.value;
    }
    if GivenSeq(args.category) {
      config.category := args.category.value;
    }
    if GivenInt(args.maxListings) {
      config.maxListings := args.maxListings.value;
    }
    if GivenInt(args.daysRecent) {
      config.daysRecent := args.daysRecent.value;
    }
    if args.headless {
      config.headless := args.headless;
    }
    if args.test {
      config.maxListings := TEST_MAX_LISTINGS;
    }
  }

  /** Output paths, the browser timeout and the site URLs are never overwritten. */
  lemma FixedOptionsUnchanged(c: Settings, a: Args)
    ensures var r := MergeArgs(c, a);
      r.outputDir == c.outputDir && r.listingsCsv == c.listingsCsv
      && r.applicationsCsv == c.applicationsCsv && r.screenshotsDir == c.screenshotsDir
      && r.browserTimeout == c.browserTimeout && r.baseUrl == c.baseUrl && r.searchUrl == c.searchUrl
  {
  }

  /** A bare invocation leaves the configuration as it was. */
  lemma NoArgsNoChange(c: Settings)
    ensures MergeArgs(c, NO_ARGS) == c
  {
  }

  /**
   * Each option on its own: an argument that is absent or falsy (an empty list
   * or string, a zero count, an unset flag) leaves that option as it was,
   * whatever the other arguments are. The cap is also subject to `--test`.
   */
  lemma FalsyValuesDoNotOverride(c: Settings, a: Args)
    ensures var r := MergeArgs(c, a);
      (!GivenSeq(a.keywords) ==> r.keywords == c.keywords)
      && (!GivenSeq(a.location) ==> r.location == c.location)
      && (!GivenSeq(a.category) ==> r.category == c.category)
      && (!a.test && !GivenInt(a.maxListings) ==> r.maxListings == c.maxListings)
      && (!GivenInt(a.daysRecent) ==> r.daysRecent == c.daysRecent)
      && (!a.headless ==> r.headless == c.headless)
  {
  }

  /**
   * Each option on its own: a given, truthy argument replaces that option,
   * whatever the other arguments are; only the cap gives way to `--test`.
   */
  lemma TruthyValuesOverride(c: Settings, a: Args)
    ensures var r := MergeArgs(c, a);
      (GivenSeq(a.keywords) ==> r.keywords == a.keywords.value)
      && (GivenSeq(a.location) ==> r.location == a.location.value)
      && (GivenSeq(a.category) ==> r.category == a.category.value)
      && (!a.test && GivenInt(a.maxListings) ==> r.maxListings == a.maxListings.value)
      && (GivenInt(a.daysRecent) ==> r.daysRecent == a.daysRecent.value)
      && (a.headless ==> r.headless)
  {
  }

  /** The arguments can switch headless mode on but never off. */
  lemma HeadlessOnlySwitchesOn(c: Settings, a: Args)
    ensures MergeArgs(c, a).headless == (c.headless || a.headless)
    ensures c.headless ==> MergeArgs(c, a).headless
  {
  }

  /** Test mode caps the listings at five even when a cap is also given. */
  lemma TestModeWins(c: Settings, a: Args)
    requires a.test
    ensures MergeArgs(c, a).maxListings == TEST_MAX_LISTINGS
  {
  }

  /** Merging the same arguments a second time changes nothing. */
  lemma MergeIdempotent(c: Settings, a: Args)
    ensures MergeArgs(MergeArgs(c, a), a) == MergeArgs(c, a)
  {
  }

  /** The listing cap stays non-negative unless a negative cap is given. */
  lemma MergeKeepsCapNonNegative(c: Settings, a: Args)
    requires c.maxListings >= 0
    requires a.maxListings.Some? ==> a.maxListings.value >= 0
    ensures MergeArgs(c, a).maxListings >= 0
  {
  }
}

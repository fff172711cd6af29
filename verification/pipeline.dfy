/**
 The functions of src/shared/index.js, composed from the stage machine the
 way the source composes its awaited calls, and the properties each entry
 point promises about the calls it makes and how it ends.
 */
module Pipeline {
  import opened JsValues
  import opened RunOptions
  import opened Reports
  import opened Trace
  import opened Machine

  /** The stages of `runScrape`, in order. */
  const CrawlStages: seq<Stage> := [Validate, Scrape, DumpRaw]

  /** The optional lookups of `generateReports`, each present exactly when its flag is on. */
  function LookupStages(findFeatures: bool, findPopulations: bool): seq<Stage> {
    (if findFeatures then [Features] else []) + (if findPopulations then [Populations] else [])
  }

  /** The stages of `generateReports` under the two lookup flags, in order. */
  function ReportStages(findFeatures: bool, findPopulations: bool): seq<Stage> {
    [Rate, Dedupe, Summarize] + LookupStages(findFeatures, findPopulations) + [Ids, Clean, Write]
  }

  /** The stages that belong to report generation. */
  predicate IsReportStage(s: Stage) {
    s in {Rate, Dedupe, Summarize, Features, Populations, Ids, Clean, Write}
  }

  /** The report stages an entry point runs under its options. */
  function ReportStagesFor(options: Options): seq<Stage> {
    ReportStages(Flag(options, "findFeatures"), Flag(options, "findPopulations"))
  }

  /** A run's variables before its first call: nothing fetched, no ratings, `features = null`. */
  function Start(options: Options, report: Report): State {
    State(options, [], [], report, Undefined, Null, Undefined)
  }

  /** The state `generateReports` starts from: its arguments, no ratings, `features = null`. */
  function ReportStart(sources: seq<JsValue>, locations: seq<JsValue>, report: Report, options: Options): State {
    State(options, sources, locations, report, Undefined, Null, Undefined)
  }

  /** A run whose returned value is what the final write produced. */
  function Returned(r: Run<State>): Run<JsValue> {
    match r.outcome
    case Done(st) => Run(r.trace, Done(st.output))
    case Exit(code) => Run(r.trace, Exit(code))
    case Abort(e) => Run(r.trace, Abort(e))
  }

  // ---------------------------------------------------------------------------
  // The functions of src/shared/index.js

  /** `getSources`: fetch the sources; an empty list ends the process with exit code 0. */
  function GetSources(c: Collaborators, st: State): (r: Run<State>)
    ensures r.trace == [FetchSources(st.options)]
    ensures r.outcome.Exit? <==> c.fetchSources(st.options) == Ok([])
    ensures r.outcome.Exit? ==> r.outcome.code == 0
    ensures r.outcome.Abort? <==> c.fetchSources(st.options).Throw?
    ensures r.outcome.Done? ==>
      && c.fetchSources(st.options) == Ok(r.outcome.value.sources)
      && |r.outcome.value.sources| > 0
      && r.outcome.value == st.(sources := r.outcome.value.sources)
  {
    Exec(c, [Fetch], st)
  }

  /** `runScrape`: validate, scrape, then write the raw checkpoint. */
  function RunScrape(c: Collaborators, st: State): Run<State> {
    Exec(c, CrawlStages, st)
  }

  /**
   `generateReports`: rating, deduplication, the scrape summary, the lookups
   the options switch on, ID transform, cleaning, and the final write, whose
   result is returned. `ratings` and `features` start unset and null.
   */
  function GenerateReports(c: Collaborators, sources: seq<JsValue>, locations: seq<JsValue>, report: Report,
                           options: Options): Run<JsValue> {
    Returned(Exec(c, ReportStagesFor(options), ReportStart(sources, locations, report, options)))
  }

  /**
   The body of `generate` once its options and report exist: fetch and crawl,
   then report generation on the crawled state.
   */
  function CrawlAndReport(c: Collaborators, st: State): Run<JsValue> {
    var fetched := GetSources(c, st);
    if !fetched.outcome.Done? then Run(fetched.trace, Stop(fetched.outcome))
    else
      var crawled := RunScrape(c, fetched.outcome.value);
      if !crawled.outcome.Done? then Run(fetched.trace + crawled.trace, Stop(crawled.outcome))
      else
        var ws := crawled.outcome.value;
        var reported := GenerateReports(c, ws.sources, ws.locations, ws.report, st.options);
        Run(fetched.trace + crawled.trace + reported.trace, reported.outcome)
  }

  /** `generate`: default the options, create the report, then fetch, crawl and generate reports. */
  function Generate(c: Collaborators, date: JsValue, options: Options, today: string): Run<JsValue> {
    CrawlAndReport(c, Start(GetFullOptions(options), EmptyReport(date, today)))
  }

  /** The body of `scrapeToRawFiles` once its options and report exist: fetch and crawl only. */
  function CrawlOnly(c: Collaborators, st: State): Run<seq<JsValue>> {
    var fetched := GetSources(c, st);
    if !fetched.outcome.Done? then Run(fetched.trace, Stop(fetched.outcome))
    else
      var crawled := RunScrape(c, fetched.outcome.value);
      match crawled.outcome
      case Done(ws) => Run(fetched.trace + crawled.trace, Done(ws.locations))
      case Exit(code) => Run(fetched.trace + crawled.trace, Exit(code))
      case Abort(e) => Run(fetched.trace + crawled.trace, Abort(e))
  }

  /** The options `scrapeToRawFiles` runs with: the defaults, then `dumpRaw` forced on. */
  function DumpOptions(options: Options): (o: Options)
    ensures Get(o, "dumpRaw") == Bool(true)
    ensures forall k :: k != "dumpRaw" ==> Get(o, k) == Get(GetFullOptions(options), k)
  {
    GetFullOptions(options)["dumpRaw" := Bool(true)]
  }

  /** `scrapeToRawFiles`: fetch and crawl with `dumpRaw` forced on; returns the scraped locations. */
  function ScrapeToRawFiles(c: Collaborators, date: JsValue, options: Options, today: string)
    : Run<seq<JsValue>> {
    CrawlOnly(c, Start(DumpOptions(options), EmptyReport(date, today)))
  }

  /**
   The body shared by the two resume entry points: run the `restore` stages
   from an empty state, then generate reports on what they restored.
   */
  function Resume(c: Collaborators, restore: seq<Stage>, o: Options): Run<JsValue> {
    var loaded := Exec(c, restore, Start(o, map[]));
    if !loaded.outcome.Done? then Run(loaded.trace, Stop(loaded.outcome))
    else
      var ws := loaded.outcome.value;
      var reported := GenerateReports(c, ws.sources, ws.locations, ws.report, o);
      Run(loaded.trace + reported.trace, reported.outcome)
  }

  /** `generateReportsFromRawFiles`: restore sources, locations and report, then generate reports. */
  function GenerateReportsFromRawFiles(c: Collaborators, options: Options): Run<JsValue> {
    Resume(c, [Restore], GetFullOptions(options))
  }

  /**
   `generateReportsFromCombinedRawFiles`: restore, then append the secondary
   dataset when it loads (its loader's error is caught), then generate reports.
   */
  function GenerateReportsFromCombinedRawFiles(c: Collaborators, options: Options): Run<JsValue> {
    Resume(c, [Restore, RestoreLi], GetFullOptions(options))
  }
}

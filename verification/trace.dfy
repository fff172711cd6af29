/**
 The vocabulary of a pipeline run: the imported collaborators the orchestrator
 calls (their code is not part of this model, so each is an uninterpreted
 function value), the record of one call with its arguments, and the result of
 a run as the sequence of calls made plus how the run ended.
 */
module Trace {
  import opened JsValues
  import opened RunOptions
  import opened Reports

  /** What a raw checkpoint holds (`loadRaw`). */
  datatype Checkpoint = Checkpoint(sources: seq<JsValue>, locations: seq<JsValue>, report: Report)

  /** What the secondary ("Li") raw dataset holds (`loadRawPriorityAdjusted`). */
  datatype Secondary = Secondary(liSources: seq<JsValue>, liLocations: seq<JsValue>)

  /**
   The imported collaborators. Each returns, besides its own result, the new
   contents of every collection or report sub-object it was handed by
   reference and may mutate.
   */
  datatype Collaborators = Collaborators(
    /** options -> sources */
    fetchSources: Options -> Result<seq<JsValue>>,
    /** (sources, report.sources) -> (sources, report.sources) */
    validateSources: (seq<JsValue>, JsValue) -> Result<(seq<JsValue>, JsValue)>,
    /** (sources, report.scrape) -> (locations, report.scrape) */
    scrapeData: (seq<JsValue>, JsValue) -> Result<(seq<JsValue>, JsValue)>,
    /** (sources, locations, report, options) -> nothing */
    writeRaw: (seq<JsValue>, seq<JsValue>, Report, Options) -> Result<()>,
    /** options -> checkpoint */
    loadRaw: Options -> Result<Checkpoint>,
    /** options -> secondary dataset */
    loadRawPriorityAdjusted: Options -> Result<Secondary>,
    /** (sources, locations) -> ratings */
    rateSources: (seq<JsValue>, seq<JsValue>) -> Result<JsValue>,
    /** (locations, report.scrape) -> (locations, report.scrape) */
    dedupeLocations: (seq<JsValue>, JsValue) -> Result<(seq<JsValue>, JsValue)>,
    /** (locations, report.scrape) -> report.scrape */
    reportScrape: (seq<JsValue>, JsValue) -> Result<JsValue>,
    /** (locations, report.findFeatures) -> (features, locations, report.findFeatures) */
    findFeatures: (seq<JsValue>, JsValue) -> Result<(JsValue, seq<JsValue>, JsValue)>,
    /** (locations, features, report.findPopulation) -> (locations, report.findPopulation) */
    findPopulations: (seq<JsValue>, JsValue, JsValue) -> Result<(seq<JsValue>, JsValue)>,
    /** (locations, ratings, report.scrape, report.transformIds) -> (locations, report.transformIds) */
    transformIds: (seq<JsValue>, JsValue, JsValue, JsValue) -> Result<(seq<JsValue>, JsValue)>,
    /** (locations, report.validate) -> (locations, report.validate) */
    cleanLocations: (seq<JsValue>, JsValue) -> Result<(seq<JsValue>, JsValue)>,
    /** (locations, features, ratings, report, options) -> the pipeline's output */
    writeData: (seq<JsValue>, JsValue, JsValue, Report, Options) -> Result<JsValue>
  )

  /** One call into a collaborator, with the arguments it was given. */
  datatype Call =
    | FetchSources(options: Options)
    | ValidateSources(sources: seq<JsValue>, section: JsValue)
    | ScrapeData(sources: seq<JsValue>, section: JsValue)
    | WriteRaw(sources: seq<JsValue>, locations: seq<JsValue>, report: Report, options: Options)
    | LoadRaw(options: Options)
    | LoadRawPriorityAdjusted(options: Options)
    | RateSources(sources: seq<JsValue>, locations: seq<JsValue>)
    | DedupeLocations(locations: seq<JsValue>, section: JsValue)
    | ReportScrape(locations: seq<JsValue>, section: JsValue)
    | FindFeatures(locations: seq<JsValue>, section: JsValue)
    | FindPopulations(locations: seq<JsValue>, features: JsValue, section: JsValue)
    | TransformIds(locations: seq<JsValue>, ratings: JsValue, scrape: JsValue, section: JsValue)
    | CleanLocations(locations: seq<JsValue>, section: JsValue)
    | WriteData(locations: seq<JsValue>, features: JsValue, ratings: JsValue, report: Report, options: Options)

  /** The kind of a call, forgetting its arguments. */
  datatype Stage =
    | Fetch | Validate | Scrape | DumpRaw | Restore | RestoreLi
    | Rate | Dedupe | Summarize | Features | Populations | Ids | Clean | Write

  function StageOf(call: Call): Stage {
    match call
    case FetchSources(_) => Fetch
    case ValidateSources(_, _) => Validate
    case ScrapeData(_, _) => Scrape
    case WriteRaw(_, _, _, _) => DumpRaw
    case LoadRaw(_) => Restore
    case LoadRawPriorityAdjusted(_) => RestoreLi
    case RateSources(_, _) => Rate
    case DedupeLocations(_, _) => Dedupe
    case ReportScrape(_, _) => Summarize
    case FindFeatures(_, _) => Features
    case FindPopulations(_, _, _) => Populations
    case TransformIds(_, _, _, _) => Ids
    case CleanLocations(_, _) => Clean
    case WriteData(_, _, _, _, _) => Write
  }

  /** The error the collaborator throws when `call` is made, if it throws. */
  function Thrown(c: Collaborators, call: Call): Option<JsValue> {
    match call
    case FetchSources(o) => c.fetchSources(o).Error()
    case ValidateSources(s, sec) => c.validateSources(s, sec).Error()
    case ScrapeData(s, sec) => c.scrapeData(s, sec).Error()
    case WriteRaw(s, l, rep, o) => c.writeRaw(s, l, rep, o).Error()
    case LoadRaw(o) => c.loadRaw(o).Error()
    case LoadRawPriorityAdjusted(o) => c.loadRawPriorityAdjusted(o).Error()
    case RateSources(s, l) => c.rateSources(s, l).Error()
    case DedupeLocations(l, sec) => c.dedupeLocations(l, sec).Error()
    case ReportScrape(l, sec) => c.reportScrape(l, sec).Error()
    case FindFeatures(l, sec) => c.findFeatures(l, sec).Error()
    case FindPopulations(l, f, sec) => c.findPopulations(l, f, sec).Error()
    case TransformIds(l, rt, scr, sec) => c.transformIds(l, rt, scr, sec).Error()
    case CleanLocations(l, sec) => c.cleanLocations(l, sec).Error()
    case WriteData(l, f, rt, rep, o) => c.writeData(l, f, rt, rep, o).Error()
  }

  /** How a run ends: a returned value, `process.exit(code)`, or an uncaught error. */
  datatype Outcome<+T> = Done(value: T) | Exit(code: int) | Abort(error: JsValue)

  /** The calls a run made, in order, and how it ended. */
  datatype Run<+T> = Run(trace: seq<Call>, outcome: Outcome<T>)

  /** An ending that is not a returned value, carried over to a run of another result type. */
  function Stop<T, U>(o: Outcome<T>): (r: Outcome<U>)
    requires !o.Done?
    ensures r.Exit? <==> o.Exit?
    ensures o.Exit? ==> r.code == o.code
    ensures o.Abort? ==> r.Abort? && r.error == o.error
  {
    match o
    case Exit(code) => Exit(code)
    case Abort(e) => Abort(e)
  }

  /** The calls of `trace` are, in order, of the first `|trace|` of `stages`. */
  predicate Follows(trace: seq<Call>, stages: seq<Stage>) {
    |trace| <= |stages| && forall i :: 0 <= i < |trace| ==> StageOf(trace[i]) == stages[i]
  }

  /** The calls of `trace` are, in order, of exactly the `stages`. */
  predicate Matches(trace: seq<Call>, stages: seq<Stage>) {
    |trace| == |stages| && Follows(trace, stages)
  }

  /** The call threw an error that the orchestrator does not catch. */
  predicate Uncaught(c: Collaborators, call: Call) {
    Thrown(c, call).Some? && !call.LoadRawPriorityAdjusted?
  }

  /**
   The fault policy of the orchestrator: every call but the last returned
   normally or was the secondary loader, whose error is caught; a run ends
   with an uncaught error exactly when its last call threw it.
   */
  predicate FaultPolicy<T>(c: Collaborators, run: Run<T>) {
    && (forall i :: 0 <= i < |run.trace| - 1 ==> !Uncaught(c, run.trace[i]))
    && (run.outcome.Abort? ==>
          |run.trace| > 0 && Uncaught(c, run.trace[|run.trace| - 1])
          && Thrown(c, run.trace[|run.trace| - 1]) == Some(run.outcome.error))
    && (!run.outcome.Abort? && |run.trace| > 0 ==> !Uncaught(c, run.trace[|run.trace| - 1]))
  }

  /**
   The working variables of a run that calls are handed by reference: the
   sources and locations arrays and the report.
   */
  datatype Held = Held(sources: seq<JsValue>, locations: seq<JsValue>, report: Report)

  /** The report section a stage annotates, if any. */
  function WrittenSection(stage: Stage): Option<string> {
    match stage
    case Validate => Some("sources")
    case Scrape => Some("scrape")
    case Dedupe => Some("scrape")
    case Summarize => Some("scrape")
    case Features => Some("findFeatures")
    case Populations => Some("findPopulation")
    case Ids => Some("transformIds")
    case Clean => Some("validate")
    case _ => None
  }

  /** The contents of the sources array once `call` has returned normally. */
  function SourcesAfter(c: Collaborators, sources: seq<JsValue>, call: Call): seq<JsValue> {
    match call
    case FetchSources(o) =>
      (match c.fetchSources(o) case Ok(v) => v case Throw(_) => sources)
    case ValidateSources(s, sec) =>
      (match c.validateSources(s, sec) case Ok(v) => v.0 case Throw(_) => sources)
    case LoadRaw(o) =>
      (match c.loadRaw(o) case Ok(cp) => cp.sources case Throw(_) => sources)
    case LoadRawPriorityAdjusted(o) =>
      (match c.loadRawPriorityAdjusted(o) case Ok(li) => sources + li.liSources case Throw(_) => sources)
    case _ => sources
  }

  /** The contents of the locations array once `call` has returned normally. */
  function LocationsAfter(c: Collaborators, locations: seq<JsValue>, call: Call): seq<JsValue> {
    match call
    case ScrapeData(s, sec) =>
      (match c.scrapeData(s, sec) case Ok(v) => v.0 case Throw(_) => locations)
    case LoadRaw(o) =>
      (match c.loadRaw(o) case Ok(cp) => cp.locations case Throw(_) => locations)
    case LoadRawPriorityAdjusted(o) =>
      (match c.loadRawPriorityAdjusted(o) case Ok(li) => locations + li.liLocations case Throw(_) => locations)
    case DedupeLocations(l, sec) =>
      (match c.dedupeLocations(l, sec) case Ok(v) => v.0 case Throw(_) => locations)
    case FindFeatures(l, sec) =>
      (match c.findFeatures(l, sec) case Ok(v) => v.1 case Throw(_) => locations)
    case FindPopulations(l, f, sec) =>
      (match c.findPopulations(l, f, sec) case Ok(v) => v.0 case Throw(_) => locations)
    case TransformIds(l, rt, scr, sec) =>
      (match c.transformIds(l, rt, scr, sec) case Ok(v) => v.0 case Throw(_) => locations)
    case CleanLocations(l, sec) =>
      (match c.cleanLocations(l, sec) case Ok(v) => v.0 case Throw(_) => locations)
    case _ => locations
  }

  /**
   The report once `call` has returned normally: the section the call
   annotated holds what the call left in it, and a checkpoint load replaces
   the whole report.
   */
  function ReportAfter(c: Collaborators, report: Report, call: Call): Report {
    match call
    case ValidateSources(s, sec) =>
      (match c.validateSources(s, sec) case Ok(v) => Annotate(report, "sources", v.1) case Throw(_) => report)
    case ScrapeData(s, sec) =>
      (match c.scrapeData(s, sec) case Ok(v) => Annotate(report, "scrape", v.1) case Throw(_) => report)
    case LoadRaw(o) =>
      (match c.loadRaw(o) case Ok(cp) => cp.report case Throw(_) => report)
    case DedupeLocations(l, sec) =>
      (match c.dedupeLocations(l, sec) case Ok(v) => Annotate(report, "scrape", v.1) case Throw(_) => report)
    case ReportScrape(l, sec) =>
      (match c.reportScrape(l, sec) case Ok(v) => Annotate(report, "scrape", v) case Throw(_) => report)
    case FindFeatures(l, sec) =>
      (match c.findFeatures(l, sec) case Ok(v) => Annotate(report, "findFeatures", v.2) case Throw(_) => report)
    case FindPopulations(l, f, sec) =>
      (match c.findPopulations(l, f, sec) case Ok(v) => Annotate(report, "findPopulation", v.1) case Throw(_) => report)
    case TransformIds(l, rt, scr, sec) =>
      (match c.transformIds(l, rt, scr, sec) case Ok(v) => Annotate(report, "transformIds", v.1) case Throw(_) => report)
    case CleanLocations(l, sec) =>
      (match c.cleanLocations(l, sec) case Ok(v) => Annotate(report, "validate", v.1) case Throw(_) => report)
    case _ => report
  }

  /** The working variables once `call` has returned normally. */
  function HeldAfter(c: Collaborators, h: Held, call: Call): Held {
    Held(SourcesAfter(c, h.sources, call), LocationsAfter(c, h.locations, call), ReportAfter(c, h.report, call))
  }

  /** The working variables after the calls of `trace`, each having returned normally, starting from `h`. */
  function HeldAcross(c: Collaborators, h: Held, trace: seq<Call>): Held
    decreases |trace|
  {
    if |trace| == 0 then h else HeldAcross(c, HeldAfter(c, h, trace[0]), trace[1..])
  }

  /**
   The call is handed exactly what `h` holds: the arrays themselves, the whole
   report, or the report section it reads or annotates.
   */
  predicate Hands(call: Call, h: Held) {
    match call
    case ValidateSources(s, sec) => s == h.sources && sec == Get(h.report, "sources")
    case ScrapeData(s, sec) => s == h.sources && sec == Get(h.report, "scrape")
    case WriteRaw(s, l, rep, _) => s == h.sources && l == h.locations && rep == h.report
    case RateSources(s, l) => s == h.sources && l == h.locations
    case DedupeLocations(l, sec) => l == h.locations && sec == Get(h.report, "scrape")
    case ReportScrape(l, sec) => l == h.locations && sec == Get(h.report, "scrape")
    case FindFeatures(l, sec) => l == h.locations && sec == Get(h.report, "findFeatures")
    case FindPopulations(l, _, sec) => l == h.locations && sec == Get(h.report, "findPopulation")
    case TransformIds(l, _, scr, sec) =>
      l == h.locations && scr == Get(h.report, "scrape") && sec == Get(h.report, "transformIds")
    case CleanLocations(l, sec) => l == h.locations && sec == Get(h.report, "validate")
    case WriteData(l, _, _, rep, _) => l == h.locations && rep == h.report
    case _ => true
  }

  /**
   One sources array, one locations array and one report flow through the
   run, starting as `h`: every call is handed them as the calls before it left
   them, whatever lay between (a checkpoint write between scrape and rating, a
   checkpoint load before rating).
   */
  predicate Threads(c: Collaborators, h: Held, trace: seq<Call>) {
    forall j :: 0 <= j < |trace| ==> Hands(trace[j], HeldAcross(c, h, trace[..j]))
  }

  /** The calls that receive the run's options. */
  predicate TakesOptions(call: Call) {
    call.FetchSources? || call.WriteRaw? || call.LoadRaw? || call.LoadRawPriorityAdjusted? || call.WriteData?
  }

  /** The calls that receive the `features` variable: population lookup and the final write. */
  predicate TakesFeatures(call: Call) {
    call.FindPopulations? || call.WriteData?
  }

  /** The calls that receive the ratings. */
  predicate TakesRatings(call: Call) {
    call.TransformIds? || call.WriteData?
  }

  /** What a `findFeatures` call returned as features, or null when it threw. */
  function FoundFeatures(c: Collaborators, call: Call): JsValue
    requires call.FindFeatures?
  {
    match c.findFeatures(call.locations, call.section)
    case Ok(found) => found.0
    case Throw(_) => Null
  }
}

/**
 What each function of src/shared/index.js promises about the calls it makes,
 their order and arguments, and how the run ends.
 */
module Properties {
  import opened JsValues
  import opened RunOptions
  import opened Reports
  import opened Trace
  import opened Machine
  import opened Pipeline

  /**
   `runScrape` validates, scrapes and writes the checkpoint, in that order; the
   write receives the options unchanged, whatever `dumpRaw` says, and the
   locations returned are the scrape's output.
   */
  lemma RunScrapeContract(c: Collaborators, st: State)
    ensures Follows(RunScrape(c, st).trace, CrawlStages)
    ensures RunScrape(c, st).outcome.Done? ==> Matches(RunScrape(c, st).trace, CrawlStages)
    ensures !RunScrape(c, st).outcome.Exit?
    ensures FaultPolicy(c, RunScrape(c, st))
    ensures RunScrape(c, st).trace[0] == ValidateSources(st.sources, Get(st.report, "sources"))
    ensures RunScrape(c, st).outcome.Done? ==>
      var r := RunScrape(c, st);
      var out := r.outcome.value;
      && r.trace[1].ScrapeData?
      && c.scrapeData(r.trace[1].sources, r.trace[1].section).Ok?
      && c.scrapeData(r.trace[1].sources, r.trace[1].section).value.0 == out.locations
      && r.trace[2] == WriteRaw(out.sources, out.locations, out.report, st.options)
  {
    ExecOrder(c, CrawlStages, st);
    ExecFaultPolicy(c, CrawlStages, st);
    ExecExits(c, CrawlStages, st);
    var r := RunScrape(c, st);
    if r.outcome.Done? {
      match Apply(c, Validate, st)
      case Next(s1) =>
        assert CrawlStages[1..] == [Scrape, DumpRaw];
        match Apply(c, Scrape, s1)
        case Next(s2) =>
          assert [Scrape, DumpRaw][1..] == [DumpRaw];
          assert Apply(c, DumpRaw, s2) == Next(s2) || Apply(c, DumpRaw, s2).Fail?;
          ApplyKeepsOptions(c, Validate, st);
          ApplyKeepsOptions(c, Scrape, s1);
    }
  }

  /**
   `runScrape` hands validation, scraping and the checkpoint write the sources,
   locations and report as the calls before left them: scraping gets what
   validation left in the sources, and the checkpoint write gets the scraped
   locations and the report carrying both annotations.
   */
  lemma RunScrapeThreads(c: Collaborators, st: State)
    ensures Threads(c, HeldOf(st), RunScrape(c, st).trace)
  {
    ExecThreads(c, CrawlStages, st);
  }

  /** A run that returns through `Returned` makes the same calls and ends the same way. */
  lemma ReturnedKeepsRun(c: Collaborators, r: Run<State>)
    ensures Returned(r).trace == r.trace
    ensures Returned(r).outcome.Done? <==> r.outcome.Done?
    ensures Returned(r).outcome.Exit? <==> r.outcome.Exit?
    ensures r.outcome.Done? ==> Returned(r).outcome.value == r.outcome.value.output
    ensures FaultPolicy(c, r) ==> FaultPolicy(c, Returned(r))
  {
  }

  /**
   A run of `stages` followed by the final write that returns normally ends
   with that write, made with the state's options, and returns what it wrote.
   */
  lemma {:induction false} ExecEndsWithWrite(c: Collaborators, pre: seq<Stage>, st: State)
    requires Exec(c, pre + [Write], st).outcome.Done?
    ensures
      var r := Exec(c, pre + [Write], st);
      var w := r.trace[|r.trace| - 1];
      && |r.trace| > 0
      && w.WriteData?
      && w.options == st.options
      && Exec(c, pre, st).outcome.Done?
      && w.report == Exec(c, pre, st).outcome.value.report
      && c.writeData(w.locations, w.features, w.ratings, w.report, w.options) == Ok(r.outcome.value.output)
  {
    ExecAppend(c, pre, [Write], st);
    ExecFrame(c, pre, st);
    var a := Exec(c, pre, st);
    var mid := a.outcome.value;
    assert [Write][1..] == [];
    match Apply(c, Write, mid)
    case Next(_) =>
  }

  /**
   The report stages under any options: rating first, the final write last,
   only report generation stages in between.
   */
  lemma ReportStagesShape(options: Options)
    ensures
      var rs := ReportStagesFor(options);
      && |rs| > 0 && rs[0] == Rate && rs[|rs| - 1] == Write
      && rs == rs[..|rs| - 1] + [Write]
      && (forall s :: s in rs ==> IsReportStage(s))
  {
  }

  /**
   Any run that makes no `getSources` call, taken to its returned value: its
   calls follow `stages` in order (all of them when it returns), it never
   exits, obeys the fault policy and threads one locations array.
   */
  lemma ReturnedContract(c: Collaborators, stages: seq<Stage>, st: State)
    requires Fetch !in stages
    ensures
      var r := Returned(Exec(c, stages, st));
      && Follows(r.trace, stages)
      && (r.outcome.Done? ==> Matches(r.trace, stages))
      && !r.outcome.Exit?
      && FaultPolicy(c, r)
      && Threads(c, HeldOf(st), r.trace)
      && (|stages| > 0 ==> |r.trace| > 0 && r.trace[0] == CallOf(stages[0], st))
  {
    var e := Exec(c, stages, st);
    ExecOrder(c, stages, st);
    ExecFaultPolicy(c, stages, st);
    ExecThreads(c, stages, st);
    ExecExits(c, stages, st);
    ReturnedKeepsRun(c, e);
  }

  /** A trace that follows `stages` makes only calls of stages in the list. */
  lemma FollowsAvoids(t: seq<Call>, stages: seq<Stage>, avoided: set<Stage>)
    requires Follows(t, stages)
    requires forall s :: s in stages ==> s !in avoided
    ensures forall i :: 0 <= i < |t| ==> StageOf(t[i]) !in avoided
  {
    forall i | 0 <= i < |t|
      ensures StageOf(t[i]) !in avoided
    {
      assert StageOf(t[i]) == stages[i] && stages[i] in stages;
    }
  }

  /** A run makes only calls of the stages in its list. */
  lemma ReturnedAvoids(c: Collaborators, stages: seq<Stage>, st: State, avoided: set<Stage>)
    requires forall s :: s in stages ==> s !in avoided
    ensures
      var t := Returned(Exec(c, stages, st)).trace;
      forall i :: 0 <= i < |t| ==> StageOf(t[i]) !in avoided
  {
    ReturnedKeepsRun(c, Exec(c, stages, st));
    ExecOrder(c, stages, st);
    FollowsAvoids(Exec(c, stages, st).trace, stages, avoided);
  }

  /**
   A run that starts with `getSources` and makes no other fetch exits exactly
   when the fetched list is empty, with code 0 and no call after the fetch.
   */
  lemma FetchFirstExits(c: Collaborators, rest: seq<Stage>, st: State)
    requires Fetch !in rest
    ensures
      var r := Exec(c, [Fetch] + rest, st);
      && (r.outcome.Exit? <==> c.fetchSources(st.options) == Ok([]))
      && (r.outcome.Exit? ==> r.outcome.code == 0 && r.trace == [FetchSources(st.options)])
  {
    assert ([Fetch] + rest)[0] == Fetch;
    assert ([Fetch] + rest)[1..] == rest;
    match Apply(c, Fetch, st)
    case Fail(_) =>
    case Quit(_) =>
    case Next(s1) =>
      ExecExits(c, rest, s1);
  }

  /**
   `generateReports` makes its calls in the fixed order — rating, deduplication,
   summary, the lookups whose flags are on, ID transform, cleaning, write —
   starting with rating on exactly the sources and locations it was given. It
   never exits the process, stops at the first error, and hands one locations
   array from call to call.
   */
  lemma GenerateReportsContract(c: Collaborators, sources: seq<JsValue>, locations: seq<JsValue>, report: Report,
                                options: Options)
    ensures
      var r := GenerateReports(c, sources, locations, report, options);
      && Follows(r.trace, ReportStagesFor(options))
      && (r.outcome.Done? ==> Matches(r.trace, ReportStagesFor(options)))
      && !r.outcome.Exit?
      && FaultPolicy(c, r)
      && Threads(c, Held(sources, locations, report), r.trace)
      && |r.trace| > 0 && r.trace[0] == RateSources(sources, locations)
  {
    var stages := ReportStagesFor(options);
    ReportStagesShape(options);
    assert !IsReportStage(Fetch);
    ReturnedContract(c, stages, ReportStart(sources, locations, report, options));
  }

  /**
   When `generateReports` returns, its last call is the final write, made with
   the options it was given, and what it returns is what that write returned.
   */
  lemma GenerateReportsReturnsWrite(c: Collaborators, sources: seq<JsValue>, locations: seq<JsValue>, report: Report,
                                    options: Options)
    requires GenerateReports(c, sources, locations, report, options).outcome.Done?
    ensures
      var r := GenerateReports(c, sources, locations, report, options);
      var w := r.trace[|r.trace| - 1];
      && |r.trace| > 0
      && w.WriteData?
      && w.options == options
      && c.writeData(w.locations, w.features, w.ratings, w.report, w.options) == Ok(r.outcome.value)
  {
    var stages := ReportStagesFor(options);
    var st := ReportStart(sources, locations, report, options);
    ReportStagesShape(options);
    var pre := stages[..|stages| - 1];
    ReturnedKeepsRun(c, Exec(c, stages, st));
    ExecEndsWithWrite(c, pre, st);
  }

  /**
   Every ID transform and the final write of `generateReports` are handed the
   ratings that rating, the first call, returned.
   */
  lemma GenerateReportsRatings(c: Collaborators, sources: seq<JsValue>, locations: seq<JsValue>, report: Report,
                               options: Options)
    ensures
      var t := GenerateReports(c, sources, locations, report, options).trace;
      forall i :: 0 < i < |t| && TakesRatings(t[i]) ==>
        c.rateSources(sources, locations).Ok? && t[i].ratings == c.rateSources(sources, locations).value
  {
    var stages := ReportStagesFor(options);
    ReportStagesShape(options);
    var st := ReportStart(sources, locations, report, options);
    assert Rate !in stages[1..];
    ReturnedKeepsRun(c, Exec(c, stages, st));
    assert GenerateReports(c, sources, locations, report, options).trace == Exec(c, stages, st).trace;
    ExecRatingsRated(c, stages, st);
  }

  /** The sections some stage of `generateReports` annotates. */
  const ReportGenerationSections: set<string> :=
    {"scrape", "findFeatures", "findPopulation", "transformIds", "validate"}

  /**
   When `generateReports` returns, the final write was handed the report with
   the keys it was given, and with every section report generation does not
   annotate — `date` and `sources` among them — exactly as it was given.
   */
  lemma GenerateReportsKeepsOtherSections(c: Collaborators, sources: seq<JsValue>, locations: seq<JsValue>,
                                          report: Report, options: Options)
    requires GenerateReports(c, sources, locations, report, options).outcome.Done?
    ensures
      var r := GenerateReports(c, sources, locations, report, options);
      var w := r.trace[|r.trace| - 1];
      && |r.trace| > 0
      && w.WriteData?
      && w.report.Keys == report.Keys
      && forall k :: k in report && k !in ReportGenerationSections ==> w.report[k] == report[k]
  {
    var stages := ReportStagesFor(options);
    var st := ReportStart(sources, locations, report, options);
    ReportStagesShape(options);
    var pre := stages[..|stages| - 1];
    forall s | s in pre
      ensures IsReportStage(s)
    {
      assert s in stages;
    }
    ReturnedKeepsRun(c, Exec(c, stages, st));
    ReportRunKeepsOtherSections(c, pre, st);
  }

  /**
   A run of report generation stages ending with the final write that returns
   hands the write a report whose other sections are as the run started.
   */
  lemma ReportRunKeepsOtherSections(c: Collaborators, pre: seq<Stage>, st: State)
    requires forall s :: s in pre ==> IsReportStage(s)
    requires Exec(c, pre + [Write], st).outcome.Done?
    ensures
      var t := Exec(c, pre + [Write], st).trace;
      var w := t[|t| - 1];
      && |t| > 0
      && w.WriteData?
      && w.report.Keys == st.report.Keys
      && forall k :: k in st.report && k !in ReportGenerationSections ==> w.report[k] == st.report[k]
  {
    ExecEndsWithWrite(c, pre, st);
    ExecReportFrame(c, pre, st);
    assert Restore !in pre by {
      assert !IsReportStage(Restore);
    }
    forall k | k in st.report && k !in ReportGenerationSections
      ensures Untouched(pre, k)
    {
      forall s | s in pre
        ensures WrittenSection(s) != Some(k)
      {
        ReportStageSection(s);
      }
    }
  }

  /** Report generation stages annotate only the sections of `ReportGenerationSections`. */
  lemma ReportStageSection(s: Stage)
    ensures IsReportStage(s) && WrittenSection(s).Some? ==> WrittenSection(s).value in ReportGenerationSections
  {
  }

  /**
   With feature lookup off, population lookup and the final write are handed
   the null `features` that `generateReports` starts with.
   */
  lemma GenerateReportsNullFeatures(c: Collaborators, sources: seq<JsValue>, locations: seq<JsValue>, report: Report,
                                    options: Options)
    requires !Flag(options, "findFeatures")
    ensures
      var t := GenerateReports(c, sources, locations, report, options).trace;
      forall i :: 0 <= i < |t| && TakesFeatures(t[i]) ==> t[i].features == Null
  {
    var stages := ReportStagesFor(options);
    var st := ReportStart(sources, locations, report, options);
    ReturnedKeepsRun(c, Exec(c, stages, st));
    assert Features !in stages;
    ExecFeaturesHeld(c, stages, st);
  }

  /**
   With feature lookup on, population lookup and the final write are handed
   what the lookup, the fourth call, returned.
   */
  lemma GenerateReportsFoundFeatures(c: Collaborators, sources: seq<JsValue>, locations: seq<JsValue>, report: Report,
                                     options: Options)
    requires Flag(options, "findFeatures")
    ensures
      var t := GenerateReports(c, sources, locations, report, options).trace;
      forall i :: 3 < i < |t| && TakesFeatures(t[i]) ==> t[3].FindFeatures? && t[i].features == FoundFeatures(c, t[3])
  {
    var st := ReportStart(sources, locations, report, options);
    ReturnedKeepsRun(c, Exec(c, ReportStagesFor(options), st));
    var head := [Rate, Dedupe, Summarize];
    var tail := (if Flag(options, "findPopulations") then [Populations] else []) + [Ids, Clean, Write];
    assert ReportStagesFor(options) == head + [Features] + tail;
    assert Features !in tail;
    ExecFeaturesFound(c, head, tail, st);
    var t := GenerateReports(c, sources, locations, report, options).trace;
    assert t == Exec(c, head + [Features] + tail, st).trace;
  }

  /**
   With feature lookup off and population lookup on, population lookup still
   runs, fourth, and is handed null features.
   */
  lemma PopulationsWithoutFeatures(c: Collaborators, sources: seq<JsValue>, locations: seq<JsValue>, report: Report,
                                   options: Options)
    requires !Flag(options, "findFeatures") && Flag(options, "findPopulations")
    ensures
      var t := GenerateReports(c, sources, locations, report, options).trace;
      |t| > 3 ==> t[3].FindPopulations? && t[3].features == Null
  {
    GenerateReportsContract(c, sources, locations, report, options);
    GenerateReportsNullFeatures(c, sources, locations, report, options);
  }

  // ---------------------------------------------------------------------------
  // generate

  /** The stages of a full run under the (defaulted) options, in order. */
  function FullRunStages(options: Options): seq<Stage> {
    [Fetch] + CrawlStages + ReportStagesFor(options)
  }

  /** Fetching and crawling leave the options, `ratings`, `features` and the output as they were. */
  lemma CrawlKeepsRest(c: Collaborators, st: State)
    ensures GetSources(c, st).outcome.Done? ==>
      var s1 := GetSources(c, st).outcome.value;
      && s1.options == st.options && s1.ratings == st.ratings
      && s1.features == st.features && s1.output == st.output
    ensures RunScrape(c, st).outcome.Done? ==>
      var s2 := RunScrape(c, st).outcome.value;
      && s2.options == st.options && s2.ratings == st.ratings
      && s2.features == st.features && s2.output == st.output
  {
    ExecFrame(c, [Fetch], st);
    ExecFrame(c, CrawlStages, st);
  }

  /**
   `generate`, composed from `getSources`, `runScrape` and `generateReports`,
   is one run of the full stage list.
   */
  lemma {:induction false} CrawlAndReportIsPipeline(c: Collaborators, st: State)
    requires st.ratings == Undefined && st.features == Null && st.output == Undefined
    ensures CrawlAndReport(c, st) == Returned(Exec(c, FullRunStages(st.options), st))
  {
    var o := st.options;
    ExecAppend(c, [Fetch] + CrawlStages, ReportStagesFor(o), st);
    ExecAppend(c, [Fetch], CrawlStages, st);
    var fetched := GetSources(c, st);
    CrawlKeepsRest(c, st);
    if fetched.outcome.Done? {
      var crawled := RunScrape(c, fetched.outcome.value);
      CrawlKeepsRest(c, fetched.outcome.value);
      if crawled.outcome.Done? {
        var ws := crawled.outcome.value;
        assert ReportStart(ws.sources, ws.locations, ws.report, o) == ws;
        var e := Exec(c, ReportStagesFor(o), ws);
        assert fetched.trace + crawled.trace + e.trace == fetched.trace + (crawled.trace + e.trace);
      }
    }
  }

  /**
   The full run fetches, crawls and generates reports, in that order. It exits
   with code 0 exactly when the fetched source list is empty, and then makes no
   other call; it stops at the first error and hands one locations array from
   call to call.
   */
  lemma CrawlAndReportContract(c: Collaborators, st: State)
    requires st.ratings == Undefined && st.features == Null && st.output == Undefined
    ensures
      var r := CrawlAndReport(c, st);
      && Follows(r.trace, FullRunStages(st.options))
      && (r.outcome.Done? ==> Matches(r.trace, FullRunStages(st.options)))
      && (r.outcome.Exit? <==> c.fetchSources(st.options) == Ok([]))
      && (r.outcome.Exit? ==> r.outcome.code == 0 && r.trace == [FetchSources(st.options)])
      && FaultPolicy(c, r)
      && Threads(c, HeldOf(st), r.trace)
  {
    var stages := FullRunStages(st.options);
    var rest := CrawlStages + ReportStagesFor(st.options);
    CrawlAndReportIsPipeline(c, st);
    ReportStagesShape(st.options);
    assert stages == [Fetch] + rest;
    assert Fetch !in rest by {
      assert Fetch !in CrawlStages && Fetch !in ReportStagesFor(st.options);
    }
    FetchFirstExits(c, rest, st);
    var e := Exec(c, stages, st);
    ExecOrder(c, stages, st);
    ExecFaultPolicy(c, stages, st);
    ExecThreads(c, stages, st);
    ReturnedKeepsRun(c, e);
  }

  /**
   When the full run returns, its last call is the final write, made with the
   run's options, and it returns what that write returned.
   */
  lemma CrawlAndReportReturnsWrite(c: Collaborators, st: State)
    requires st.ratings == Undefined && st.features == Null && st.output == Undefined
    requires CrawlAndReport(c, st).outcome.Done?
    ensures
      var r := CrawlAndReport(c, st);
      var w := r.trace[|r.trace| - 1];
      && |r.trace| > 0
      && w.WriteData?
      && w.options == st.options
      && c.writeData(w.locations, w.features, w.ratings, w.report, w.options) == Ok(r.outcome.value)
  {
    var stages := FullRunStages(st.options);
    var pre := [Fetch] + CrawlStages + ReportStagesFor(st.options)[..|ReportStagesFor(st.options)| - 1];
    CrawlAndReportIsPipeline(c, st);
    ReportStagesShape(st.options);
    assert stages == pre + [Write];
    ReturnedKeepsRun(c, Exec(c, stages, st));
    ExecEndsWithWrite(c, pre, st);
  }

  /** An empty source list ends `generate` with exit code 0 after the fetch and nothing else. */
  lemma GenerateExitsOnNoSources(c: Collaborators, date: JsValue, options: Options, today: string)
    requires c.fetchSources(GetFullOptions(options)) == Ok([])
    ensures Generate(c, date, options, today) == Run([FetchSources(GetFullOptions(options))], Exit(0))
  {
  }

  /**
   Every call of `generate` that is handed options — the fetch, the checkpoint
   write and the final write — is handed the defaulted caller options, so the
   caller's `dumpRaw` reaches the checkpoint write unchanged.
   */
  lemma GenerateKeepsOptions(c: Collaborators, date: JsValue, options: Options, today: string)
    ensures
      var t := Generate(c, date, options, today).trace;
      forall i :: 0 <= i < |t| && TakesOptions(t[i]) ==> t[i].options == GetFullOptions(options)
  {
    var st := Start(GetFullOptions(options), EmptyReport(date, today));
    CrawlAndReportIsPipeline(c, st);
    ReturnedKeepsRun(c, Exec(c, FullRunStages(st.options), st));
    ExecOptions(c, FullRunStages(st.options), st);
  }

  /**
   `generate` validates the fetched sources against the fresh report's empty
   `sources` section.
   */
  lemma GenerateValidatesFetched(c: Collaborators, date: JsValue, options: Options, today: string)
    requires c.fetchSources(GetFullOptions(options)).Ok?
    requires |c.fetchSources(GetFullOptions(options)).value| > 0
    ensures
      var t := Generate(c, date, options, today).trace;
      |t| > 1 && t[1] == ValidateSources(c.fetchSources(GetFullOptions(options)).value, EmptyObject)
  {
    var st := Start(GetFullOptions(options), EmptyReport(date, today));
    CrawlAndReportValidatesFetched(c, st);
    assert "sources" in SectionKeys;
  }

  /** The full run validates exactly what it fetched, against the report's `sources` section. */
  lemma CrawlAndReportValidatesFetched(c: Collaborators, st: State)
    requires st.ratings == Undefined && st.features == Null && st.output == Undefined
    requires c.fetchSources(st.options).Ok? && |c.fetchSources(st.options).value| > 0
    ensures
      var t := CrawlAndReport(c, st).trace;
      |t| > 1 && t[1] == ValidateSources(c.fetchSources(st.options).value, Get(st.report, "sources"))
  {
    var rest := CrawlStages + ReportStagesFor(st.options);
    CrawlAndReportIsPipeline(c, st);
    assert FullRunStages(st.options) == [Fetch] + rest;
    ReturnedKeepsRun(c, Exec(c, [Fetch] + rest, st));
    FetchThenValidate(c, rest, st);
  }

  /** Fetching and then validating: validation is handed the fetched sources and the report's `sources` section. */
  lemma FetchThenValidate(c: Collaborators, rest: seq<Stage>, st: State)
    requires |rest| > 0 && rest[0] == Validate
    requires c.fetchSources(st.options).Ok? && |c.fetchSources(st.options).value| > 0
    ensures
      var t := Exec(c, [Fetch] + rest, st).trace;
      |t| > 1 && t[1] == ValidateSources(c.fetchSources(st.options).value, Get(st.report, "sources"))
  {
    assert ([Fetch] + rest)[1..] == rest;
    match Apply(c, Fetch, st)
    case Next(s1) =>
      ExecOrder(c, rest, s1);
  }


  // ---------------------------------------------------------------------------
  // scrapeToRawFiles

  /** The crawl-only run, composed from `getSources` and `runScrape`, is one run of the fetch and crawl stages. */
  lemma CrawlOnlyIsCrawl(c: Collaborators, st: State)
    ensures
      var r := CrawlOnly(c, st);
      var e := Exec(c, [Fetch] + CrawlStages, st);
      && r.trace == e.trace
      && (r.outcome.Done? <==> e.outcome.Done?)
      && (r.outcome.Done? ==> r.outcome.value == e.outcome.value.locations)
      && (r.outcome.Exit? <==> e.outcome.Exit?)
      && (r.outcome.Exit? ==> r.outcome.code == e.outcome.code)
      && (r.outcome.Abort? ==> e.outcome.Abort? && r.outcome.error == e.outcome.error)
  {
    ExecAppend(c, [Fetch], CrawlStages, st);
  }

  /**
   The crawl-only run fetches and crawls, in that order. It exits with code 0 exactly when the fetched source list
   is empty, and then makes no other call; it stops at the first error.
   */
  lemma CrawlOnlyContract(c: Collaborators, st: State)
    ensures
      var r := CrawlOnly(c, st);
      && Follows(r.trace, [Fetch] + CrawlStages)
      && (r.outcome.Done? ==> Matches(r.trace, [Fetch] + CrawlStages))
      && (r.outcome.Exit? <==> c.fetchSources(st.options) == Ok([]))
      && (r.outcome.Exit? ==> r.outcome.code == 0 && r.trace == [FetchSources(st.options)])
      && FaultPolicy(c, r)
      && Threads(c, HeldOf(st), r.trace)
  {
    var stages := [Fetch] + CrawlStages;
    var e := Exec(c, stages, st);
    CrawlOnlyIsCrawl(c, st);
    ExecOrder(c, stages, st);
    ExecFaultPolicy(c, stages, st);
    FetchFirstExits(c, CrawlStages, st);
    ExecThreads(c, stages, st);
  }

  /** The crawl-only run makes no report generation call. */
  lemma CrawlOnlyReportsNothing(c: Collaborators, st: State)
    ensures
      var t := CrawlOnly(c, st).trace;
      forall i :: 0 <= i < |t| ==> !IsReportStage(StageOf(t[i]))
  {
    var stages := [Fetch] + CrawlStages;
    var t := Exec(c, stages, st).trace;
    CrawlOnlyIsCrawl(c, st);
    ExecOrder(c, stages, st);
    forall i | 0 <= i < |t|
      ensures !IsReportStage(StageOf(t[i]))
    {
      assert StageOf(t[i]) == stages[i];
      assert stages == [Fetch, Validate, Scrape, DumpRaw];
    }
  }

  /** Every call of the crawl-only run that is handed options, the checkpoint write among them, is handed the run's. */
  lemma CrawlOnlyKeepsOptions(c: Collaborators, st: State)
    ensures
      var t := CrawlOnly(c, st).trace;
      forall i :: 0 <= i < |t| && TakesOptions(t[i]) ==> t[i].options == st.options
  {
    CrawlOnlyIsCrawl(c, st);
    ExecOptions(c, [Fetch] + CrawlStages, st);
  }

  /** When the crawl-only run returns, it returns the scrape's output. */
  lemma CrawlOnlyReturnsScraped(c: Collaborators, st: State)
    requires CrawlOnly(c, st).outcome.Done?
    ensures
      var r := CrawlOnly(c, st);
      && r.trace[2].ScrapeData?
      && c.scrapeData(r.trace[2].sources, r.trace[2].section).Ok?
      && c.scrapeData(r.trace[2].sources, r.trace[2].section).value.0 == r.outcome.value
  {
    var fetched := GetSources(c, st);
    RunScrapeContract(c, fetched.outcome.value);
    var crawled := RunScrape(c, fetched.outcome.value);
    assert CrawlOnly(c, st).trace == fetched.trace + crawled.trace;
  }

  /**
   `scrapeToRawFiles` hands the checkpoint write options with `dumpRaw` set to
   true, and an empty source list ends it with exit code 0 after the fetch.
   */
  lemma ScrapeToRawFilesDumps(c: Collaborators, date: JsValue, options: Options, today: string)
    ensures
      var t := ScrapeToRawFiles(c, date, options, today).trace;
      forall i :: 0 <= i < |t| && t[i].WriteRaw? ==> Get(t[i].options, "dumpRaw") == Bool(true)
    ensures c.fetchSources(DumpOptions(options)) == Ok([]) ==>
      ScrapeToRawFiles(c, date, options, today) == Run([FetchSources(DumpOptions(options))], Exit(0))
  {
    var st := Start(DumpOptions(options), EmptyReport(date, today));
    CrawlOnlyContract(c, st);
    CrawlOnlyKeepsOptions(c, st);
  }

  // ---------------------------------------------------------------------------
  // generateReportsFromRawFiles and generateReportsFromCombinedRawFiles

  /** The stages that only restore state: they set no ratings, features or output. */
  predicate RestoresOnly(restore: seq<Stage>) {
    forall s :: s in restore ==> s == Restore || s == RestoreLi
  }

  /** A resume is one run of the restore stages followed by the report stages. */
  lemma ResumeIsPipeline(c: Collaborators, restore: seq<Stage>, o: Options)
    requires RestoresOnly(restore)
    ensures Resume(c, restore, o) == Returned(Exec(c, restore + ReportStagesFor(o), Start(o, map[])))
  {
    var st := Start(o, map[]);
    ExecAppend(c, restore, ReportStagesFor(o), st);
    ExecFrame(c, restore, st);
    var loaded := Exec(c, restore, st);
    if loaded.outcome.Done? {
      var ws := loaded.outcome.value;
      assert ReportStart(ws.sources, ws.locations, ws.report, o) == ws;
    }
  }

  /**
   When a resume returns, its last call is the final write, made with the
   resume's options, and what it returns is what that write returned.
   */
  lemma ResumeReturnsWrite(c: Collaborators, restore: seq<Stage>, o: Options)
    requires RestoresOnly(restore)
    ensures
      var r := Resume(c, restore, o);
      r.outcome.Done? ==>
        && |r.trace| > 0
        && r.trace[|r.trace| - 1].WriteData?
        && r.trace[|r.trace| - 1].options == o
        && var w := r.trace[|r.trace| - 1];
           c.writeData(w.locations, w.features, w.ratings, w.report, w.options) == Ok(r.outcome.value)
  {
    var st := Start(o, map[]);
    var rs := ReportStagesFor(o);
    var pre := restore + rs[..|rs| - 1];
    ResumeIsPipeline(c, restore, o);
    ReportStagesShape(o);
    assert restore + rs == pre + [Write];
    ReturnedKeepsRun(c, Exec(c, restore + rs, st));
    if Exec(c, pre + [Write], st).outcome.Done? {
      ExecEndsWithWrite(c, pre, st);
    }
  }

  /**
   A resume makes the restore calls and then the report generation calls, in
   order, never exits, and stops at the first uncaught error.
   */
  lemma ResumeContract(c: Collaborators, restore: seq<Stage>, o: Options)
    requires RestoresOnly(restore)
    ensures
      var r := Resume(c, restore, o);
      && Follows(r.trace, restore + ReportStagesFor(o))
      && (r.outcome.Done? ==> Matches(r.trace, restore + ReportStagesFor(o)))
      && !r.outcome.Exit?
      && FaultPolicy(c, r)
      && Threads(c, Held([], [], map[]), r.trace)
  {
    var stages := restore + ReportStagesFor(o);
    ResumeIsPipeline(c, restore, o);
    ReportStagesShape(o);
    assert Fetch !in stages by {
      assert Fetch !in restore && Fetch !in ReportStagesFor(o);
    }
    ReturnedContract(c, stages, Start(o, map[]));
  }

  /** A resume never fetches, validates or scrapes sources. */
  lemma ResumeNeverCrawls(c: Collaborators, restore: seq<Stage>, o: Options)
    requires RestoresOnly(restore)
    ensures
      var t := Resume(c, restore, o).trace;
      forall i :: 0 <= i < |t| ==> StageOf(t[i]) !in {Fetch, Validate, Scrape}
  {
    var rs := ReportStagesFor(o);
    var stages := restore + rs;
    ResumeIsPipeline(c, restore, o);
    ReportStagesShape(o);
    forall s | s in stages
      ensures s !in {Fetch, Validate, Scrape}
    {
      assert s in restore || s in rs;
    }
    ReturnedAvoids(c, stages, Start(o, map[]), {Fetch, Validate, Scrape});
  }

  /** Loading a checkpoint and then rating: rating is handed what the checkpoint held. */
  lemma RestoreThenRate(c: Collaborators, rest: seq<Stage>, st: State)
    requires |rest| > 0 && rest[0] == Rate
    ensures
      var t := Exec(c, [Restore] + rest, st).trace;
      && |t| > 0 && t[0] == LoadRaw(st.options)
      && (c.loadRaw(st.options).Ok? ==>
            |t| > 1 && t[1] == RateSources(c.loadRaw(st.options).value.sources, c.loadRaw(st.options).value.locations))
  {
    assert ([Restore] + rest)[1..] == rest;
    match Apply(c, Restore, st)
    case Fail(_) =>
    case Next(s1) =>
      ExecOrder(c, rest, s1);
  }

  /**
   Loading a checkpoint, then the secondary dataset, then rating: rating is
   handed the checkpoint's sources and locations with the secondary ones
   appended when those loaded, and the checkpoint's alone when their loader threw.
   */
  lemma RestoreLiThenRate(c: Collaborators, rest: seq<Stage>, st: State)
    requires |rest| > 0 && rest[0] == Rate
    ensures
      var t := Exec(c, [Restore, RestoreLi] + rest, st).trace;
      && |t| > 0 && t[0] == LoadRaw(st.options)
      && (c.loadRaw(st.options).Ok? ==>
            var cp := c.loadRaw(st.options).value;
            && |t| > 2
            && t[1] == LoadRawPriorityAdjusted(st.options)
            && (c.loadRawPriorityAdjusted(st.options).Ok? ==>
                  var li := c.loadRawPriorityAdjusted(st.options).value;
                  t[2] == RateSources(cp.sources + li.liSources, cp.locations + li.liLocations))
            && (c.loadRawPriorityAdjusted(st.options).Throw? ==>
                  t[2] == RateSources(cp.sources, cp.locations)))
  {
    assert ([Restore, RestoreLi] + rest)[1..] == [RestoreLi] + rest;
    assert ([RestoreLi] + rest)[1..] == rest;
    match Apply(c, Restore, st)
    case Fail(_) =>
    case Next(s1) =>
      assert s1.options == st.options;
      var s2 := Apply(c, RestoreLi, s1).state;
      ExecOrder(c, rest, s2);
      var tail := Exec(c, rest, s2);
      assert Exec(c, [RestoreLi] + rest, s1).trace == [LoadRawPriorityAdjusted(st.options)] + tail.trace;
  }

  /**
   `generateReportsFromRawFiles` first loads the checkpoint, then generates
   reports on exactly the restored sources and locations.
   */
  lemma FromRawFilesRestores(c: Collaborators, options: Options)
    ensures
      var o := GetFullOptions(options);
      var t := GenerateReportsFromRawFiles(c, options).trace;
      && |t| > 0 && t[0] == LoadRaw(o)
      && (c.loadRaw(o).Ok? ==>
            |t| > 1 && t[1] == RateSources(c.loadRaw(o).value.sources, c.loadRaw(o).value.locations))
  {
    var o := GetFullOptions(options);
    var rest := ReportStagesFor(o);
    ResumeIsPipeline(c, [Restore], o);
    ReportStagesShape(o);
    RestoreThenRate(c, rest, Start(o, map[]));
    ReturnedKeepsRun(c, Exec(c, [Restore] + rest, Start(o, map[])));
  }

  /**
   `generateReportsFromCombinedRawFiles` loads the checkpoint, then the
   secondary dataset, then generates reports. When the secondary dataset
   loads, rating is handed the restored sources and locations with the
   secondary ones appended after them, in order; when its loader throws, the
   restored ones unchanged, and report generation still runs.
   */
  lemma CombinedRawFilesMerges(c: Collaborators, options: Options)
    ensures
      var o := GetFullOptions(options);
      var t := GenerateReportsFromCombinedRawFiles(c, options).trace;
      && |t| > 0 && t[0] == LoadRaw(o)
      && (c.loadRaw(o).Ok? ==>
            var cp := c.loadRaw(o).value;
            && |t| > 2
            && t[1] == LoadRawPriorityAdjusted(o)
            && (c.loadRawPriorityAdjusted(o).Ok? ==>
                  var li := c.loadRawPriorityAdjusted(o).value;
                  t[2] == RateSources(cp.sources + li.liSources, cp.locations + li.liLocations))
            && (c.loadRawPriorityAdjusted(o).Throw? ==>
                  t[2] == RateSources(cp.sources, cp.locations)))
  {
    var o := GetFullOptions(options);
    var rest := ReportStagesFor(o);
    ResumeIsPipeline(c, [Restore, RestoreLi], o);
    ReportStagesShape(o);
    RestoreLiThenRate(c, rest, Start(o, map[]));
    ReturnedKeepsRun(c, Exec(c, [Restore, RestoreLi] + rest, Start(o, map[])));
  }

  /**
   When the secondary loader throws, the combined entry point ends exactly as
   `generateReportsFromRawFiles` does, having made the same calls plus the
   failed load right after the checkpoint loaded (and no extra call when the
   checkpoint itself failed to load).
   */
  lemma CombinedRawFilesToleratesLoaderError(c: Collaborators, options: Options)
    requires c.loadRawPriorityAdjusted(GetFullOptions(options)).Throw?
    ensures
      var o := GetFullOptions(options);
      var plain := GenerateReportsFromRawFiles(c, options);
      var combined := GenerateReportsFromCombinedRawFiles(c, options);
      && combined.outcome == plain.outcome
      && (c.loadRaw(o).Ok? ==>
            combined.trace == plain.trace[..1] + [LoadRawPriorityAdjusted(o)] + plain.trace[1..])
      && (c.loadRaw(o).Throw? ==> combined.trace == plain.trace)
  {
    var o := GetFullOptions(options);
    var st := Start(o, map[]);
    var rest := ReportStagesFor(o);
    ResumeIsPipeline(c, [Restore], o);
    ResumeIsPipeline(c, [Restore, RestoreLi], o);
    CaughtLoaderSkipped(c, rest, st);
    ReturnedKeepsRun(c, Exec(c, [Restore] + rest, st));
    ReturnedKeepsRun(c, Exec(c, [Restore, RestoreLi] + rest, st));
  }

  /** A secondary load that throws right after a checkpoint load changes nothing but the trace. */
  lemma CaughtLoaderSkipped(c: Collaborators, rest: seq<Stage>, st: State)
    requires c.loadRawPriorityAdjusted(st.options).Throw?
    ensures
      var plain := Exec(c, [Restore] + rest, st);
      var combined := Exec(c, [Restore, RestoreLi] + rest, st);
      && combined.outcome == plain.outcome
      && (c.loadRaw(st.options).Ok? ==>
            combined.trace == plain.trace[..1] + [LoadRawPriorityAdjusted(st.options)] + plain.trace[1..])
      && (c.loadRaw(st.options).Throw? ==> combined.trace == plain.trace)
  {
    var plainRun := Exec(c, [Restore] + rest, st);
    var combinedRun := Exec(c, [Restore, RestoreLi] + rest, st);
    assert ([Restore] + rest)[1..] == rest;
    assert ([Restore, RestoreLi] + rest)[1..] == [RestoreLi] + rest;
    assert ([RestoreLi] + rest)[1..] == rest;
    ApplyKeepsOptions(c, Restore, st);
    match Apply(c, Restore, st)
    case Fail(_) =>
    case Next(s1) =>
      var tail := Exec(c, rest, s1);
      assert plainRun == Run([LoadRaw(st.options)] + tail.trace, tail.outcome);
      assert s1.options == st.options;
      assert Apply(c, RestoreLi, s1) == Next(s1);
      assert Exec(c, [RestoreLi] + rest, s1) == Run([LoadRawPriorityAdjusted(st.options)] + tail.trace, tail.outcome);
      assert combinedRun == Run([LoadRaw(st.options)] + ([LoadRawPriorityAdjusted(st.options)] + tail.trace), tail.outcome);
      assert plainRun.trace[..1] == [LoadRaw(st.options)];
      assert plainRun.trace[1..] == tail.trace;
  }
}

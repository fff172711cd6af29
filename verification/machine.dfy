/**
 The orchestrator as a stage machine. The variables an entry point of
 src/shared/index.js holds (options, sources, locations, report, ratings,
 features, the final output) form a `State`; each stage makes one awaited
 collaborator call built from the state and folds the call's result back into
 it. `Exec` runs a list of stages in order and stops at the first uncaught
 error or at `process.exit`.
 */
module Machine {
  import opened JsValues
  import opened RunOptions
  import opened Reports
  import opened Trace
  import opened Merge

  /** The variables of a run. `ratings` and `features` are locals of `generateReports`. */
  datatype State = State(
    options: Options,
    sources: seq<JsValue>,
    locations: seq<JsValue>,
    report: Report,
    ratings: JsValue,
    features: JsValue,
    output: JsValue)

  /** What one stage leaves: the next state, an uncaught error, or a process exit. */
  datatype Effect = Next(state: State) | Fail(error: JsValue) | Quit(code: int)

  /** The collaborator call a stage makes from the current state, with its arguments. */
  function CallOf(stage: Stage, st: State): Call {
    match stage
    case Fetch => FetchSources(st.options)
    case Validate => ValidateSources(st.sources, Get(st.report, "sources"))
    case Scrape => ScrapeData(st.sources, Get(st.report, "scrape"))
    case DumpRaw => WriteRaw(st.sources, st.locations, st.report, st.options)
    case Restore => LoadRaw(st.options)
    case RestoreLi => LoadRawPriorityAdjusted(st.options)
    case Rate => RateSources(st.sources, st.locations)
    case Dedupe => DedupeLocations(st.locations, Get(st.report, "scrape"))
    case Summarize => ReportScrape(st.locations, Get(st.report, "scrape"))
    case Features => FindFeatures(st.locations, Get(st.report, "findFeatures"))
    case Populations => FindPopulations(st.locations, st.features, Get(st.report, "findPopulation"))
    case Ids => TransformIds(st.locations, st.ratings, Get(st.report, "scrape"), Get(st.report, "transformIds"))
    case Clean => CleanLocations(st.locations, Get(st.report, "validate"))
    case Write => WriteData(st.locations, st.features, st.ratings, st.report, st.options)
  }

  /**
   Make the call of `stage` and fold its result into `st`. Only an empty
   source list exits, and only the secondary loader's error is caught: the run
   then goes on with the state unchanged.
   */
  function Apply(c: Collaborators, stage: Stage, st: State): Effect
  {
    match CallOf(stage, st)
    case FetchSources(o) =>
      (match c.fetchSources(o)
       case Throw(err) => Fail(err)
       case Ok(sources) => if |sources| == 0 then Quit(0) else Next(st.(sources := sources)))
    case ValidateSources(s, sec) =>
      (match c.validateSources(s, sec)
       case Throw(err) => Fail(err)
       case Ok(v) => Next(st.(sources := v.0, report := Annotate(st.report, "sources", v.1))))
    case ScrapeData(s, sec) =>
      (match c.scrapeData(s, sec)
       case Throw(err) => Fail(err)
       case Ok(v) => Next(st.(locations := v.0, report := Annotate(st.report, "scrape", v.1))))
    case WriteRaw(s, l, rep, o) =>
      (match c.writeRaw(s, l, rep, o)
       case Throw(err) => Fail(err)
       case Ok(_) => Next(st))
    case LoadRaw(o) =>
      (match c.loadRaw(o)
       case Throw(err) => Fail(err)
       case Ok(cp) => Next(st.(sources := cp.sources, locations := cp.locations, report := cp.report)))
    case LoadRawPriorityAdjusted(o) =>
      (match c.loadRawPriorityAdjusted(o)
       case Throw(_) => Next(st)
       case Ok(li) =>
         Next(st.(sources := PushEach(st.sources, li.liSources),
                  locations := PushEach(st.locations, li.liLocations))))
    case RateSources(s, l) =>
      (match c.rateSources(s, l)
       case Throw(err) => Fail(err)
       case Ok(ratings) => Next(st.(ratings := ratings)))
    case DedupeLocations(l, sec) =>
      (match c.dedupeLocations(l, sec)
       case Throw(err) => Fail(err)
       case Ok(v) => Next(st.(locations := v.0, report := Annotate(st.report, "scrape", v.1))))
    case ReportScrape(l, sec) =>
      (match c.reportScrape(l, sec)
       case Throw(err) => Fail(err)
       case Ok(v) => Next(st.(report := Annotate(st.report, "scrape", v))))
    case FindFeatures(l, sec) =>
      (match c.findFeatures(l, sec)
       case Throw(err) => Fail(err)
       case Ok(v) => Next(st.(features := v.0, locations := v.1, report := Annotate(st.report, "findFeatures", v.2))))
    case FindPopulations(l, f, sec) =>
      (match c.findPopulations(l, f, sec)
       case Throw(err) => Fail(err)
       case Ok(v) => Next(st.(locations := v.0, report := Annotate(st.report, "findPopulation", v.1))))
    case TransformIds(l, rt, scr, sec) =>
      (match c.transformIds(l, rt, scr, sec)
       case Throw(err) => Fail(err)
       case Ok(v) => Next(st.(locations := v.0, report := Annotate(st.report, "transformIds", v.1))))
    case CleanLocations(l, sec) =>
      (match c.cleanLocations(l, sec)
       case Throw(err) => Fail(err)
       case Ok(v) => Next(st.(locations := v.0, report := Annotate(st.report, "validate", v.1))))
    case WriteData(l, f, rt, rep, o) =>
      (match c.writeData(l, f, rt, rep, o)
       case Throw(err) => Fail(err)
       case Ok(out) => Next(st.(output := out)))
  }

  /** Run `stages` in order from `st`. */
  function Exec(c: Collaborators, stages: seq<Stage>, st: State): Run<State>
    decreases |stages|
  {
    if |stages| == 0 then Run([], Done(st))
    else
      var call := CallOf(stages[0], st);
      match Apply(c, stages[0], st)
      case Fail(e) => Run([call], Abort(e))
      case Quit(code) => Run([call], Exit(code))
      case Next(st') =>
        var rest := Exec(c, stages[1..], st');
        Run([call] + rest.trace, rest.outcome)
  }

  /** A stage's call fails the run exactly when it throws an error the orchestrator does not catch. */
  lemma ApplyFails(c: Collaborators, stage: Stage, st: State)
    ensures Apply(c, stage, st).Fail? <==> Uncaught(c, CallOf(stage, st))
    ensures Apply(c, stage, st).Fail? ==> Thrown(c, CallOf(stage, st)) == Some(Apply(c, stage, st).error)
  {
  }

  /** Only fetching an empty source list exits, and with code 0. */
  lemma ApplyQuits(c: Collaborators, stage: Stage, st: State)
    ensures Apply(c, stage, st).Quit? <==> stage == Fetch && c.fetchSources(st.options) == Ok([])
    ensures Apply(c, stage, st).Quit? ==> Apply(c, stage, st).code == 0
  {
  }

  /** The working variables a state holds. */
  function HeldOf(st: State): Held {
    Held(st.sources, st.locations, st.report)
  }

  /**
   After a call that returns normally, the state's sources are what the call
   left in them; only fetching, validation and the two loads change them.
   */
  lemma ApplySources(c: Collaborators, stage: Stage, st: State)
    ensures Apply(c, stage, st).Next? ==>
      Apply(c, stage, st).state.sources == SourcesAfter(c, st.sources, CallOf(stage, st))
    ensures Apply(c, stage, st).Next? && stage !in {Fetch, Validate, Restore, RestoreLi} ==>
      Apply(c, stage, st).state.sources == st.sources
  {
  }

  /**
   After a call that returns normally, the state's locations are what the call
   left in them; fetching, validation, the checkpoint write, rating, the scrape
   summary and the final write leave them as they were.
   */
  lemma ApplyLocations(c: Collaborators, stage: Stage, st: State)
    ensures Apply(c, stage, st).Next? ==>
      Apply(c, stage, st).state.locations == LocationsAfter(c, st.locations, CallOf(stage, st))
    ensures Apply(c, stage, st).Next? && stage in {Fetch, Validate, DumpRaw, Rate, Summarize, Write} ==>
      Apply(c, stage, st).state.locations == st.locations
  {
  }

  /** After a call that returns normally, the state's report is what the call left in it. */
  lemma ApplyReport(c: Collaborators, stage: Stage, st: State)
    ensures Apply(c, stage, st).Next? ==>
      Apply(c, stage, st).state.report == ReportAfter(c, st.report, CallOf(stage, st))
  {
  }

  /**
   Writer isolation: a stage other than the checkpoint load keeps the report's
   keys and changes at most the one section it annotates.
   */
  lemma ApplyReportKeys(c: Collaborators, stage: Stage, st: State)
    ensures Apply(c, stage, st).Next? && stage != Restore ==>
      var rep := Apply(c, stage, st).state.report;
      && rep.Keys == st.report.Keys
      && forall k :: k in st.report && WrittenSection(stage) != Some(k) ==> rep[k] == st.report[k]
  {
    ApplyReport(c, stage, st);
    CallOfStage(stage, st);
    ReportAfterKeys(c, st.report, CallOf(stage, st));
  }

  /** A call other than a checkpoint load keeps the report's keys and changes at most the section it annotates. */
  lemma ReportAfterKeys(c: Collaborators, report: Report, call: Call)
    ensures !call.LoadRaw? ==>
      var rep := ReportAfter(c, report, call);
      && rep.Keys == report.Keys
      && forall k :: k in report && WrittenSection(StageOf(call)) != Some(k) ==> rep[k] == report[k]
  {
  }

  /** No stage changes the options; only rating sets `ratings`. */
  lemma ApplyKeepsOptions(c: Collaborators, stage: Stage, st: State)
    ensures Apply(c, stage, st).Next? ==> Apply(c, stage, st).state.options == st.options
    ensures Apply(c, stage, st).Next? && stage != Rate ==> Apply(c, stage, st).state.ratings == st.ratings
  {
  }

  /** Only feature lookup sets `features`, and only the final write sets the output. */
  lemma ApplyKeepsResults(c: Collaborators, stage: Stage, st: State)
    ensures Apply(c, stage, st).Next? && stage != Features ==> Apply(c, stage, st).state.features == st.features
    ensures Apply(c, stage, st).Next? && stage != Write ==> Apply(c, stage, st).state.output == st.output
    ensures Apply(c, Features, st).Next? ==> Apply(c, Features, st).state.features == FoundFeatures(c, CallOf(Features, st))
  {
  }

  // ---------------------------------------------------------------------------
  // Properties of Exec, by induction on the stage list

  /** The call a stage makes is of that stage. */
  lemma CallOfStage(stage: Stage, st: State)
    ensures StageOf(CallOf(stage, st)) == stage
  {
  }

  /** A run of a non-empty stage list makes the first stage's call first. */
  lemma ExecFirst(c: Collaborators, stages: seq<Stage>, st: State)
    ensures |stages| > 0 ==> |Exec(c, stages, st).trace| > 0 && Exec(c, stages, st).trace[0] == CallOf(stages[0], st)
  {
  }

  /** The calls follow the stage list; a run that returns went through all of it. */
  lemma {:induction false} ExecOrder(c: Collaborators, stages: seq<Stage>, st: State)
    ensures Follows(Exec(c, stages, st).trace, stages)
    ensures Exec(c, stages, st).outcome.Done? ==> Matches(Exec(c, stages, st).trace, stages)
    ensures |stages| > 0 ==> |Exec(c, stages, st).trace| > 0 && Exec(c, stages, st).trace[0] == CallOf(stages[0], st)
    decreases |stages|
  {
    ExecFirst(c, stages, st);
    if |stages| > 0 {
      CallOfStage(stages[0], st);
      match Apply(c, stages[0], st)
      case Fail(_) =>
      case Quit(_) =>
      case Next(st') =>
        ExecOrder(c, stages[1..], st');
        var rest := Exec(c, stages[1..], st');
        var r := Exec(c, stages, st);
        assert r.trace == [CallOf(stages[0], st)] + rest.trace;
        forall i | 0 <= i < |r.trace|
          ensures StageOf(r.trace[i]) == stages[i]
        {
          if i > 0 {
            assert r.trace[i] == rest.trace[i - 1];
          }
        }
    }
  }

  /** A run stops at the first uncaught error, with that error; caught ones do not stop it. */
  lemma {:induction false} ExecFaultPolicy(c: Collaborators, stages: seq<Stage>, st: State)
    ensures FaultPolicy(c, Exec(c, stages, st))
    decreases |stages|
  {
    if |stages| > 0 {
      var call := CallOf(stages[0], st);
      ApplyFails(c, stages[0], st);
      match Apply(c, stages[0], st)
      case Fail(_) =>
      case Quit(_) =>
      case Next(st') =>
        ExecFaultPolicy(c, stages[1..], st');
        var rest := Exec(c, stages[1..], st');
        var r := Exec(c, stages, st);
        assert r.trace == [call] + rest.trace;
        forall i | 0 <= i < |r.trace| - 1
          ensures !Uncaught(c, r.trace[i])
        {
          if i > 0 {
            assert r.trace[i] == rest.trace[i - 1];
          }
        }
        if |rest.trace| > 0 {
          assert r.trace[|r.trace| - 1] == rest.trace[|rest.trace| - 1];
        }
    }
  }

  /** Only fetching an empty source list ends a run with an exit, and the code is 0. */
  lemma {:induction false} ExecExits(c: Collaborators, stages: seq<Stage>, st: State)
    ensures Exec(c, stages, st).outcome.Exit? ==>
      var r := Exec(c, stages, st);
      && r.outcome.code == 0
      && |r.trace| > 0
      && r.trace[|r.trace| - 1].FetchSources?
      && c.fetchSources(r.trace[|r.trace| - 1].options) == Ok([])
    ensures Fetch !in stages ==> !Exec(c, stages, st).outcome.Exit?
    decreases |stages|
  {
    if |stages| > 0 {
      ApplyQuits(c, stages[0], st);
      match Apply(c, stages[0], st)
      case Fail(_) =>
      case Quit(_) =>
      case Next(st') =>
        ExecExits(c, stages[1..], st');
        var rest := Exec(c, stages[1..], st');
        assert Exec(c, stages, st).trace == [CallOf(stages[0], st)] + rest.trace;
        assert Fetch !in stages ==> Fetch !in stages[1..] by {
          if Fetch in stages[1..] {
            var k :| 0 <= k < |stages[1..]| && stages[1..][k] == Fetch;
            assert stages[k + 1] == Fetch;
          }
        }
    }
  }

  /** A call built from a state is handed what the state holds. */
  lemma CallOfHands(stage: Stage, st: State)
    ensures Hands(CallOf(stage, st), HeldOf(st))
  {
  }

  /** The sources, the locations and the report are threaded through the whole run. */
  lemma {:induction false} ExecThreads(c: Collaborators, stages: seq<Stage>, st: State)
    ensures Threads(c, HeldOf(st), Exec(c, stages, st).trace)
    decreases |stages|
  {
    if |stages| > 0 {
      var call := CallOf(stages[0], st);
      var t := Exec(c, stages, st).trace;
      CallOfHands(stages[0], st);
      assert t[..0] == [];
      match Apply(c, stages[0], st)
      case Fail(_) =>
      case Quit(_) =>
      case Next(st') =>
        ExecThreads(c, stages[1..], st');
        ApplySources(c, stages[0], st);
        ApplyLocations(c, stages[0], st);
        ApplyReport(c, stages[0], st);
        assert HeldAfter(c, HeldOf(st), call) == HeldOf(st');
        var rest := Exec(c, stages[1..], st').trace;
        assert t == [call] + rest;
        forall j | 0 <= j < |t|
          ensures Hands(t[j], HeldAcross(c, HeldOf(st), t[..j]))
        {
          if j > 0 {
            assert t[..j][0] == call && t[..j][1..] == rest[..j - 1];
            assert HeldAcross(c, HeldOf(st), t[..j]) == HeldAcross(c, HeldOf(st'), rest[..j - 1]);
            assert t[j] == rest[j - 1];
          }
        }
    }
  }

  /** No stage of `stages` annotates section `k`. */
  predicate Untouched(stages: seq<Stage>, k: string) {
    forall s :: s in stages ==> WrittenSection(s) != Some(k)
  }

  /**
   Without a checkpoint load, a run keeps the report's keys, and a section no
   stage of the list annotates ends as it started.
   */
  lemma {:induction false} ExecReportFrame(c: Collaborators, stages: seq<Stage>, st: State)
    ensures Exec(c, stages, st).outcome.Done? && Restore !in stages ==>
      var rep := Exec(c, stages, st).outcome.value.report;
      && rep.Keys == st.report.Keys
      && forall k :: k in st.report && Untouched(stages, k) ==> rep[k] == st.report[k]
    decreases |stages|
  {
    if |stages| > 0 {
      ApplyReportKeys(c, stages[0], st);
      match Apply(c, stages[0], st)
      case Fail(_) =>
      case Quit(_) =>
      case Next(st') =>
        ExecReportFrame(c, stages[1..], st');
        assert forall s :: s in stages[1..] ==> s in stages;
        assert stages[0] in stages;
    }
  }

  /** Options never change, and a stage absent from the list leaves its variable alone. */
  lemma {:induction false} ExecFrame(c: Collaborators, stages: seq<Stage>, st: State)
    ensures Exec(c, stages, st).outcome.Done? ==>
      var out := Exec(c, stages, st).outcome.value;
      && out.options == st.options
      && (Rate !in stages ==> out.ratings == st.ratings)
      && (Features !in stages ==> out.features == st.features)
      && (Write !in stages ==> out.output == st.output)
    decreases |stages|
  {
    if |stages| == 0 {
    } else {
      ApplyKeepsOptions(c, stages[0], st);
      ApplyKeepsResults(c, stages[0], st);
      match Apply(c, stages[0], st)
      case Fail(_) =>
      case Quit(_) =>
      case Next(st') =>
        ExecFrame(c, stages[1..], st');
        assert forall s :: s in stages[1..] ==> s in stages;
    }
  }

  /** Every call that is handed the options is handed the options the run started with. */
  lemma {:induction false} ExecOptions(c: Collaborators, stages: seq<Stage>, st: State)
    ensures forall i :: 0 <= i < |Exec(c, stages, st).trace| && TakesOptions(Exec(c, stages, st).trace[i]) ==>
      Exec(c, stages, st).trace[i].options == st.options
    decreases |stages|
  {
    if |stages| > 0 {
      var call := CallOf(stages[0], st);
      ApplyKeepsOptions(c, stages[0], st);
      match Apply(c, stages[0], st)
      case Fail(_) =>
      case Quit(_) =>
      case Next(st') =>
        ExecOptions(c, stages[1..], st');
        var rest := Exec(c, stages[1..], st');
        var t := Exec(c, stages, st).trace;
        assert t == [call] + rest.trace;
        forall i | 0 <= i < |t| && TakesOptions(t[i])
          ensures t[i].options == st.options
        {
          if i > 0 {
            assert t[i] == rest.trace[i - 1];
          }
        }
    }
  }

  /**
   Without feature lookup in the list, every call that takes `features` is
   handed the value the run started with.
   */
  lemma {:induction false} ExecFeaturesHeld(c: Collaborators, stages: seq<Stage>, st: State)
    requires Features !in stages
    ensures forall i :: 0 <= i < |Exec(c, stages, st).trace| && TakesFeatures(Exec(c, stages, st).trace[i]) ==>
      Exec(c, stages, st).trace[i].features == st.features
    decreases |stages|
  {
    if |stages| > 0 {
      var call := CallOf(stages[0], st);
      ApplyKeepsResults(c, stages[0], st);
      match Apply(c, stages[0], st)
      case Fail(_) =>
      case Quit(_) =>
      case Next(st') =>
        assert forall s :: s in stages[1..] ==> s in stages;
        ExecFeaturesHeld(c, stages[1..], st');
        var rest := Exec(c, stages[1..], st');
        var t := Exec(c, stages, st).trace;
        assert t == [call] + rest.trace;
        forall i | 0 <= i < |t| && TakesFeatures(t[i])
          ensures t[i].features == st.features
        {
          if i > 0 {
            assert t[i] == rest.trace[i - 1];
          }
        }
    }
  }

  /**
   Without rating in the list, every call that takes `ratings` is handed the
   value the run started with.
   */
  lemma {:induction false} ExecRatingsHeld(c: Collaborators, stages: seq<Stage>, st: State)
    requires Rate !in stages
    ensures forall i :: 0 <= i < |Exec(c, stages, st).trace| && TakesRatings(Exec(c, stages, st).trace[i]) ==>
      Exec(c, stages, st).trace[i].ratings == st.ratings
    decreases |stages|
  {
    if |stages| > 0 {
      var call := CallOf(stages[0], st);
      ApplyKeepsOptions(c, stages[0], st);
      match Apply(c, stages[0], st)
      case Fail(_) =>
      case Quit(_) =>
      case Next(st') =>
        assert forall s :: s in stages[1..] ==> s in stages;
        ExecRatingsHeld(c, stages[1..], st');
        var rest := Exec(c, stages[1..], st');
        var t := Exec(c, stages, st).trace;
        assert t == [call] + rest.trace;
        forall i | 0 <= i < |t| && TakesRatings(t[i])
          ensures t[i].ratings == st.ratings
        {
          if i > 0 {
            assert t[i] == rest.trace[i - 1];
          }
        }
    }
  }

  /**
   A run that rates first and never again hands every later call that takes
   `ratings` exactly what rating returned.
   */
  lemma ExecRatingsRated(c: Collaborators, stages: seq<Stage>, st: State)
    requires |stages| > 0 && stages[0] == Rate && Rate !in stages[1..]
    ensures
      var t := Exec(c, stages, st).trace;
      forall i :: 0 < i < |t| && TakesRatings(t[i]) ==>
        c.rateSources(st.sources, st.locations).Ok? && t[i].ratings == c.rateSources(st.sources, st.locations).value
  {
    match Apply(c, Rate, st)
    case Fail(_) =>
    case Quit(_) =>
    case Next(st') =>
      ExecRatingsHeld(c, stages[1..], st');
      var rest := Exec(c, stages[1..], st');
      var t := Exec(c, stages, st).trace;
      assert t == [CallOf(Rate, st)] + rest.trace;
      forall i | 0 < i < |t| && TakesRatings(t[i])
        ensures c.rateSources(st.sources, st.locations).Ok? && t[i].ratings == c.rateSources(st.sources, st.locations).value
      {
        assert t[i] == rest.trace[i - 1];
      }
  }

  /** Continue a run with `more` stages when it returned normally. */
  function Then(c: Collaborators, r: Run<State>, more: seq<Stage>): Run<State> {
    if r.outcome.Done? then
      var r2 := Exec(c, more, r.outcome.value);
      Run(r.trace + r2.trace, r2.outcome)
    else r
  }

  /** Running two stage lists back to back is running their concatenation. */
  lemma {:induction false} ExecAppend(c: Collaborators, a: seq<Stage>, b: seq<Stage>, st: State)
    ensures Exec(c, a + b, st) == Then(c, Exec(c, a, st), b)
    decreases |a|
  {
    if |a| == 0 {
      assert a + b == b;
    } else {
      assert (a + b)[0] == a[0];
      assert (a + b)[1..] == a[1..] + b;
      match Apply(c, a[0], st)
      case Fail(_) =>
      case Quit(_) =>
      case Next(st') =>
        ExecAppend(c, a[1..], b, st');
        var call := CallOf(a[0], st);
        var ra := Exec(c, a[1..], st');
        if ra.outcome.Done? {
          var rb := Exec(c, b, ra.outcome.value);
          assert [call] + (ra.trace + rb.trace) == ([call] + ra.trace) + rb.trace;
        }
    }
  }

  /** A one-stage run makes that stage's call and, when it returns normally, ends in the state it left. */
  lemma ExecSingle(c: Collaborators, stage: Stage, st: State)
    ensures Exec(c, [stage], st).trace == [CallOf(stage, st)]
    ensures Apply(c, stage, st).Next? ==> Exec(c, [stage], st).outcome == Done(Apply(c, stage, st).state)
  {
    assert [stage][1..] == [];
  }

  /** A run that ends with a feature lookup and returns holds what the lookup found. */
  lemma ExecThroughFeatures(c: Collaborators, head: seq<Stage>, st: State)
    ensures
      var a := Exec(c, head + [Features], st);
      a.outcome.Done? ==>
        && |a.trace| == |head| + 1
        && a.trace[|head|].FindFeatures?
        && a.outcome.value.features == FoundFeatures(c, a.trace[|head|])
  {
    var a := Exec(c, head + [Features], st);
    ExecAppend(c, head, [Features], st);
    ExecOrder(c, head, st);
    var h := Exec(c, head, st);
    if h.outcome.Done? {
      var mid := h.outcome.value;
      ExecSingle(c, Features, mid);
      ApplyKeepsResults(c, Features, mid);
      if a.outcome.Done? {
        assert a.trace == h.trace + [CallOf(Features, mid)];
      }
    }
  }

  /**
   After a feature lookup, every later call that takes `features` is handed
   what the lookup returned, as long as no further lookup runs.
   */
  lemma ExecFeaturesFound(c: Collaborators, head: seq<Stage>, tail: seq<Stage>, st: State)
    requires Features !in tail
    ensures
      var t := Exec(c, head + [Features] + tail, st).trace;
      forall i :: |head| < i < |t| && TakesFeatures(t[i]) ==>
        t[|head|].FindFeatures? && t[i].features == FoundFeatures(c, t[|head|])
  {
    var t := Exec(c, head + [Features] + tail, st).trace;
    ExecAppend(c, head + [Features], tail, st);
    var a := Exec(c, head + [Features], st);
    ExecOrder(c, head + [Features], st);
    if a.outcome.Done? {
      ExecThroughFeatures(c, head, st);
      ExecFeaturesHeld(c, tail, a.outcome.value);
      var b := Exec(c, tail, a.outcome.value);
      assert t == a.trace + b.trace;
      forall i | |head| < i < |t| && TakesFeatures(t[i])
        ensures t[|head|].FindFeatures? && t[i].features == FoundFeatures(c, t[|head|])
      {
        assert t[i] == b.trace[i - |head| - 1];
      }
    }
  }
}

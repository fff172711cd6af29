# Pipeline orchestrator of coronadatascraper, modelled in Dafny

This project models `src/shared/index.js`, the orchestration layer of the
scraper. It fixes the order of the stages: fetch the sources, validate them,
scrape them, write the raw checkpoint, then rate, deduplicate, summarise,
look up features and populations, transform IDs, clean and write.

Everything the orchestrator calls is imported from elsewhere and is not part
of this model. Each such collaborator is an uninterpreted function value in
`Trace.Collaborators`. It returns either a value or a thrown error. Some
collaborators change arrays or report sections they were handed by reference.
For those, the collaborator also returns the new contents. The model covers
these arguments:

- `validateSources`: the sources and `report.sources`;
- `scrapeData`: the locations it creates and `report.scrape`;
- `dedupeLocations`: the locations and `report.scrape`;
- `reportScrape`: `report.scrape`;
- `findFeatures`: the locations and `report.findFeatures`, besides the features;
- `findPopulations`: the locations and `report.findPopulation`;
- `transformIds`: the locations and `report.transformIds`;
- `cleanLocations`: the locations and `report.validate`.

Every other argument is taken to be left unchanged. "## Left out" lists each
such argument.

A run of an entry point is a `Run`, made of two parts:

- the trace: every collaborator call made, with its arguments, in order;
- the outcome: a returned value, `process.exit(code)`, or an uncaught error.

`Machine` gives the orchestrator's variables as a `State`. Each stage makes
one call and folds its result back into the state. `Exec` runs a list of
stages and stops at the first uncaught error or exit. The properties of
`Exec` are proved once, by induction over the stage list:

- the calls follow the stage list;
- the fault policy holds;
- only an empty source list exits;
- the sources, the locations and the report are threaded: each call is
  handed them as the calls before it left them;
- a stage changes at most the one report section it annotates;
- variables that no stage sets are left as they were;
- options, ratings and features are forwarded.

`Pipeline` writes the source's functions as the source composes them: awaited
call after awaited call. `Properties` proves, for each composition, the
following:

- the composition equals one `Exec` run of a flat stage list. This is the
  reference definition of the composition.
- each entry point's promises hold: which calls it makes, in what order, with
  which arguments, and how it ends.

Modules:

| file | module | contents |
|---|---|---|
| values.dfy | `JsValues` | JavaScript values, truthiness, the logical-or operator, the awaited result |
| options.dfy | `RunOptions` | `getFullOptions` |
| report.dfy | `Reports` | `emptyReport`; annotation of a report section |
| merge.dfy | `Merge` | the `forEach`/`push` append of the secondary dataset |
| trace.dfy | `Trace` | collaborators, calls, stages, outcomes, the fault policy |
| machine.dfy | `Machine` | the stage machine and its induction lemmas |
| pipeline.dfy | `Pipeline` | seven of the nine functions of `src/shared/index.js` (`emptyReport` is in `Reports`, `getFullOptions` in `RunOptions`), and the helpers `CrawlAndReport`, `CrawlOnly`, `Resume` and `DumpOptions` |
| properties.dfy | `Properties` | what each entry point promises |

A full run (`generate`) forwards the caller's defaulted options, `dumpRaw`
included, to the checkpoint write (src/shared/index.js:79, 85, 46). The
checkpoint write is called on every full run and sees the caller's `dumpRaw`;
what the flag does is up to that collaborator. See
`Properties.GenerateKeepsOptions`.

## Model

| member | source | states |
|---|---|---|
| `JsValues.Or` | src/shared/index.js:21 | `date` or-else today's date is truthy exactly when one operand is. It is `date` when `date` is truthy, and today's date otherwise. |
| `RunOptions.GetFullOptions` | src/shared/index.js:71-73 | The result has the caller's keys plus the three defaulted flags. Every caller value wins, including `undefined`. A flag the caller leaves out is `true`. Each defaulted flag is on exactly when it is absent or truthy in the caller's options. |
| `Reports.EmptyReport` | src/shared/index.js:19-29 | A fresh report has exactly `date` and the six stage sections, each an empty object. `date` is the argument when it is truthy and today's date otherwise. |
| `Reports.Annotate` | src/shared/index.js:42-44 | A stage writing into `report.k` changes only key `k`. A report without `k` is left unchanged, because the stage was handed `undefined`. |
| `Merge.PushEach` | src/shared/index.js:118-123 | pushing every element of the secondary list, one at a time, yields the original list followed by the secondary list, in order |
| `Pipeline.GetSources` | src/shared/index.js:31-38 | It makes exactly one fetch with the options. It exits with code 0 exactly when the fetch returns an empty list, and aborts exactly when the fetch throws. Otherwise it continues with the fetched, non-empty list and nothing else changed. |
| `Pipeline.DumpOptions` | src/shared/index.js:91-92 | `dumpRaw` is `true`, and every other key reads as in the defaulted options |
| `Machine.ApplyFails` | src/shared/index.js:116-127 | a stage fails the run exactly when its call throws an error that is not caught, and only the secondary loader's error is caught |
| `Machine.ApplyQuits` | src/shared/index.js:33-36 | only a fetch that returns an empty list exits, and with code 0 |
| `Machine.ApplySources` | src/shared/index.js:32-123 | only fetching, validation, the checkpoint load and the secondary load change the sources variable; every other stage that returns leaves it as it was |
| `Machine.ApplyLocations` | src/shared/index.js:32-123 | fetching, validation, the checkpoint write, rating, the scrape summary and the final write leave the locations variable as it was |
| `Machine.ApplyReportKeys` | src/shared/index.js:42-66 | a stage other than the checkpoint load keeps the report's keys and changes at most the one section it is handed |
| `Machine.ApplyKeepsOptions` | src/shared/index.js:52-69 | no stage changes the options, and only rating sets `ratings` |
| `Machine.ApplyKeepsResults` | src/shared/index.js:59-68 | Only feature lookup sets `features`, and it sets it to what the lookup found. Only the final write sets the output. |
| `Machine.ExecOrder` | src/shared/index.js:52-69 | the calls follow the stage list in order, and a run that returns made all of them |
| `Machine.ExecFaultPolicy` | src/shared/index.js:109-130 | Every call but the last returned normally or was the caught secondary load. A run aborts exactly when its last call threw an uncaught error, and with that error. |
| `Machine.ExecExits` | src/shared/index.js:33-36 | a run exits only after a fetch that returned an empty list, with code 0, and a stage list without a fetch never exits |
| `Machine.ExecThreads` | src/shared/index.js:42-68 | Every call is handed the sources, the locations and the report sections as all earlier calls left them. This covers the hand-offs across calls that do not change them: scrape to checkpoint write, checkpoint load to rating. |
| `Machine.ExecReportFrame` | src/shared/index.js:42-68 | a run without a checkpoint load that returns keeps the report's keys, and every section no stage of the list annotates ends as it started |
| `Machine.ExecFrame` | src/shared/index.js:52-69 | Options never change. `ratings`, `features` and the output stay as they were unless their stage is in the list. |
| `Machine.ExecOptions` | src/shared/index.js:41-68 | every call handed the options gets the options the run started with |
| `Machine.ExecFeaturesHeld` | src/shared/index.js:59-62 | without a feature lookup, population lookup and the final write get the starting `features` |
| `Machine.ExecAppend` | src/shared/index.js:84-86 | awaiting one stage list and then another is one run of their concatenation |
| `Machine.ExecFeaturesFound` | src/shared/index.js:60-68 | after a feature lookup, every later population lookup and final write is handed what the lookup found |
| `Machine.ExecRatingsHeld` | src/shared/index.js:53-68 | without rating in the list, every ID transform and final write gets the starting `ratings` |
| `Machine.ExecRatingsRated` | src/shared/index.js:53-68 | in a run that rates first and never again, every later ID transform and final write gets exactly what rating returned |
| `Properties.RunScrapeContract` | src/shared/index.js:41-49 | `runScrape` validates the sources against `report.sources`, then scrapes, then writes the checkpoint with the options unchanged. It never exits and stops at the first error. It returns the scrape's locations. |
| `Properties.RunScrapeThreads` | src/shared/index.js:42-46 | scraping is handed the sources validation left, and the checkpoint write gets those sources, the scraped locations and the report with both annotations |
| `Properties.ExecEndsWithWrite` | src/shared/index.js:68 | a run ending with the final write that returns has that write as its last call, with the run's options, and returns what it wrote |
| `Properties.FetchFirstExits` | src/shared/index.js:31-38 | A run that fetches first exits exactly when the fetch returns an empty list. It then exits with code 0 and makes no other call. |
| `Properties.GenerateReportsContract` | src/shared/index.js:52-69 | The calls follow rate, dedupe, summarise, the enabled lookups, transform, clean, write. The first call rates exactly the given sources and locations. It never exits and stops at the first error. It threads the sources, the locations and the report, starting from the given ones. |
| `Properties.GenerateReportsKeepsOtherSections` | src/shared/index.js:52-68 | when `generateReports` returns, the final write gets a report with the given keys, and every section report generation does not annotate (`date`, `sources`) is as given |
| `Properties.ReportRunKeepsOtherSections` | src/shared/index.js:53-68 | any run of report generation stages ending with the final write hands that write the starting report's other sections unchanged |
| `Properties.GenerateReportsReturnsWrite` | src/shared/index.js:68 | when `generateReports` returns, its last call is the final write with the given options, and it returns what the write returned |
| `Properties.GenerateReportsRatings` | src/shared/index.js:53-68 | every ID transform and the final write of `generateReports` are handed the ratings that the first call, rating, returned |
| `Properties.GenerateReportsNullFeatures` | src/shared/index.js:59-62 | with `findFeatures` off, population lookup and the final write are handed `features = null` |
| `Properties.GenerateReportsFoundFeatures` | src/shared/index.js:60-68 | with `findFeatures` on, population lookup and the final write are handed what the fourth call, the feature lookup, found |
| `Properties.PopulationsWithoutFeatures` | src/shared/index.js:59-62 | with `findFeatures` off and `findPopulations` on, the fourth call is population lookup, with null features |
| `Properties.CrawlKeepsRest` | src/shared/index.js:31-49 | fetching and crawling leave the options, ratings, features and output as they were |
| `Properties.CrawlAndReportIsPipeline` | src/shared/index.js:78-87 | `generate`, composed of `getSources`, `runScrape` and `generateReports`, equals one run of fetch, the crawl stages and the report stages |
| `Properties.CrawlAndReportContract` | src/shared/index.js:84-86 | The full run's calls follow fetch, crawl, then report generation. It exits with code 0 exactly when no sources were fetched, and then after the fetch alone. It stops at the first error. It threads the sources, the locations and the report from the fetch to the final write. |
| `Properties.CrawlAndReportReturnsWrite` | src/shared/index.js:86 | when the full run returns, its last call is the final write with the run's options, and it returns what that write returned |
| `Properties.GenerateExitsOnNoSources` | src/shared/index.js:78-87 | an empty source list ends `generate` with exit code 0 after exactly one call, the fetch with the defaulted options |
| `Properties.GenerateKeepsOptions` | src/shared/index.js:79-86 | the fetch, checkpoint write and final write of `generate` are all handed the defaulted caller options |
| `Properties.GenerateValidatesFetched` | src/shared/index.js:82-85 | `generate` validates the fetched sources against the fresh report's empty `sources` section |
| `Properties.CrawlAndReportValidatesFetched` | src/shared/index.js:84-85 | the full run's second call validates exactly the fetched list against the report's `sources` section |
| `Properties.FetchThenValidate` | src/shared/index.js:32-42 | any run that fetches a non-empty list and then validates hands validation exactly the fetched list |
| `Properties.CrawlOnlyIsCrawl` | src/shared/index.js:90-97 | the crawl-only run equals one run of fetch and the crawl stages, returning the final locations |
| `Properties.CrawlOnlyContract` | src/shared/index.js:94-95 | The crawl-only calls follow fetch, validate, scrape, checkpoint write. It exits with code 0 exactly on an empty source list, with no other call, and stops at the first error. It threads the sources, the locations and the report. |
| `Properties.CrawlOnlyReportsNothing` | src/shared/index.js:90-97 | the crawl-only run makes no report generation call |
| `Properties.CrawlOnlyKeepsOptions` | src/shared/index.js:91-95 | every call of the crawl-only run handed options gets the run's options |
| `Properties.CrawlOnlyReturnsScraped` | src/shared/index.js:95-96 | the crawl-only run returns the locations the scrape produced |
| `Properties.ScrapeToRawFilesDumps` | src/shared/index.js:91-95 | `scrapeToRawFiles` hands its checkpoint write `dumpRaw = true`, and exits with code 0 after the fetch alone on an empty source list |
| `Properties.ResumeIsPipeline` | src/shared/index.js:100-130 | a resume, composed of the restore calls and `generateReports`, equals one run of the restore stages followed by the report stages |
| `Properties.ResumeContract` | src/shared/index.js:104-129 | The calls follow the restore stages, then report generation. A resume never exits and stops at the first uncaught error. It threads the sources, the locations and the report from the restore on. |
| `Properties.ResumeReturnsWrite` | src/shared/index.js:100-130 | when a resume returns, its last call is the final write with the resume's options (the defaulted caller options in both entry points), and it returns what that write returned |
| `Properties.ResumeNeverCrawls` | src/shared/index.js:100-130 | a resume never fetches, validates or scrapes |
| `Properties.RestoreThenRate` | src/shared/index.js:104-105 | the checkpoint load is the first call, and rating is handed exactly what the checkpoint held |
| `Properties.RestoreLiThenRate` | src/shared/index.js:113-129 | After the checkpoint load comes the secondary load. Rating then gets the checkpoint's lists with the secondary lists appended, or the checkpoint's lists alone when the secondary load threw. |
| `Properties.FromRawFilesRestores` | src/shared/index.js:100-106 | `generateReportsFromRawFiles` first loads the checkpoint with the defaulted options, then rates exactly the restored sources and locations |
| `Properties.CombinedRawFilesMerges` | src/shared/index.js:109-130 | `generateReportsFromCombinedRawFiles` loads the checkpoint, then the secondary dataset, then rates the restored lists with the secondary lists appended in order, or the restored lists when the secondary load threw |
| `Properties.CombinedRawFilesToleratesLoaderError` | src/shared/index.js:116-129 | When the secondary loader throws, the combined mode ends exactly as `generateReportsFromRawFiles` does. Its calls are the same plus the failed load after the checkpoint load. |
| `Properties.CaughtLoaderSkipped` | src/shared/index.js:116-127 | a secondary load that throws after a checkpoint load changes only the trace, and only by its own call |

## Left out

- Logging (`console.log`) is left out. Its output has no effect on the values or calls the orchestrator makes. The one exception is the next item.
- The secondary loader's error is assumed to convert to a string. The catch handler builds a message from the error (src/shared/index.js:126). An error value that cannot be converted, such as an object whose `toString` is not a function, makes the handler itself throw, and the run then rejects without rating. The model always continues to rating after a caught loader error.
- `process.exit(0)` is the `Exit(0)` outcome. The process ending, and anything it does to other work in flight, is not modelled.
- Promises and `await` are left out. The calls are strictly sequential, so a run is their sequence.
- The clock is left out. `datetime.getYYYYMD()` is the `today` parameter of `EmptyReport`.
- Numbers are integers. NaN, fractions and negative zero do not affect any decision of the orchestrator except truthiness, and their truthiness is not modelled.
- The collaborators' own code is not part of this model. They are uninterpreted functions from their arguments to a result or a thrown error.
- A collaborator is assumed to change only the arguments listed at the top of this file. The model does not include global side effects, or a collaborator mutating an object it also returns. Each remaining argument is assumed unchanged, as listed in the next items.
- `options` is assumed unchanged by every collaborator handed it: `fetchSources`, `writeRaw`, `loadRaw`, `loadRawPriorityAdjusted` and `writeData`. These collaborators read the run's settings. A change would reach every later call that is handed the options.
- `scrapeData` is assumed to leave `sources` unchanged. It reads the sources to build the locations. A change would reach the checkpoint write and, in `generate`, rating.
- `writeRaw` is assumed to leave `sources`, `locations` and the whole report unchanged. It serialises them to the checkpoint. In `generate` a change would be observable, because the same three objects then go to report generation (src/shared/index.js:85-86).
- `rateSources` is assumed to leave `locations` unchanged. It computes ratings from them. A change would reach deduplication. A change to `sources` by rating is not observable, because no later call is handed the sources.
- `reportScrape` is assumed to leave `locations` unchanged. It only summarises into `report.scrape`.
- `findPopulations` is assumed to leave `features` unchanged. A change would reach the final write.
- `transformIds` is assumed to leave `ratings` and `report.scrape` unchanged. It reads them, and a change would reach the final write.
- `writeData` is assumed to leave all its arguments unchanged. No later call is handed them, so a change is not observable.
- Arrays and report sections are values in the model. Aliasing between them, such as one object held in two arrays, is not modelled.
- A non-object `options` argument is not modelled. `options` is always an object; the default parameter `options = {}` is the empty map.
- The secondary lists are assumed to have no holes. `forEach` skips the holes of a sparse array (src/shared/index.js:118-123), so a sparse `liSources` would add fewer elements than its length. `Merge.PushEach` states the dense case.
- `fetchSources` is assumed to return an array. `getSources` reads `sources.length` (src/shared/index.js:33). A returned `undefined` would throw there, and an empty string would exit with code 0. The fetch is modelled as returning a list or throwing.
- A partial failure inside the secondary merge is left out. The `forEach` loops could throw halfway when the loader returns non-arrays, which leaves part of the secondary data pushed. The loader is modelled as throwing or returning two lists.
- A checkpoint missing `sources`, `locations` or `report` is left out. Destructuring `undefined` throws, and the checkpoint loader is modelled as returning the three fields or throwing.
- The `date` parameter of `runScrape`, `generateReports` and the two resume entry points is unused in the source, so it is not an argument in the model.
- `Pipeline.RunScrape`, `Pipeline.GenerateReports`, `Pipeline.Generate`, `Pipeline.ScrapeToRawFiles`, `Pipeline.GenerateReportsFromRawFiles` and `Pipeline.GenerateReportsFromCombinedRawFiles` carry no contract of their own. Their properties are the lemmas in `Properties`.

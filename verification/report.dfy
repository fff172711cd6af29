/**
 The per-run report (`emptyReport` in src/shared/index.js): a record with a
 `date` and one initially empty sub-object per stage. Each collaborator is
 handed one sub-object by reference and annotates it.
 */
module Reports {
  import opened JsValues

  type Report = Object

  /** The sub-objects, one per stage that annotates the report. */
  const SectionKeys: set<string> :=
    {"sources", "scrape", "findFeatures", "findPopulation", "transformIds", "validate"}

  /** Every key a freshly created report has. */
  const ReportKeys: set<string> := SectionKeys + {"date"}

  /**
   A fresh report for `date`, falling back to `today` (the current date in
   YYYY-M-D form, which the pipeline reads from the clock) when `date` is falsy.
   */
  function EmptyReport(date: JsValue, today: string): (r: Report)
    ensures r.Keys == ReportKeys
    ensures forall k :: k in SectionKeys ==> r[k] == EmptyObject
    ensures Truthy(date) ==> r["date"] == date
    ensures !Truthy(date) ==> r["date"] == Str(today)
  {
    map[
      "date" := Or(date, Str(today)),
      "sources" := EmptyObject,
      "scrape" := EmptyObject,
      "findFeatures" := EmptyObject,
      "findPopulation" := EmptyObject,
      "transformIds" := EmptyObject,
      "validate" := EmptyObject
    ]
  }

  /**
   The effect of a collaborator annotating `report.k` in place: the new
   contents land under `k`. When the report has no such key the collaborator
   was handed `undefined`, which it cannot mutate, so the report is unchanged.
   */
  function Annotate(report: Report, k: string, section: JsValue): (r: Report)
    ensures r.Keys == report.Keys
    ensures k in report ==> r[k] == section
    ensures forall j :: j in report && j != k ==> r[j] == report[j]
    ensures k !in report ==> r == report
  {
    if k in report then report[k := section] else report
  }
}

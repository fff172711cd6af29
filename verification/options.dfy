/**
 Run options (`getFullOptions` in src/shared/index.js): three flags default to
 `true`, and every key the caller supplies, recognised or not, wins over the
 default.
 */
module RunOptions {
  import opened JsValues

  type Options = Object

  /** The flags that `getFullOptions` switches on unless the caller says otherwise. */
  const DefaultedFlags: set<string> := {"findFeatures", "findPopulations", "writeData"}

  /** The object literal `{ findFeatures: true, findPopulations: true, writeData: true }`. */
  const Defaults: Options :=
    map["findFeatures" := Bool(true), "findPopulations" := Bool(true), "writeData" := Bool(true)]

  /**
   `{ ...Defaults, ...options }`: the caller's own properties are copied over the
   defaults. A property the caller supplies with the value `undefined` is still
   an own property, so it replaces the default too.
   */
  function GetFullOptions(options: Options): (r: Options)
    ensures r.Keys == options.Keys + DefaultedFlags
    ensures forall k :: k in options ==> r[k] == options[k]
    ensures forall k :: k in DefaultedFlags && k !in options ==> r[k] == Bool(true)
    ensures forall k :: k in DefaultedFlags ==> (Flag(r, k) <==> k !in options || Truthy(options[k]))
  {
    Defaults + options
  }

  /** Whether the flag `k` is on in `options`, as `if (options.k)` reads it. */
  predicate Flag(options: Options, k: string) {
    Truthy(Get(options, k))
  }
}

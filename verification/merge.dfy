/**
 Appending the secondary dataset (src/shared/index.js, the `forEach` loops
 that `push` every secondary source and location onto the working arrays).
 */
module Merge {
  import opened JsValues

  /** `ys.forEach(y => xs.push(y))`, one push at a time, left to right. */
  function PushEach(xs: seq<JsValue>, ys: seq<JsValue>): (r: seq<JsValue>)
    ensures r == xs + ys
    decreases |ys|
  {
    if |ys| == 0 then xs else PushEach(xs + [ys[0]], ys[1..])
  }
}

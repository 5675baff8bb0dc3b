/**
 * The structured verdict every judge returns (`Verdict`), and Python's
 * `float()` on a decoded value, which the judges apply to the score the
 * model states.
 */
module Verdicts {
  import opened Basics
  import opened PyJson

  /**
   * One entry of a verdict's `metrics` dictionary or of a report row: a
   * number, a decoded value, a name, or the list of verdicts the chief
   * justice nests under `individual_verdicts`.
   */
  datatype Cell = Number(x: real) | Value(v: Json) | Name(s: string) | Nested(verdicts: seq<Verdict>)

  datatype Verdict = Verdict(judgeName: string, score: real, verdict: Json, metrics: seq<(string, Cell)>)

  /**
   * `float(v)`: booleans and numbers as their value, a string as the number
   * it spells (decided by `floatOf`, which stands for Python's own parser
   * and is `None` where that raises `ValueError`); any other value raises
   * `TypeError`. `None` is an exception.
   */
  function PyFloat(v: Json, floatOf: string -> Option<real>): (r: Option<real>)
    ensures Numeric(v).Some? ==> r == Numeric(v)
    ensures (v.JNull? || v.JArr? || v.JObj?) ==> r.None?
  {
    match v
    case JStr(s) => floatOf(s)
    case _ => Numeric(v)
  }
}

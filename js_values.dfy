/**
 * The few pieces of JavaScript value semantics the dashboard's decision code
 * depends on: optional results, numbers that may be NaN (or `undefined`),
 * comparisons that are false on NaN, and the two string-to-number parsers,
 * which are kept abstract.
 */
module JsValues {

  datatype Option<+T> = None | Some(value: T) {
    function GetOr(default: T): T {
      match this
      case Some(v) => v
      case None => default
    }
  }

  datatype Result<+T, +E> = Success(value: T) | Failure(error: E)

  /** A field of a prediction input object: a finite number, NaN, or `undefined`. */
  datatype JsValue = Num(n: real) | NaN | Undefined

  /**
   * `parseFloat` and `parseInt` as the browser provides them; `None` is NaN.
   * Their string grammar is not modelled: every operation takes them as values.
   */
  datatype JsParse = JsParse(parseFloat: string -> Option<real>, parseInt: string -> Option<int>)

  /** One CSV row as produced by the parser: header name to cell text. */
  type Row = map<string, string>

  /** `row[f]`, which is `undefined` (and so parses to NaN) when the column is absent. */
  function Cell(row: Row, f: string): (c: Option<string>)
    ensures c.Some? <==> f in row
  {
    if f in row then Some(row[f]) else None
  }

  /** `parseFloat(row[f])`. */
  function ParseFloatCell(parse: JsParse, row: Row, f: string): Option<real> {
    match Cell(row, f)
    case Some(s) => parse.parseFloat(s)
    case None => None
  }

  /** `parseInt(row[f])`. */
  function ParseIntCell(parse: JsParse, row: Row, f: string): Option<int> {
    match Cell(row, f)
    case Some(s) => parse.parseInt(s)
    case None => None
  }

  /** A parse result as a JavaScript number. */
  function FromParse(p: Option<real>): (v: JsValue)
    ensures v != Undefined
    ensures v == NaN <==> p == None
  {
    match p
    case Some(x) => Num(x)
    case None => NaN
  }

  /** `isNaN(v)`: true of NaN and of `undefined`, which converts to NaN. */
  predicate IsNaN(v: JsValue) {
    !v.Num?
  }

  /** `v > c`; every comparison with NaN is false. */
  predicate Gt(v: JsValue, c: real) {
    v.Num? && v.n > c
  }

  /** `v < c`. */
  predicate Lt(v: JsValue, c: real) {
    v.Num? && v.n < c
  }

  /** `v >= c`. */
  predicate Ge(v: JsValue, c: real) {
    v.Num? && v.n >= c
  }
}

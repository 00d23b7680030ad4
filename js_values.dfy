/** The JavaScript values the logger receives (arguments and results) and the
    two text conversions it applies to them, plus the timer's values. What
    `JSON.stringify` and `String(...)` produce for an arbitrary object is not
    computed: an object value carries both texts. */
module JsValues {
  import opened Basics

  datatype Value =
    | Undefined
    | Null
    | Object(json: string, text: string)   // `json`: JSON.stringify; `text`: String(...)
    | Primitive(text: string)               // strings, numbers, booleans, functions

  /** `typeof v === 'object'`, which holds for null as well. */
  predicate IsTypeofObject(v: Value)
  {
    v.Null? || v.Object?
  }

  /** `JSON.stringify(v)` for a value whose typeof is 'object'. */
  function Json(v: Value): string
    requires IsTypeofObject(v)
  {
    if v.Null? then "null" else v.json
  }

  /** The text a value takes in string concatenation or a template literal. */
  function StringForm(v: Value): string
  {
    match v
    case Undefined => "undefined"
    case Null => "null"
    case Object(_, text) => text
    case Primitive(text) => text
  }

  /** How a result is appended to the log line: its JSON text when its typeof is
      'object', its string form otherwise. */
  function Render(v: Value): string
  {
    if IsTypeofObject(v) then Json(v) else StringForm(v)
  }

  /** How `join` writes one element: null and undefined become the empty string. */
  function JoinForm(v: Value): string
  {
    if v.Undefined? || v.Null? then "" else StringForm(v)
  }

  /** `args.join(sep)`. */
  function JoinArgs(args: seq<Value>, sep: string): string
  {
    Join(seq(|args|, i requires 0 <= i < |args| => JoinForm(args[i])), sep)
  }

  /** A `process.hrtime()` reading: seconds and nanoseconds. */
  datatype HrTime = HrTime(seconds: nat, nanos: nat)

  /** What a timer returns: a high-resolution reading, or elapsed milliseconds
      (a floating-point number, kept as its decimal text). */
  datatype Time = Stamp(at: HrTime) | Ms(text: string)

  /** The timer bound under the TIMER key: called without a start it reads the
      clock, called with one it measures the time elapsed since. */
  type TimerFn = Option<Time> -> Time

  /** The text a timer value takes in a template literal; a reading, being a
      two-element array, is written as its elements joined by a comma. */
  function TimeText(t: Time): string
  {
    match t
    case Stamp(at) => NatText(at.seconds) + "," + NatText(at.nanos)
    case Ms(text) => text
  }
}

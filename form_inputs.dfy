/**
 * What a form input hands to the handlers. `parseInt` and `parseFloat` are
 * not given bodies here: a handler receives the parse result, `None` for
 * JavaScript's `NaN`. The `|| d` that follows each parse in the components
 * replaces every falsy number, so both `NaN` and `0` become the default.
 */
module FormInputs {
  import opened Wrappers

  /** `parseInt(text) || default`. */
  function IntOr(parsed: Option<int>, default: int): (r: int)
    ensures parsed.Some? && parsed.value != 0 ==> r == parsed.value
    ensures parsed.None? || parsed.value == 0 ==> r == default
  {
    match parsed
    case Some(n) => if n != 0 then n else default
    case None => default
  }

  /** `parseFloat(text) || default`. */
  function RealOr(parsed: Option<real>, default: real): (r: real)
    ensures parsed.Some? && parsed.value != 0.0 ==> r == parsed.value
    ensures parsed.None? || parsed.value == 0.0 ==> r == default
  {
    match parsed
    case Some(x) => if x != 0.0 then x else default
    case None => default
  }

  /** `text || default` on a string that may be missing: both a missing and an empty string take the default. */
  function TextOr(text: Option<string>, default: string): (r: string)
    ensures text.Some? && text.value != "" ==> r == text.value
    ensures text.None? || text.value == "" ==> r == default
  {
    match text
    case Some(s) => if s != "" then s else default
    case None => default
  }

  /** With default 1, `parseInt(text) || 1` is never 0: a quantity input cannot produce a zero quantity. */
  lemma IntOrOneNeverZero(parsed: Option<int>)
    ensures IntOr(parsed, 1) != 0
  {
  }

  /**
   * A value held in an item field of the components that keep raw input:
   * the text an input produced, or a number (an initial literal or a
   * number from a parsed JSON response).
   */
  datatype Raw = Text(text: string) | Number(number: real)

  /** The two parsers, passed in: `parseFloat` and `parseInt(_, 10)` on text. */
  datatype Parsers = Parsers(float: string -> Option<real>, integer: string -> Option<int>)

  /** The one fact about the parsers the model relies on: the empty text is `NaN` for both. */
  predicate EmptyIsNaN(p: Parsers)
  {
    p.float("") == None && p.integer("") == None
  }

  /** `Math.trunc`, which is what `parseInt` does to a number written in plain decimal notation. */
  function Truncate(x: real): (r: int)
    ensures x >= 0.0 ==> r as real <= x < r as real + 1.0
    ensures x < 0.0 ==> r as real - 1.0 < x <= r as real
  {
    if x >= 0.0 then x.Floor else -((-x).Floor)
  }

  /** `parseFloat(v)`: text goes to the parser, a number parses to itself. */
  function FloatOf(p: Parsers, v: Raw): Option<real>
  {
    match v
    case Text(s) => p.float(s)
    case Number(x) => Some(x)
  }

  /** `parseInt(v, 10)`: text goes to the parser, a number is truncated. */
  function IntegerOf(p: Parsers, v: Raw): Option<int>
  {
    match v
    case Text(s) => p.integer(s)
    case Number(x) => Some(Truncate(x))
  }
}

/**
 * The dashboard reads its inputs with `parseInt(...)` and then falls back on
 * JavaScript's `||`: a parse that fails (NaN) and a parse that yields 0 are both
 * falsy, so both are replaced by the right-hand operand. The model receives the
 * already-parsed value (`None` for NaN) and makes each fallback explicit here.
 */
module Coercion {

  datatype Option<T> = None | Some(value: T)

  /** JavaScript truthiness of a parsed integer, or of a field holding a number or null. */
  predicate Truthy(p: Option<int>)
  {
    p.Some? && p.value != 0
  }

  /**
   * `parseInt(s) || fallback`. The result is never a falsy 0 unless the
   * fallback is, so a setting that starts truthy stays truthy.
   */
  function IntOr(parsed: Option<int>, fallback: int): (r: int)
    ensures Truthy(parsed) ==> r == parsed.value
    ensures !Truthy(parsed) ==> r == fallback
    ensures fallback != 0 ==> r != 0
  {
    if Truthy(parsed) then parsed.value else fallback
  }

  /**
   * `s.trim() || fallback`, with the trimming done by the caller: only "" is
   * falsy. The result is empty only when the fallback is.
   */
  function TextOr(trimmed: string, fallback: string): (r: string)
    ensures |trimmed| > 0 ==> r == trimmed
    ensures trimmed == "" ==> r == fallback
    ensures fallback != "" ==> r != ""
  {
    if trimmed == "" then fallback else trimmed
  }

  /**
   * The auto-off duration of a new device: `parseInt(s) || null` gives the number
   * of minutes or null, and a truthy number of minutes becomes milliseconds.
   * A negative number of minutes is truthy and is kept, negative.
   */
  function UsageMillis(minutes: Option<int>): (r: Option<int>)
    ensures r.Some? <==> Truthy(minutes)
    ensures r.Some? ==> r.value == minutes.value * 60000
    ensures Truthy(r) <==> Truthy(minutes)
  {
    var usage := if Truthy(minutes) then Some(minutes.value) else None;
    if usage.Some? then Some(usage.value * 60 * 1000) else None
  }
}

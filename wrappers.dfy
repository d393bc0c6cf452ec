/** Optional values: the model's stand-in for `undefined`, `null` and missing keys. */
module Wrappers {

  datatype Option<+T> = None | Some(value: T) {

    /** The value, or `default` when there is none (JavaScript `x ?? default`). */
    function GetOr(default: T): T {
      match this
      case Some(v) => v
      case None => default
    }
  }

  /** A string field that JavaScript treats as truthy: present and not "". */
  predicate Present(o: Option<string>) {
    o.Some? && o.value != ""
  }

  /** `s || undefined`: the empty string becomes an absent field. */
  function NonEmpty(s: string): (r: Option<string>)
    ensures r.None? <==> s == ""
    ensures r.Some? ==> r.value == s
  {
    if s == "" then None else Some(s)
  }

  /** `o || fallback` on an optional string. */
  function OrElse(o: Option<string>, fallback: string): (r: string)
    ensures Present(o) ==> r == o.value
    ensures !Present(o) ==> r == fallback
  {
    if Present(o) then o.value else fallback
  }

  /**
   * What an awaited call produced: its value, or the exception it threw,
   * with the exception's `message` when it is an `Error`.
   */
  datatype Outcome<+T> = Succeeded(value: T) | Failed(message: Option<string>)

  /** `err instanceof Error ? err.message : fallback`. */
  function ErrorText<T>(o: Outcome<T>, fallback: string): (r: string)
    requires o.Failed?
    ensures o.message.Some? ==> r == o.message.value
    ensures o.message.None? ==> r == fallback
  {
    o.message.GetOr(fallback)
  }
}

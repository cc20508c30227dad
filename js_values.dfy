/** JavaScript's falsy defaults as the services use them on optional
    request fields: `x || fallback` and `x || null`. An absent string and
    the empty string are both falsy. */
module JsValues {
  import opened Wrappers

  /** `s || fallback` on an optional string. */
  function OrDefault(s: Option<string>, fallback: string): (r: string)
    ensures s.Some? && s.value != "" ==> r == s.value
    ensures s.None? || s.value == "" ==> r == fallback
  {
    if s.None? || s.value == "" then fallback else s.value
  }

  /** `s || null` on an optional string. */
  function OrNull(s: Option<string>): (r: Option<string>)
    ensures r.Some? <==> s.Some? && s.value != ""
    ensures r.Some? ==> r == s
  {
    if s.None? || s.value == "" then None else s
  }
}

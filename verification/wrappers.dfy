/** Optional values and backend outcomes shared by every screen and hook. */
module Wrappers {

  /** A value that may be absent: JavaScript's `undefined`/`null` versus a present value. */
  datatype Option<+T> = None | Some(value: T) {

    /** The present value, or `default` when absent. */
    function GetOr(default: T): T {
      match this
      case Some(v) => v
      case None => default
    }
  }

  /** The reply of the hosted database to one request. The backend is outside the
      model, so every call site receives its outcome as a parameter: any outcome
      may happen, and the model says what the application does with each. */
  datatype Outcome<+T> = Ok(value: T) | Err

  /** JavaScript truthiness of an optional string: absent and `""` are both falsy. */
  predicate Truthy(s: Option<string>) {
    s.Some? && s.value != ""
  }

  /** `x || fallback` on an optional string. */
  function OrElse(s: Option<string>, fallback: string): (r: string)
    ensures Truthy(s) ==> r == s.value
    ensures !Truthy(s) ==> r == fallback
  {
    if Truthy(s) then s.value else fallback
  }

  /** `x || undefined` on a string: the empty string becomes absent. */
  function NonEmpty(s: string): (r: Option<string>)
    ensures r.None? <==> s == ""
    ensures r.Some? ==> r.value == s
  {
    if s == "" then None else Some(s)
  }

  /** `setRows(data || [])` after a select: a successful reply replaces the
      rows, `null` data counting as no rows, and an error keeps what was shown. */
  function Refresh<T>(current: seq<T>, reply: Outcome<Option<seq<T>>>): (r: seq<T>)
    ensures reply.Err? ==> r == current
    ensures reply.Ok? && reply.value.None? ==> r == []
    ensures reply.Ok? && reply.value.Some? ==> r == reply.value.value
  {
    match reply
    case Err => current
    case Ok(data) => data.GetOr([])
  }
}

/** Optional values and the JavaScript `||` fallback on optional strings. */
module Wrappers {

  datatype Option<+T> = None | Some(value: T) {
    function GetOr(default: T): T {
      match this
      case Some(v) => v
      case None => default
    }
  }

  /** JavaScript truthiness of a `string | undefined`: present and non-empty. */
  predicate Truthy(s: Option<string>) {
    s.Some? && s.value != ""
  }

  /** `a || b` on two `string | undefined` values: `a` when truthy, otherwise `b` as it is. */
  function Or(a: Option<string>, b: Option<string>): (r: Option<string>)
    ensures Truthy(r) <==> Truthy(a) || Truthy(b)
    ensures Truthy(a) ==> r == a
    ensures !Truthy(a) ==> r == b
  {
    if Truthy(a) then a else b
  }

  /** `s || d` with a non-empty literal `d`: the string when truthy, otherwise `d`. */
  function OrElse(s: Option<string>, d: string): (r: string)
    ensures Truthy(s) ==> r == s.value
    ensures !Truthy(s) ==> r == d
    ensures d != "" ==> r != ""
  {
    if Truthy(s) then s.value else d
  }

  /** `s || ''`: the string when truthy, otherwise the empty string. */
  function OrEmpty(s: Option<string>): (r: string)
    ensures r != "" <==> Truthy(s)
    ensures r != "" ==> s == Some(r)
  {
    if Truthy(s) then s.value else ""
  }

  /** `list?.[0]?.name`: the first element of an optional list of names. */
  function FirstName(names: seq<string>): (r: Option<string>)
    ensures Truthy(r) <==> |names| > 0 && names[0] != ""
  {
    if |names| > 0 then Some(names[0]) else None
  }
}

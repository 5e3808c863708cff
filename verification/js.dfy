/** JavaScript values the core passes around that may be missing or falsy. */
module Js {

  /** An optional argument or an optional key of a JSON descriptor:
      `None` stands for `undefined` / `null`. */
  datatype Option<+T> = None | Some(value: T)

  /** A string is truthy in JavaScript exactly when it is present and not empty. */
  predicate Truthy(s: Option<string>) {
    s.Some? && s.value != ""
  }

  /** JavaScript `s || fallback` for an optional string. */
  function StringOr(s: Option<string>, fallback: string): (r: string)
    ensures Truthy(s) ==> r == s.value
    ensures !Truthy(s) ==> r == fallback
  {
    if Truthy(s) then s.value else fallback
  }

  /** JavaScript `b || false` for an optional boolean: true only for a present `true`. */
  function BoolOrFalse(b: Option<bool>): (r: bool)
    ensures r <==> b == Some(true)
  {
    b.Some? && b.value
  }

  /** The value of `key` in a JSON descriptor, `None` when the key is absent. */
  function Lookup(options: map<string, string>, key: string): (r: Option<string>)
    ensures r.Some? <==> key in options
    ensures r.Some? ==> r.value == options[key]
  {
    if key in options then Some(options[key]) else None
  }
}

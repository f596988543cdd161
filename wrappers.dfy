/** Optional values, and the truthiness JavaScript gives to an optional string. */
module Wrappers {

  datatype Option<+T> = None | Some(value: T)

  /** `if (s)` in JavaScript: false for `null`/`undefined` and for the empty string. */
  predicate Truthy(s: Option<string>) {
    s.Some? && s.value != ""
  }

  /** `s || fallback` for an optional string. */
  function OrElse(s: Option<string>, fallback: string): (r: string)
    ensures Truthy(s) ==> r == s.value
    ensures !Truthy(s) ==> r == fallback
  {
    if Truthy(s) then s.value else fallback
  }

  /** `store.getItem(key)`: the stored string, or `null` when the key is absent. */
  function Lookup(items: map<string, string>, key: string): (r: Option<string>)
    ensures r.Some? <==> key in items
    ensures r.Some? ==> r.value == items[key]
  {
    if key in items then Some(items[key]) else None
  }
}

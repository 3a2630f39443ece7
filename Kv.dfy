/**
 * The Workers KV namespace bound as `env.MY_KV`: one mutable map from
 * string keys to string values, shared by every handler, with `get`
 * (a missing key reads as `null`) and `put`.
 */
module Kv {
  import opened Wrappers

  /** `await env.MY_KV.get(key)` as a value. */
  function Lookup(kv: map<string, string>, key: string): (v: Option<string>)
    ensures v.Some? <==> key in kv
    ensures v.Some? ==> v.value == kv[key]
  {
    if key in kv then Some(kv[key]) else None
  }

  /** JavaScript truthiness of a string-or-null: `null` and `""` are falsy. */
  predicate Truthy(v: Option<string>)
    ensures Truthy(v) <==> v.Some? && |v.value| > 0
  {
    v.Some? && v.value != ""
  }

  /** `v || fallback` for a string-or-null `v`. */
  function OrElse(v: Option<string>, fallback: string): (r: string)
    ensures Truthy(v) ==> r == v.value
    ensures !Truthy(v) ==> r == fallback
  {
    if Truthy(v) then v.value else fallback
  }

  class Store {
    var kv: map<string, string>

    constructor (initial: map<string, string>)
      ensures kv == initial
    {
      kv := initial;
    }

    method Get(key: string) returns (v: Option<string>)
      ensures v == Lookup(kv, key)
    {
      v := if key in kv then Some(kv[key]) else None;
    }

    method Put(key: string, value: string)
      modifies this
      ensures kv == old(kv)[key := value]
    {
      kv := kv[key := value];
    }
  }
}

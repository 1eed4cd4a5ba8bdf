/**
 * The part of `android.os.Bundle` the track resolver reads: a mutable,
 * string-keyed map whose values may be strings, nested bundles or anything
 * else. Bundles are objects, so two tracks may share one and identity matters.
 */
module Bundles {
  import opened Options

  /** A bundle value: a string, a nested bundle, or a value of any other type. */
  datatype Value = Str(text: string) | Nested(bundle: Bundle) | OtherValue

  class Bundle {
    var entries: map<string, Value>

    constructor (entries: map<string, Value>)
      ensures this.entries == entries
    {
      this.entries := entries;
    }

    /** `getString(key)`: null when the key is absent or holds another type. */
    function GetString(key: string): (r: Option<string>)
      reads this
      ensures r.Some? <==> key in entries && entries[key].Str?
      ensures r.Some? ==> entries[key] == Str(r.value)
    {
      if key in entries && entries[key].Str? then Some(entries[key].text) else None
    }

    /** `getString(key, defaultValue)`: the default replaces a null result. */
    function GetStringOr(key: string, defaultValue: string): (r: string)
      reads this
      ensures GetString(key).None? ==> r == defaultValue
      ensures GetString(key).Some? ==> r == GetString(key).value
    {
      match GetString(key)
      case Some(s) => s
      case None => defaultValue
    }

    /** `getBundle(key)`: null when the key is absent or holds another type. */
    function GetBundle(key: string): (r: Option<Bundle>)
      reads this
      ensures r.Some? <==> key in entries && entries[key].Nested?
      ensures r.Some? ==> entries[key] == Nested(r.value)
    {
      if key in entries && entries[key].Nested? then Some(entries[key].bundle) else None
    }

    /** `putAll(other)`: every mapping of `other` is copied in, overriding equal keys. */
    method PutAll(other: Bundle)
      modifies this
      ensures entries.Keys == old(entries.Keys) + old(other.entries.Keys)
      ensures forall k :: k in old(other.entries) ==> entries[k] == old(other.entries[k])
      ensures forall k :: k in old(entries) && k !in old(other.entries) ==> entries[k] == old(entries[k])
    {
      entries := entries + other.entries;
    }
  }
}

/** The dictionary look-up helpers the core adds to `IDictionary`. */
module Polyfills {
  import opened Wrappers

  /** The value stored under `key`, or `defaultValue` when there is none. */
  function GetValueOrDefault<K, V>(dictionary: map<K, V>, key: K, defaultValue: V): (r: V)
    ensures key in dictionary ==> r == dictionary[key]
    ensures key !in dictionary ==> r == defaultValue
  {
    if key in dictionary then dictionary[key] else defaultValue
  }

  /** The one-argument overload: the default of a nullable value type is `null`. */
  function GetValueOrNull<K, V>(dictionary: map<K, Option<V>>, key: K): (r: Option<V>)
    ensures r.Some? <==> key in dictionary && dictionary[key].Some?
    ensures r.Some? ==> r == dictionary[key]
  {
    GetValueOrDefault(dictionary, key, None)
  }
}

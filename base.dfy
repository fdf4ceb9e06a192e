/** Small shared vocabulary: optional values, results with an error side,
    and the "whole collection or one key" projection that the helpers use. */
module Base {

  datatype Option<T> = None | Some(value: T)

  datatype Result<T, E> = Ok(value: T) | Err(error: E)

  /** PHP truthiness of a string used as a key: the empty string and "0" are
      falsy, every other string is truthy. */
  predicate Falsy(key: string)
  {
    key == "" || key == "0"
  }

  /** What `$key ? $collection->get($key, $default) : $collection` yields:
      either the whole collection or the value under one key. */
  datatype Projection<V> = Whole(all: map<string, V>) | Field(item: V)

  /** The key/default projection: a falsy key asks for the whole map; a truthy
      key asks for its value, or for the default when the key is absent. */
  function Project<V>(m: map<string, V>, key: string, default: V): (r: Projection<V>)
    ensures r.Whole? <==> Falsy(key)
    ensures r.Whole? ==> r.all == m
    ensures r.Field? && key in m ==> r.item == m[key]
    ensures r.Field? && key !in m ==> r.item == default
  {
    if Falsy(key) then Whole(m) else Field(if key in m then m[key] else default)
  }
}

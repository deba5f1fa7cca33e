/**
  A model of Angular's immutable `HttpParams`, the parameter container the
  façade fills for non-GET requests and serialises for cache keys: an
  insertion-ordered list of key/value pairs. `set` replaces the value of a key
  where it stands (or appends a new key), `delete` drops a key, `toString`
  joins `key=value` pairs with `&` through the container's codec.
*/
module AngularHttp {
  import opened Wrappers

  datatype Param = Param(key: string, value: string)

  type HttpParams = seq<Param>

  /** The value stored for `key`, if any. */
  function Get(p: HttpParams, key: string): Option<string>
  {
    if p == [] then None
    else if p[0].key == key then Some(p[0].value)
    else Get(p[1..], key)
  }

  /** `params.set(key, value)`: afterwards `key` holds `value` and every other key is untouched. */
  function Set(p: HttpParams, key: string, value: string): (r: HttpParams)
    ensures Get(r, key) == Some(value)
    ensures forall k :: k != key ==> Get(r, k) == Get(p, k)
    ensures |r| == |p| || |r| == |p| + 1
  {
    if p == [] then [Param(key, value)]
    else if p[0].key == key then [Param(key, value)] + p[1..]
    else [p[0]] + Set(p[1..], key, value)
  }

  /** `params.delete(key)`: afterwards `key` is absent and every other key is untouched. */
  function Delete(p: HttpParams, key: string): (r: HttpParams)
    ensures Get(r, key) == None
    ensures forall k :: k != key ==> Get(r, k) == Get(p, k)
    ensures |r| <= |p|
  {
    if p == [] then []
    else if p[0].key == key then Delete(p[1..], key)
    else [p[0]] + Delete(p[1..], key)
  }

  /** Deletes each key of `keys` in turn, each time from the result of the previous deletion. */
  function DeleteAll(p: HttpParams, keys: seq<string>): (r: HttpParams)
    ensures |r| <= |p|
  {
    if keys == [] then p else Delete(DeleteAll(p, keys[..|keys| - 1]), keys[|keys| - 1])
  }

  /** `params.toString()`: `key=value` pairs in order, joined by `&`, each part put through `encode`. */
  function Serialize(p: HttpParams, encode: string -> string): (s: string)
    ensures s == "" <==> p == []
  {
    if p == [] then ""
    else
      var pair := encode(p[0].key) + "=" + encode(p[0].value);
      assert pair[|encode(p[0].key)|] == '=';
      if |p| == 1 then pair else pair + "&" + Serialize(p[1..], encode)
  }

  /** After deleting a list of keys, those keys are absent and all others keep their values. */
  lemma {:induction false} DeleteAllLookup(p: HttpParams, keys: seq<string>, k: string)
    ensures Get(DeleteAll(p, keys), k) == if k in keys then None else Get(p, k)
    decreases |keys|
  {
    if keys != [] {
      var init := keys[..|keys| - 1];
      DeleteAllLookup(p, init, k);
      assert keys == init + [keys[|keys| - 1]];
    }
  }
}

/** HTTP header maps and parsed query strings, as net/http and net/url present them. */
module Headers {
  import opened Errors

  /** `http.Header`: every key maps to its values in the order they were added.
      Keys are taken to be in canonical form already. */
  type Header = map<string, seq<string>>

  /** The values stored under `key`, empty when the key is absent. */
  function Values(h: Header, key: string): seq<string>
  {
    if key in h then h[key] else []
  }

  /** `Header.Get`: the first value under `key`, or "" when there is none. */
  function Get(h: Header, key: string): (v: string)
    ensures key !in h ==> v == ""
    ensures key in h && h[key] != [] ==> v == h[key][0]
    ensures key in h && h[key] == [] ==> v == ""
  {
    if Values(h, key) != [] then Values(h, key)[0] else ""
  }

  /** `Header.Add`: appends `value` to the values of `key`; every other key keeps its values. */
  function Add(h: Header, key: string, value: string): (r: Header)
    ensures r.Keys == h.Keys + {key}
    ensures Values(r, key) == Values(h, key) + [value]
    ensures forall k :: k != key ==> Values(r, k) == Values(h, k)
  {
    h[key := Values(h, key) + [value]]
  }

  /** `Header.Set`: replaces all values of `key` by the single `value`; every other key keeps its values. */
  function Set(h: Header, key: string, value: string): (r: Header)
    ensures r.Keys == h.Keys + {key}
    ensures Values(r, key) == [value]
    ensures forall k :: k != key ==> Values(r, k) == Values(h, k)
  {
    h[key := [value]]
  }

  /** Adding never drops or reorders a value: what was there before is a prefix of what is there after. */
  lemma AddKeepsValues(h: Header, key: string, value: string, k: string)
    ensures Values(h, k) <= Values(Add(h, key, value), k)
    ensures Get(h, k) != "" ==> Get(Add(h, key, value), k) == Get(h, k)
  {
  }

  /** After `Set`, `Get` reads back exactly the value set, whatever was there before. */
  lemma GetAfterSet(h: Header, key: string, value: string)
    ensures Get(Set(h, key, value), key) == value
  {
  }

  /** `url.Values` as parsed from a raw query: the (key, value) pairs in the order they appear. */
  type Query = seq<(string, string)>

  /** `url.Values[key][0]`: the value of the first pair whose key is `key`, if there is one. */
  function First(q: Query, key: string): (r: Option<string>)
    ensures r.None? <==> forall i :: 0 <= i < |q| ==> q[i].0 != key
    ensures r.Some? ==> exists i :: 0 <= i < |q| && q[i] == (key, r.value) && forall j :: 0 <= j < i ==> q[j].0 != key
  {
    if q == [] then None
    else if q[0].0 == key then Some(q[0].1)
    else
      var r := First(q[1..], key);
      assert r.Some? ==> exists i :: 0 <= i < |q[1..]| && q[1..][i] == (key, r.value) && forall j :: 0 <= j < i ==> q[1..][j].0 != key;
      if r.Some? then
        var i :| 0 <= i < |q[1..]| && q[1..][i] == (key, r.value) && forall j :: 0 <= j < i ==> q[1..][j].0 != key;
        assert q[i + 1] == (key, r.value);
        r
      else r
  }
}

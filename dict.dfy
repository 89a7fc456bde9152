/**
 * A Python `dict` with string keys, as the sequence of its key/value pairs in insertion order:
 * `d[k] = v` overwrites the value of an existing key in place and appends a
 * new key at the end, and `json.dumps(d, sort_keys=False)` lists the pairs in
 * that order.
 */
module Dict {
  import opened Wrappers

  /** The keys of `d`, in insertion order. */
  function Keys<V>(d: seq<(string, V)>): (ks: seq<string>)
    ensures |ks| == |d|
  {
    seq(|d|, i requires 0 <= i < |d| => d[i].0)
  }

  /** The keys of a non-empty dict: its first key, then the keys of the rest. */
  lemma KeysCons<V>(d: seq<(string, V)>)
    requires d != []
    ensures Keys(d) == [d[0].0] + Keys(d[1..])
  {
  }

  /** No key occurs twice. */
  predicate Distinct(ks: seq<string>)
  {
    forall i, j :: 0 <= i < j < |ks| ==> ks[i] != ks[j]
  }

  /** `d.get(k)`: the value stored under `k`, if any. */
  function Get<V>(d: seq<(string, V)>, k: string): (r: Option<V>)
    ensures r.Some? <==> k in Keys(d)
  {
    if d == [] then None
    else
      KeysCons(d);
      if d[0].0 == k then Some(d[0].1)
    else Get(d[1..], k)
  }

  /** `d[k] = v`. */
  function Set<V>(d: seq<(string, V)>, k: string, v: V): (r: seq<(string, V)>)
    ensures Get(r, k) == Some(v)
    ensures forall k' :: k' != k ==> Get(r, k') == Get(d, k')
    ensures k in Keys(d) ==> Keys(r) == Keys(d)
    ensures k !in Keys(d) ==> Keys(r) == Keys(d) + [k] && r == d + [(k, v)]
    ensures Distinct(Keys(d)) ==> Distinct(Keys(r))
  {
    if d == [] then [(k, v)]
    else
      KeysCons(d);
      if d[0].0 == k then
        var r := [(k, v)] + d[1..];
        KeysCons(r);
        assert r[1..] == d[1..];
        r
      else
        var r := [d[0]] + Set(d[1..], k, v);
        KeysCons(r);
        assert r[1..] == Set(d[1..], k, v);
        r
  }
}

/**
  Python dictionaries keyed by strings. A Python dict remembers insertion order,
  and the source depends on it (`next(iter(...))`, `zip(d.keys(), ...)`,
  `d.values()`), so a dictionary is a sequence of (key, value) entries with
  pairwise distinct keys.
*/
module Dicts {
  import opened Wrappers

  function Keys<V>(d: seq<(string, V)>): (ks: seq<string>)
    ensures |ks| == |d|
    ensures forall i :: 0 <= i < |d| ==> ks[i] == d[i].0
  {
    seq(|d|, i requires 0 <= i < |d| => d[i].0)
  }

  function Values<V>(d: seq<(string, V)>): (vs: seq<V>)
    ensures |vs| == |d|
    ensures forall i :: 0 <= i < |d| ==> vs[i] == d[i].1
  {
    seq(|d|, i requires 0 <= i < |d| => d[i].1)
  }

  predicate Distinct(s: seq<string>) {
    forall i, j :: 0 <= i < j < |s| ==> s[i] != s[j]
  }

  /** An insertion-ordered dictionary: no key occurs twice. */
  type Dict<V> = d: seq<(string, V)> | Distinct(Keys(d)) witness []

  /** Position of key `k` in `d`. */
  function IndexOf<V>(d: Dict<V>, k: string): (i: nat)
    requires k in Keys(d)
    ensures i < |d| && d[i].0 == k
    ensures forall j :: 0 <= j < |d| && d[j].0 == k ==> j == i
  {
    if d[0].0 == k then 0
    else
      assert Keys(d[1..]) == Keys(d)[1..];
      1 + IndexOf(d[1..], k)
  }

  /** `d[k]` for a key that is present, `None` where Python raises `KeyError`. */
  function Get<V>(d: Dict<V>, k: string): (r: Option<V>)
    ensures r.Some? <==> k in Keys(d)
    ensures r.Some? ==> exists i :: 0 <= i < |d| && d[i] == (k, r.value)
  {
    if k in Keys(d) then Some(d[IndexOf(d, k)].1) else None
  }

  /**
    The assignment `d[k] = v`: an existing key keeps its position and gets the
    new value; a new key is appended at the end.
  */
  function Put<V>(d: Dict<V>, k: string, v: V): (r: Dict<V>)
    ensures k in Keys(d) ==> r == d[IndexOf(d, k) := (k, v)] && Keys(r) == Keys(d)
    ensures k !in Keys(d) ==> r == d + [(k, v)]
    ensures Get(r, k) == Some(v)
    ensures forall k' :: k' != k ==> Get(r, k') == Get(d, k')
  {
    if k in Keys(d) then
      var i := IndexOf(d, k);
      var r := d[i := (k, v)];
      assert Keys(r) == Keys(d);
      assert forall k' :: k' != k ==> (k' in Keys(r) <==> k' in Keys(d));
      assert forall k' :: k' != k && k' in Keys(d) ==> IndexOf(r, k') == IndexOf(d, k');
      r
    else
      var r := d + [(k, v)];
      assert Keys(r) == Keys(d) + [k];
      assert forall k' :: k' != k && k' in Keys(d) ==> IndexOf(r, k') == IndexOf(d, k');
      r
  }

  /** The key occurring at position `i` is found at position `i`. */
  lemma {:induction false} IndexOfAt<V>(d: Dict<V>, i: nat)
    requires i < |d|
    ensures d[i].0 in Keys(d) && IndexOf(d, d[i].0) == i && Get(d, d[i].0) == Some(d[i].1)
  {
    assert Keys(d)[i] == d[i].0;
  }

  /**
    The dictionary built by assigning `f(k, v)` to each key `k` of `d`, in the
    order of `d`: `{k: f(k, v) for k, v in d.items()}`.
  */
  function MapEntries<V, W>(d: seq<(string, V)>, f: (string, V) -> W): (r: seq<(string, W)>)
    ensures |r| == |d| && Keys(r) == Keys(d)
    ensures forall i :: 0 <= i < |d| ==> r[i] == (d[i].0, f(d[i].0, d[i].1))
  {
    seq(|d|, i requires 0 <= i < |d| => (d[i].0, f(d[i].0, d[i].1)))
  }

  /** Looking a key up in a mapped dictionary looks it up in the original. */
  lemma GetMapEntries<V, W>(d: Dict<V>, f: (string, V) -> W, k: string)
    ensures Distinct(Keys(MapEntries(d, f)))
    ensures Get(MapEntries(d, f), k) == if k in Keys(d) then Some(f(k, Get(d, k).value)) else None
  {
    var r: Dict<W> := MapEntries(d, f);
    if k in Keys(d) {
      var i := IndexOf(d, k);
      IndexOfAt(r, i);
    }
  }
}

/** A JSON object as Python loads it: a dictionary with string keys that remembers the
    order in which keys were first inserted. Assigning to an existing key keeps its
    place; assigning to a new key appends it; deleting a key removes it. */
module OrderedDict {
  import opened Text

  type Dict<V> = seq<(string, V)>

  /** A JSON file holding an object: absent, present but not loadable, or stored. */
  datatype JsonFile<V> = Missing | Unreadable | Stored(data: Dict<V>)

  /** The `load_*` helpers: the stored object, or `{}` when the file is missing or does
      not load. */
  function LoadObject<V>(f: JsonFile<V>): (r: Dict<V>)
    ensures f.Stored? ==> r == f.data
    ensures !f.Stored? ==> r == []
  {
    if f.Stored? then f.data else []
  }

  predicate DistinctKeys<V>(d: Dict<V>) {
    forall i, j :: 0 <= i < j < |d| ==> d[i].0 != d[j].0
  }

  /** `list(d.keys())` */
  function Keys<V>(d: Dict<V>): (r: seq<string>)
    ensures |r| == |d| && forall i :: 0 <= i < |d| ==> r[i] == d[i].0
  {
    seq(|d|, i requires 0 <= i < |d| => d[i].0)
  }

  /** `d.get(k)` */
  function Get<V(==)>(d: Dict<V>, k: string): (r: Option<V>)
    ensures r.None? <==> k !in Keys(d)
    ensures r.Some? ==> exists i :: 0 <= i < |d| && d[i] == (k, r.value)
  {
    if d == [] then None
    else if d[0].0 == k then Some(d[0].1)
    else
      var r := Get(d[1..], k);
      assert Keys(d) == [d[0].0] + Keys(d[1..]);
      if r.Some? then
        var i :| 0 <= i < |d[1..]| && d[1..][i] == (k, r.value);
        assert d[i + 1] == (k, r.value);
        r
      else r
  }

  /** With distinct keys, the entry at any position is what its key reads. */
  lemma GetAt<V>(d: Dict<V>, i: nat)
    requires DistinctKeys(d) && i < |d|
    ensures Get(d, d[i].0) == Some(d[i].1)
  {
    assert d[i].0 in Keys(d) by { assert Keys(d)[i] == d[i].0; }
    var v := Get(d, d[i].0).value;
    var j :| 0 <= j < |d| && d[j] == (d[i].0, v);
  }

  /** `d[k] = v` */
  function Put<V>(d: Dict<V>, k: string, v: V): (r: Dict<V>)
    ensures k in Keys(d) ==> Keys(r) == Keys(d)
    ensures k !in Keys(d) ==> Keys(r) == Keys(d) + [k]
  {
    if d == [] then [(k, v)]
    else if d[0].0 == k then
      assert k in Keys(d);
      [(k, v)] + d[1..]
    else
      var rest := Put(d[1..], k, v);
      assert Keys(d) == [d[0].0] + Keys(d[1..]);
      assert Keys([d[0]] + rest) == [d[0].0] + Keys(rest);
      assert k in Keys(d) <==> k in Keys(d[1..]);
      [d[0]] + rest
  }

  /** `del d[k]`, keeping the other entries in order. */
  function Remove<V>(d: Dict<V>, k: string): (r: Dict<V>)
    ensures |r| <= |d|
    ensures forall i :: 0 <= i < |r| ==> r[i].0 != k
  {
    if d == [] then []
    else if d[0].0 == k then Remove(d[1..], k)
    else [d[0]] + Remove(d[1..], k)
  }

  /** After `d[k] = v`, reading `k` gives `v`. */
  lemma {:induction false} GetPutSame<V>(d: Dict<V>, k: string, v: V)
    ensures Get(Put(d, k, v), k) == Some(v)
  {
    if d != [] && d[0].0 != k {
      GetPutSame(d[1..], k, v);
    }
  }

  /** After `d[k] = v`, every other key reads as before. */
  lemma {:induction false} GetPutOther<V>(d: Dict<V>, k: string, v: V, other: string)
    requires other != k
    ensures Get(Put(d, k, v), other) == Get(d, other)
  {
    if d != [] && d[0].0 != k {
      GetPutOther(d[1..], k, v, other);
    }
  }

  /** Assignment keeps the keys distinct. */
  lemma {:induction false} PutDistinct<V>(d: Dict<V>, k: string, v: V)
    requires DistinctKeys(d)
    ensures DistinctKeys(Put(d, k, v))
  {
    var r := Put(d, k, v);
    forall i, j | 0 <= i < j < |r| ensures r[i].0 != r[j].0 {
      assert Keys(r)[i] == r[i].0 && Keys(r)[j] == r[j].0;
      if k in Keys(d) {
        assert Keys(d)[i] == d[i].0 && Keys(d)[j] == d[j].0;
      } else if j < |d| {
        assert Keys(d)[i] == d[i].0 && Keys(d)[j] == d[j].0;
      } else {
        assert Keys(d)[i] == d[i].0;
      }
    }
  }

  /** Deletion removes exactly the key: it no longer reads, and every other key reads as before. */
  lemma {:induction false} GetRemove<V>(d: Dict<V>, k: string, other: string)
    ensures Get(Remove(d, k), k) == None
    ensures other != k ==> Get(Remove(d, k), other) == Get(d, other)
  {
    if d != [] {
      GetRemove(d[1..], k, other);
    }
  }

  /** Deletion keeps the remaining entries in their order, so keys stay distinct. */
  lemma {:induction false} RemoveDistinct<V>(d: Dict<V>, k: string)
    requires DistinctKeys(d)
    ensures DistinctKeys(Remove(d, k))
    ensures forall i :: 0 <= i < |Remove(d, k)| ==> Remove(d, k)[i] in d
  {
    if d != [] {
      RemoveDistinct(d[1..], k);
      var rest := Remove(d[1..], k);
      if d[0].0 != k {
        var r := [d[0]] + rest;
        forall j | 0 < j < |r| ensures r[0].0 != r[j].0 {
          assert r[j] == rest[j - 1] && rest[j - 1] in d[1..];
        }
      }
    }
  }
}

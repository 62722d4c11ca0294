/** JSON-compatible values and the flat records (Python dicts) built from them.
    A Python dict keeps its keys in insertion order, so an object is a sequence
    of (key, value) pairs rather than a map. */
module Json {

  datatype Option<+T> = None | Some(value: T)

  /** A value `json.loads` can produce and `json.dump` can write.  Numbers are
      kept apart as Python keeps them: `int` for integer literals, `float` for
      the others (whose textual literal is kept, since floating point is not
      modelled). */
  datatype Json =
    | JNull
    | JBool(b: bool)
    | JInt(n: int)
    | JFloat(literal: string)
    | JString(s: string)
    | JArray(items: seq<Json>)
    | JObject(fields: seq<(string, Json)>)

  type Fields = seq<(string, Json)>

  /** The keys of a record, in insertion order. */
  function Keys<K, V>(fs: seq<(K, V)>): (ks: seq<K>)
    ensures |ks| == |fs|
    ensures forall i :: 0 <= i < |fs| ==> ks[i] == fs[i].0
  {
    seq(|fs|, i requires 0 <= i < |fs| => fs[i].0)
  }

  /** A Python dict: no key occurs twice. */
  predicate DistinctKeys<K(==), V>(fs: seq<(K, V)>)
  {
    forall i, j :: 0 <= i < j < |fs| ==> fs[i].0 != fs[j].0
  }

  /** `d.get(k)` as an option: `None` when `k` is absent, `Some(v)` when `k`
      is stored with `v` (Python's `None` covers both `None` and `Some(JNull)`).
      On a sequence with repeated keys the last one wins, as `json.loads`
      resolves a document that repeats a key; the records of this model never
      repeat one. */
  function Get(fs: Fields, k: string): (r: Option<Json>)
    ensures r.None? <==> k !in Keys(fs)
    ensures r.Some? ==> (k, r.value) in fs
  {
    if fs == [] then None
    else if fs[|fs| - 1].0 == k then Some(fs[|fs| - 1].1)
    else
      var r := Get(fs[..|fs| - 1], k);
      assert Keys(fs) == Keys(fs[..|fs| - 1]) + [fs[|fs| - 1].0];
      r
  }

  /** `d.get(k, default)`. */
  function GetOr(fs: Fields, k: string, default: Json): (r: Json)
    ensures k !in Keys(fs) ==> r == default
    ensures k in Keys(fs) ==> (k, r) in fs
  {
    match Get(fs, k)
    case Some(v) => v
    case None => default
  }

  /** In a dict, a stored pair is what a lookup of its key returns. */
  lemma {:induction false} GetMember(fs: Fields, k: string, v: Json)
    requires DistinctKeys(fs)
    requires (k, v) in fs
    ensures Get(fs, k) == Some(v)
  {
    var n := |fs| - 1;
    if fs[n].0 != k {
      var i :| 0 <= i < |fs| && fs[i] == (k, v);
      assert i < n;
      assert fs[..n][i] == (k, v);
      GetMember(fs[..n], k, v);
    }
  }

  /** `d[k] = v`: a key already present keeps its place and takes the new
      value; a new key goes at the end.  (A dict never holds a key twice, so
      rewriting every slot that holds `k` rewrites the one slot.) */
  function Assign<K(==), V(==)>(fs: seq<(K, V)>, k: K, v: V): (r: seq<(K, V)>)
    ensures k !in Keys(fs) ==> r == fs + [(k, v)]
    ensures k in Keys(fs) ==> Keys(r) == Keys(fs)
  {
    if k in Keys(fs) then
      seq(|fs|, i requires 0 <= i < |fs| => if fs[i].0 == k then (k, v) else fs[i])
    else
      fs + [(k, v)]
  }

  /** After `d[k] = v` the dict is still a dict, `d[k]` is `v`, and every
      other entry is untouched. */
  lemma AssignLookup(fs: Fields, k: string, v: Json)
    requires DistinctKeys(fs)
    ensures DistinctKeys(Assign(fs, k, v))
    ensures Get(Assign(fs, k, v), k) == Some(v)
    ensures forall k' :: k' != k ==> Get(Assign(fs, k, v), k') == Get(fs, k')
  {
    var r := Assign(fs, k, v);
    if k in Keys(fs) {
      var i :| 0 <= i < |fs| && fs[i].0 == k;
      assert r[i] == (k, v);
      GetMember(r, k, v);
      forall k' | k' != k
        ensures Get(r, k') == Get(fs, k')
      {
        if k' in Keys(fs) {
          var j :| 0 <= j < |fs| && fs[j].0 == k';
          assert r[j] == fs[j];
          GetMember(fs, k', fs[j].1);
          GetMember(r, k', fs[j].1);
        } else {
          assert k' !in Keys(r);
        }
      }
    } else {
      assert r[|fs|] == (k, v);
      GetMember(r, k, v);
      forall k' | k' != k
        ensures Get(r, k') == Get(fs, k')
      {
        assert r[..|fs|] == fs;
      }
    }
  }

  /** A key just stored at the end is found with its value. */
  lemma GetAppended(fs: Fields, k: string, v: Json)
    ensures Get(fs + [(k, v)], k) == Some(v)
  {
  }

  /** A pair stored at the end does not change the lookup of any other key. */
  lemma GetPastAppended(fs: Fields, k: string, v: Json, other: string)
    requires other != k
    ensures Get(fs + [(k, v)], other) == Get(fs, other)
  {
    assert (fs + [(k, v)])[..|fs|] == fs;
  }

  /** A record literal with five distinct keys: its keys in order, and what
      each lookup returns. */
  lemma FiveFields(k0: string, k1: string, k2: string, k3: string, k4: string,
                   v0: Json, v1: Json, v2: Json, v3: Json, v4: Json)
    requires k0 != k1 && k0 != k2 && k0 != k3 && k0 != k4
    requires k1 != k2 && k1 != k3 && k1 != k4
    requires k2 != k3 && k2 != k4 && k3 != k4
    ensures var fs := [(k0, v0), (k1, v1), (k2, v2), (k3, v3), (k4, v4)];
      Keys(fs) == [k0, k1, k2, k3, k4] &&
      Get(fs, k0) == Some(v0) && Get(fs, k1) == Some(v1) && Get(fs, k2) == Some(v2) &&
      Get(fs, k3) == Some(v3) && Get(fs, k4) == Some(v4)
  {
    var f0: Fields := [];
    var f1 := f0 + [(k0, v0)];
    var f2 := f1 + [(k1, v1)];
    var f3 := f2 + [(k2, v2)];
    var f4 := f3 + [(k3, v3)];
    var f5 := f4 + [(k4, v4)];
    assert f5 == [(k0, v0), (k1, v1), (k2, v2), (k3, v3), (k4, v4)];
    assert Keys(f5) == [k0, k1, k2, k3, k4];
    GetAppended(f4, k4, v4);
    GetAppended(f3, k3, v3);
    GetPastAppended(f4, k4, v4, k3);
    GetAppended(f2, k2, v2);
    GetPastAppended(f3, k3, v3, k2);
    GetPastAppended(f4, k4, v4, k2);
    GetAppended(f1, k1, v1);
    GetPastAppended(f2, k2, v2, k1);
    GetPastAppended(f3, k3, v3, k1);
    GetPastAppended(f4, k4, v4, k1);
    GetAppended(f0, k0, v0);
    GetPastAppended(f1, k1, v1, k0);
    GetPastAppended(f2, k2, v2, k0);
    GetPastAppended(f3, k3, v3, k0);
    GetPastAppended(f4, k4, v4, k0);
  }

  /** A record literal with five distinct keys is a dict with those keys, in
      order. */
  lemma FiveKeys(k0: string, k1: string, k2: string, k3: string, k4: string,
                 v0: Json, v1: Json, v2: Json, v3: Json, v4: Json)
    requires k0 != k1 && k0 != k2 && k0 != k3 && k0 != k4
    requires k1 != k2 && k1 != k3 && k1 != k4
    requires k2 != k3 && k2 != k4 && k3 != k4
    ensures var fs := [(k0, v0), (k1, v1), (k2, v2), (k3, v3), (k4, v4)];
      Keys(fs) == [k0, k1, k2, k3, k4] && DistinctKeys(fs)
  {
    var fs := [(k0, v0), (k1, v1), (k2, v2), (k3, v3), (k4, v4)];
    assert Keys(fs) == [k0, k1, k2, k3, k4];
  }

  /** A record literal with six distinct keys is a dict with those keys, in
      order. */
  lemma SixKeys(k0: string, k1: string, k2: string, k3: string, k4: string, k5: string,
                v0: Json, v1: Json, v2: Json, v3: Json, v4: Json, v5: Json)
    requires k0 != k1 && k0 != k2 && k0 != k3 && k0 != k4 && k0 != k5
    requires k1 != k2 && k1 != k3 && k1 != k4 && k1 != k5
    requires k2 != k3 && k2 != k4 && k2 != k5
    requires k3 != k4 && k3 != k5 && k4 != k5
    ensures var fs := [(k0, v0), (k1, v1), (k2, v2), (k3, v3), (k4, v4), (k5, v5)];
      Keys(fs) == [k0, k1, k2, k3, k4, k5] && DistinctKeys(fs)
  {
    var fs := [(k0, v0), (k1, v1), (k2, v2), (k3, v3), (k4, v4), (k5, v5)];
    assert Keys(fs) == [k0, k1, k2, k3, k4, k5];
  }
}

/** An insertion-ordered dictionary (Python's OrderedDict) as a sequence of
    key/value pairs. Assigning to a key that is already present keeps its
    position; a new key goes to the end. */
module OrderedMaps {
  import opened Wrappers

  function Keys<V>(m: seq<(string, V)>): (ks: seq<string>)
    ensures |ks| == |m|
    ensures forall i :: 0 <= i < |m| ==> ks[i] == m[i].0
  {
    seq(|m|, i requires 0 <= i < |m| => m[i].0)
  }

  /** Dictionary keys are unique. */
  ghost predicate UniqueKeys<V>(m: seq<(string, V)>) {
    forall i, j :: 0 <= i < j < |m| ==> m[i].0 != m[j].0
  }

  /** Position of key `k`, if present. */
  function Find<V>(m: seq<(string, V)>, k: string): (r: Option<nat>)
    ensures r.None? <==> k !in Keys(m)
    ensures r.Some? ==> r.value < |m| && m[r.value].0 == k
    ensures r.Some? ==> forall j :: 0 <= j < r.value ==> m[j].0 != k
  {
    if m == [] then None
    else if m[0].0 == k then Some(0)
    else
      match Find(m[1..], k)
      case None =>
        assert Keys(m) == [m[0].0] + Keys(m[1..]);
        None
      case Some(i) => Some(i + 1)
  }

  /** The first position holding `k` is what `Find` returns. */
  lemma FindFirst<V>(m: seq<(string, V)>, k: string, i: nat)
    requires i < |m| && m[i].0 == k
    requires forall j :: 0 <= j < i ==> m[j].0 != k
    ensures Find(m, k) == Some(i)
  {
    assert Keys(m)[i] == k;
  }

  /** `m.get(k)`. */
  function Get<V>(m: seq<(string, V)>, k: string): (r: Option<V>)
    ensures r.Some? <==> k in Keys(m)
  {
    match Find(m, k)
    case None => None
    case Some(i) => Some(m[i].1)
  }

  lemma GetAt<V>(m: seq<(string, V)>, i: nat)
    requires UniqueKeys(m) && i < |m|
    ensures Get(m, m[i].0) == Some(m[i].1)
  {
    FindFirst(m, m[i].0, i);
  }

  /** `m[k] = v`. */
  function Put<V>(m: seq<(string, V)>, k: string, v: V): (r: seq<(string, V)>)
    ensures Get(r, k) == Some(v)
    ensures forall k' :: k' != k ==> Get(r, k') == Get(m, k')
    ensures Keys(r) == if k in Keys(m) then Keys(m) else Keys(m) + [k]
    ensures UniqueKeys(m) ==> UniqueKeys(r)
  {
    match Find(m, k)
    case None =>
      var r := m + [(k, v)];
      assert Keys(r) == Keys(m) + [k];
      PutMissing(m, k, v);
      r
    case Some(i) =>
      var r := m[i := (k, v)];
      assert Keys(r) == Keys(m);
      PutPresent(m, k, v, i);
      r
  }

  lemma PutMissing<V>(m: seq<(string, V)>, k: string, v: V)
    requires k !in Keys(m)
    ensures Get(m + [(k, v)], k) == Some(v)
    ensures forall k' :: k' != k ==> Get(m + [(k, v)], k') == Get(m, k')
  {
    var r := m + [(k, v)];
    forall k' | k' != k ensures Get(r, k') == Get(m, k') {
      match Find(m, k')
      case None =>
        assert Keys(r) == Keys(m) + [k];
      case Some(i) =>
        FindFirst(r, k', i);
    }
    assert forall j :: 0 <= j < |m| ==> m[j].0 == Keys(m)[j];
    FindFirst(r, k, |m|);
  }

  lemma PutPresent<V>(m: seq<(string, V)>, k: string, v: V, i: nat)
    requires Find(m, k) == Some(i)
    ensures Get(m[i := (k, v)], k) == Some(v)
    ensures forall k' :: k' != k ==> Get(m[i := (k, v)], k') == Get(m, k')
  {
    var r := m[i := (k, v)];
    assert Keys(r) == Keys(m);
    FindFirst(r, k, i);
    forall k' | k' != k ensures Get(r, k') == Get(m, k') {
      match Find(m, k')
      case None =>
      case Some(p) =>
        FindFirst(r, k', p);
    }
  }

  /** Lookup of a list-valued dictionary, `[]` when the key is absent. */
  function GetList<V>(m: seq<(string, seq<V>)>, k: string): seq<V> {
    match Get(m, k)
    case None => []
    case Some(l) => l
  }

  /** `m[k].append(v)` when `k` is present, `m[k] = [v]` otherwise. */
  function AppendTo<V>(m: seq<(string, seq<V>)>, k: string, v: V): (r: seq<(string, seq<V>)>)
    ensures Get(r, k) == Some(GetList(m, k) + [v])
    ensures forall k' :: k' != k ==> Get(r, k') == Get(m, k')
    ensures Keys(r) == if k in Keys(m) then Keys(m) else Keys(m) + [k]
    ensures UniqueKeys(m) ==> UniqueKeys(r)
  {
    Put(m, k, GetList(m, k) + [v])
  }

  lemma GetListPut<V>(m: seq<(string, seq<V>)>, k: string, v: seq<V>, c: string)
    ensures GetList(Put(m, k, v), c) == if c == k then v else GetList(m, c)
  {
  }

  lemma GetListAppendTo<V>(m: seq<(string, seq<V>)>, k: string, v: V, c: string)
    ensures GetList(AppendTo(m, k, v), c) == GetList(m, c) + if c == k then [v] else []
  {
  }

  /** Appending under a new key adds one entry at the end. */
  lemma AppendToMissing<V>(m: seq<(string, seq<V>)>, k: string, v: V)
    requires k !in Keys(m)
    ensures AppendTo(m, k, v) == m + [(k, [v])]
  {
    assert Find(m, k).None? && GetList(m, k) + [v] == [v];
  }

  /** Appending under a present key extends its list in place. */
  lemma AppendToPresent<V>(m: seq<(string, seq<V>)>, k: string, v: V, i: nat)
    requires i < |m| && m[i].0 == k && forall j :: 0 <= j < i ==> m[j].0 != k
    ensures AppendTo(m, k, v) == m[i := (k, m[i].1 + [v])]
  {
    FindFirst(m, k, i);
  }

  lemma GetListSingle<V>(k: string, v: seq<V>)
    ensures k in Keys([(k, v)]) && GetList([(k, v)], k) == v
  {
    assert Keys([(k, v)])[0] == k;
    FindFirst([(k, v)], k, 0);
  }
}

/** Python's `dict` with string keys: an association list that remembers
    insertion order. Assigning to a present key replaces its value in place;
    assigning to a new key appends it at the end. */
module Dicts {
  import opened Wrappers

  datatype Entry<V> = Entry(key: string, value: V)

  type Dict<V> = seq<Entry<V>>

  /** `list(d.keys())`, in insertion order. */
  function Keys<V>(d: Dict<V>): (ks: seq<string>)
    ensures |ks| == |d|
    ensures forall i :: 0 <= i < |d| ==> ks[i] == d[i].key
    decreases |d|
  {
    if d == [] then [] else [d[0].key] + Keys(d[1..])
  }

  /** No key appears twice: every dict has this shape. */
  predicate DistinctKeys<V>(d: Dict<V>) {
    forall i, j :: 0 <= i < j < |d| ==> d[i].key != d[j].key
  }

  /** `d.get(k)` */
  function Get<V>(d: Dict<V>, k: string): (r: Option<V>)
    ensures r.None? <==> k !in Keys(d)
    decreases |d|
  {
    if d == [] then None
    else if d[0].key == k then Some(d[0].value)
    else Get(d[1..], k)
  }

  /** `d[k] = v` */
  function Put<V>(d: Dict<V>, k: string, v: V): (r: Dict<V>)
    ensures Keys(r) == if k in Keys(d) then Keys(d) else Keys(d) + [k]
    ensures Get(r, k) == Some(v)
    ensures forall k' :: k' != k ==> Get(r, k') == Get(d, k')
    decreases |d|
  {
    if d == [] then [Entry(k, v)]
    else if d[0].key == k then [Entry(k, v)] + d[1..]
    else [d[0]] + Put(d[1..], k, v)
  }

  /** Assigning never duplicates a key. */
  lemma PutDistinct<V>(d: Dict<V>, k: string, v: V)
    requires DistinctKeys(d)
    ensures DistinctKeys(Put(d, k, v))
  {
    var r := Put(d, k, v);
    forall i, j | 0 <= i < j < |r| ensures r[i].key != r[j].key {
      assert Keys(r)[i] == r[i].key && Keys(r)[j] == r[j].key;
      if k !in Keys(d) && j == |d| {
        assert r[i].key == Keys(d)[i];
      } else {
        assert Keys(d)[i] == d[i].key && Keys(d)[j] == d[j].key;
      }
    }
  }

  /** The dict built by `d = {}` followed by `d[k] = v` for each pair in order. */
  function FromPairs<V>(pairs: seq<Entry<V>>): (d: Dict<V>)
    ensures DistinctKeys(d)
    decreases |pairs|
  {
    if pairs == [] then []
    else
      var last := pairs[|pairs| - 1];
      PutDistinct(FromPairs(pairs[..|pairs| - 1]), last.key, last.value);
      Put(FromPairs(pairs[..|pairs| - 1]), last.key, last.value)
  }

  /** Assigning one more pair is `Put` on the dict built so far. */
  lemma FromPairsSnoc<V>(pairs: seq<Entry<V>>, e: Entry<V>)
    ensures FromPairs(pairs + [e]) == Put(FromPairs(pairs), e.key, e.value)
  {
    assert (pairs + [e])[..|pairs|] == pairs;
  }

  /** Some pair carries key `k`. */
  predicate Carries<V>(pairs: seq<Entry<V>>, k: string) {
    exists i :: 0 <= i < |pairs| && pairs[i].key == k
  }

  /** The last assignment only adds its own key, if it is new. */
  lemma FromPairsLastKey<V>(pairs: seq<Entry<V>>, k: string)
    requires pairs != []
    ensures k in Keys(FromPairs(pairs))
        <==> k in Keys(FromPairs(pairs[..|pairs| - 1])) || k == pairs[|pairs| - 1].key
  {
    var last := pairs[|pairs| - 1];
    assert FromPairs(pairs) == Put(FromPairs(pairs[..|pairs| - 1]), last.key, last.value);
  }

  /** A pair carries `k` when a shorter prefix does or the last pair does. */
  lemma CarriesSnoc<V>(pairs: seq<Entry<V>>, k: string)
    requires pairs != []
    ensures Carries(pairs, k) <==> Carries(pairs[..|pairs| - 1], k) || pairs[|pairs| - 1].key == k
  {
    var init := pairs[..|pairs| - 1];
    if Carries(pairs, k) {
      var i :| 0 <= i < |pairs| && pairs[i].key == k;
      if i < |init| {
        assert init[i].key == k;
      }
    }
    if Carries(init, k) {
      var i :| 0 <= i < |init| && init[i].key == k;
      assert pairs[i].key == k;
    }
  }

  /** The keys of the built dict are exactly the keys that occur among the pairs. */
  lemma {:induction false} FromPairsKeys<V>(pairs: seq<Entry<V>>, k: string)
    ensures k in Keys(FromPairs(pairs)) <==> Carries(pairs, k)
    decreases |pairs|
  {
    if pairs != [] {
      FromPairsKeys(pairs[..|pairs| - 1], k);
      FromPairsLastKey(pairs, k);
      CarriesSnoc(pairs, k);
    }
  }

  /** For a repeated key, the value of its last pair wins. */
  lemma {:induction false} FromPairsLastWins<V>(pairs: seq<Entry<V>>, i: nat)
    requires i < |pairs|
    requires forall j :: i < j < |pairs| ==> pairs[j].key != pairs[i].key
    ensures Get(FromPairs(pairs), pairs[i].key) == Some(pairs[i].value)
    decreases |pairs|
  {
    if i < |pairs| - 1 {
      var init := pairs[..|pairs| - 1];
      assert init[i] == pairs[i];
      FromPairsLastWins(init, i);
    }
  }

  /** A key that no pair carries is absent from the built dict. */
  lemma FromPairsAbsent<V>(pairs: seq<Entry<V>>, k: string)
    requires !Carries(pairs, k)
    ensures Get(FromPairs(pairs), k) == None
  {
    FromPairsKeys(pairs, k);
  }
}

// Python's insertion-ordered dict as an association list: each key once, in
// the order it was first assigned; assigning an existing key keeps its place.
module OrderedMaps {
  import Sorting

  function Keys<K, V>(d: seq<(K, V)>): (ks: seq<K>)
    ensures |ks| == |d| && forall i :: 0 <= i < |d| ==> ks[i] == d[i].0
  {
    seq(|d|, i requires 0 <= i < |d| => d[i].0)
  }

  predicate DistinctKeys<K(==), V>(d: seq<(K, V)>) {
    forall i, j :: 0 <= i < j < |d| ==> d[i].0 != d[j].0
  }

  predicate HasKey<K(==), V>(d: seq<(K, V)>, k: K) {
    exists i :: 0 <= i < |d| && d[i].0 == k
  }

  /** d.get(k, default): the value of the first entry with key k. */
  function Get<K(==), V>(d: seq<(K, V)>, k: K, default: V): (v: V)
    ensures !HasKey(d, k) ==> v == default
  {
    if |d| == 0 then default
    else if d[0].0 == k then d[0].1
    else
      assert HasKey(d[1..], k) ==> HasKey(d, k) by {
        if HasKey(d[1..], k) {
          var i :| 0 <= i < |d| - 1 && d[1..][i].0 == k;
          assert d[i + 1].0 == k;
        }
      }
      Get(d[1..], k, default)
  }

  lemma GetAt<K, V>(d: seq<(K, V)>, i: nat, default: V)
    requires DistinctKeys(d) && i < |d|
    ensures Get(d, d[i].0, default) == d[i].1
  {
    if i > 0 {
      GetAt(d[1..], i - 1, default);
    }
  }

  /** The position of key k. */
  function KeyIndex<K(==), V>(d: seq<(K, V)>, k: K): (i: nat)
    requires HasKey(d, k)
    ensures i < |d| && d[i].0 == k && forall j :: 0 <= j < i ==> d[j].0 != k
  {
    if d[0].0 == k then 0
    else
      assert HasKey(d[1..], k) by {
        var i :| 0 <= i < |d| && d[i].0 == k;
        assert d[1..][i - 1].0 == k;
      }
      KeyIndex(d[1..], k) + 1
  }

  /** d[k] = v: overwrite in place when k is present, append otherwise. */
  function Put<K(==), V>(d: seq<(K, V)>, k: K, v: V): (r: seq<(K, V)>)
    requires DistinctKeys(d)
    ensures DistinctKeys(r) && HasKey(r, k)
    ensures HasKey(d, k) ==> |r| == |d| && Keys(r) == Keys(d)
    ensures !HasKey(d, k) ==> r == d + [(k, v)]
    ensures forall i :: 0 <= i < |d| && d[i].0 != k ==> r[i] == d[i]
    ensures forall i :: 0 <= i < |r| && r[i].0 == k ==> r[i].1 == v
  {
    if HasKey(d, k) then
      var i := KeyIndex(d, k);
      var r := d[i := (k, v)];
      assert r[i].0 == k;
      assert Keys(r) == Keys(d);
      r
    else
      var r := d + [(k, v)];
      assert r[|d|].0 == k;
      r
  }

  /** On distinct keys, get finds the entry at the key's position. */
  lemma {:induction false} GetByIndex<K, V>(d: seq<(K, V)>, q: K, default: V)
    requires HasKey(d, q)
    ensures Get(d, q, default) == d[KeyIndex(d, q)].1
  {
    if d[0].0 != q {
      assert HasKey(d[1..], q) by {
        var i :| 0 <= i < |d| && d[i].0 == q;
        assert d[1..][i - 1].0 == q;
      }
      GetByIndex(d[1..], q, default);
    }
  }

  /** Reading back a Put: the new value for k, the old value for any other key. */
  lemma GetPut<K, V>(d: seq<(K, V)>, k: K, v: V, q: K, default: V)
    requires DistinctKeys(d)
    ensures Get(Put(d, k, v), q, default) == if q == k then v else Get(d, q, default)
  {
    var r := Put(d, k, v);
    if HasKey(r, q) {
      GetByIndex(r, q, default);
      var j := KeyIndex(r, q);
      if q != k {
        assert HasKey(d, q) by {
          assert j < |d| && d[j].0 == q;
        }
        GetByIndex(d, q, default);
        assert KeyIndex(d, q) == j;
      }
    }
  }

  /** Put adds its key and keeps every other key. */
  lemma HasKeyPut<K, V>(d: seq<(K, V)>, k: K, v: V, q: K)
    requires DistinctKeys(d)
    ensures HasKey(Put(d, k, v), q) <==> HasKey(d, q) || q == k
  {
    var r := Put(d, k, v);
    if HasKey(r, q) && q != k {
      var j := KeyIndex(r, q);
      if HasKey(d, k) {
        assert Keys(r)[j] == Keys(d)[j];
      } else {
        assert j < |d| && r[j] == d[j];
      }
      assert d[j].0 == q;
    }
    if HasKey(d, q) && q != k {
      var j := KeyIndex(d, q);
      assert r[j] == d[j];
    }
  }

  /** Looking up in a dict extended by one fresh entry. */
  lemma {:induction false} GetSnoc<K, V>(d: seq<(K, V)>, k: K, v: V, q: K, default: V)
    requires !HasKey(d, k)
    ensures Get(d + [(k, v)], q, default) == if q == k then v else Get(d, q, default)
  {
    if |d| > 0 {
      assert (d + [(k, v)])[1..] == d[1..] + [(k, v)];
      GetSnoc(d[1..], k, v, q, default);
    }
  }

  /** dict(d) as a map: every key of d, a later entry overriding an earlier one. */
  function AsMap<K(!new), V>(d: seq<(K, V)>): (m: map<K, V>)
    ensures forall k :: k in m <==> HasKey(d, k)
    ensures forall i :: 0 <= i < |d| ==> d[i].0 in m && (DistinctKeys(d) ==> m[d[i].0] == d[i].1)
  {
    if |d| == 0 then map[]
    else
      var front := d[..|d| - 1];
      var e := d[|d| - 1];
      assert forall k :: HasKey(d, k) <==> HasKey(front, k) || k == e.0 by {
        forall k | HasKey(d, k) ensures HasKey(front, k) || k == e.0 {
          var i :| 0 <= i < |d| && d[i].0 == k;
          if i < |d| - 1 { assert front[i].0 == k; }
        }
        forall k | HasKey(front, k) ensures HasKey(d, k) {
          var i :| 0 <= i < |front| && front[i].0 == k;
          assert d[i].0 == k;
        }
      }
      assert DistinctKeys(d) ==> DistinctKeys(front);
      AsMap(front)[e.0 := e.1]
  }

  /** A dict built from distinct keys has as many keys as entries. */
  lemma {:induction false} AsMapSize<K(!new), V>(d: seq<(K, V)>)
    requires DistinctKeys(d)
    ensures |AsMap(d).Keys| == |d|
  {
    if |d| > 0 {
      var front := d[..|d| - 1];
      var e := d[|d| - 1];
      AsMapSize(front);
      assert !HasKey(front, e.0);
      assert AsMap(d).Keys == AsMap(front).Keys + {e.0};
    }
  }

  /** A sequence without repeats has as many members as elements. */
  lemma {:induction false} DistinctCard<T>(s: seq<T>)
    requires forall i, j :: 0 <= i < j < |s| ==> s[i] != s[j]
    ensures |set x | x in s| == |s|
  {
    if |s| > 0 {
      var front := s[..|s| - 1];
      DistinctCard(front);
      assert s[|s| - 1] !in front;
      assert (set x | x in s) == (set x | x in front) + {s[|s| - 1]};
    }
  }

  /** [x for x in xs if key(x) == k]. */
  function Having<T, K(==)>(xs: seq<T>, key: T -> K, k: K): (r: seq<T>)
    ensures |r| <= |xs|
  {
    if |xs| == 0 then []
    else
      var front := Having(xs[..|xs| - 1], key, k);
      if key(xs[|xs| - 1]) == k then front + [xs[|xs| - 1]] else front
  }

  /** The defaultdict(list) grouping loop: each element appended to the list
    * of its key, keys in order of first appearance. */
  function GroupBy<T, K(==)>(xs: seq<T>, key: T -> K): (d: seq<(K, seq<T>)>)
    ensures DistinctKeys(d)
    ensures forall i :: 0 <= i < |d| ==> |d[i].1| > 0
  {
    if |xs| == 0 then []
    else
      var front := GroupBy(xs[..|xs| - 1], key);
      var x := xs[|xs| - 1];
      Put(front, key(x), Get(front, key(x), []) + [x])
  }

  /** Grouping partitions the input: the group of k holds exactly the
    * elements with key k, in their original order, and k is a key of the
    * grouping iff some element has it. */
  lemma GroupByMembers<T, K(!new)>(xs: seq<T>, key: T -> K, k: K)
    ensures Get(GroupBy(xs, key), k, []) == Having(xs, key, k)
    ensures HasKey(GroupBy(xs, key), k) <==> exists i :: 0 <= i < |xs| && key(xs[i]) == k
  {
    GroupByGet(xs, key, k);
    GroupByHasKey(xs, key, k);
  }

  /** The group of k holds exactly the elements with key k, in order. */
  lemma {:induction false} GroupByGet<T, K(!new)>(xs: seq<T>, key: T -> K, k: K)
    ensures Get(GroupBy(xs, key), k, []) == Having(xs, key, k)
  {
    if |xs| > 0 {
      var front, x := xs[..|xs| - 1], xs[|xs| - 1];
      var d := GroupBy(front, key);
      GroupByGet(front, key, k);
      GetPut(d, key(x), Get(d, key(x), []) + [x], k, []);
    }
  }

  /** k is a key of the grouping iff some element has it. */
  lemma {:induction false} GroupByHasKey<T, K(!new)>(xs: seq<T>, key: T -> K, k: K)
    ensures HasKey(GroupBy(xs, key), k) <==> exists i :: 0 <= i < |xs| && key(xs[i]) == k
  {
    if |xs| > 0 {
      var front, x := xs[..|xs| - 1], xs[|xs| - 1];
      var d := GroupBy(front, key);
      GroupByHasKey(front, key, k);
      HasKeyPut(d, key(x), Get(d, key(x), []) + [x], k);
      SomeKeySnoc(xs, front, key, k);
    }
  }

  /** The keys of a grouping after one more element: the same keys when
    * its key is already present, otherwise that key appended. */
  lemma GroupBySnocKeys<T, K>(xs: seq<T>, key: T -> K)
    requires |xs| > 0
    ensures var d := GroupBy(xs[..|xs| - 1], key); var r := GroupBy(xs, key); var k := key(xs[|xs| - 1]);
      (HasKey(d, k) ==> |r| == |d|) && (!HasKey(d, k) ==> |r| == |d| + 1 && r[|d|].0 == k) &&
      forall n :: 0 <= n < |d| ==> r[n].0 == d[n].0
  {
    var d := GroupBy(xs[..|xs| - 1], key);
    var r := GroupBy(xs, key);
    if HasKey(d, key(xs[|xs| - 1])) {
      assert forall n :: 0 <= n < |d| ==> r[n].0 == Keys(r)[n] == Keys(d)[n];
    }
  }

  /** Keys come in order of first appearance: wherever the key of a later
    * group occurs, the key of an earlier group has already occurred. */
  lemma {:induction false} GroupByOrder<T, K(!new)>(xs: seq<T>, key: T -> K, i: nat, j: nat, q: nat)
    requires i < j < |GroupBy(xs, key)| && q < |xs| && key(xs[q]) == GroupBy(xs, key)[j].0
    ensures exists p :: 0 <= p < q && key(xs[p]) == GroupBy(xs, key)[i].0
  {
    var front, x := xs[..|xs| - 1], xs[|xs| - 1];
    var d := GroupBy(front, key);
    var r := GroupBy(xs, key);
    GroupBySnocKeys(xs, key);
    GroupByHasKey(front, key, d[i].0);
    assert HasKey(d, d[i].0);
    var p :| 0 <= p < |front| && key(front[p]) == d[i].0;
    assert key(xs[p]) == r[i].0;
    if j < |d| && q == |front| {
      // the later key is key(x), already a key of the front: it occurred before q
      assert HasKey(d, key(x));
      GroupByHasKey(front, key, d[j].0);
      var q' :| 0 <= q' < |front| && key(front[q']) == d[j].0;
      GroupByOrder(front, key, i, j, q');
    } else if j < |d| {
      assert front[q] == xs[q];
      GroupByOrder(front, key, i, j, q);
      var p' :| 0 <= p' < q && key(front[p']) == d[i].0;
      assert xs[p'] == front[p'];
    } else {
      // the later key is the new last one, which none of the front carries
      GroupByHasKey(front, key, key(x));
      forall n | 0 <= n < |front| ensures key(xs[n]) != key(x) {
        assert front[n] == xs[n];
      }
    }
  }

  /** Some element has key k iff one of the front has, or the last has. */
  lemma SomeKeySnoc<T, K>(xs: seq<T>, front: seq<T>, key: T -> K, k: K)
    requires |xs| > 0 && front == xs[..|xs| - 1]
    ensures (exists i :: 0 <= i < |xs| && key(xs[i]) == k) <==>
      (exists i :: 0 <= i < |front| && key(front[i]) == k) || key(xs[|xs| - 1]) == k
  {
    if (exists i :: 0 <= i < |xs| && key(xs[i]) == k) && key(xs[|xs| - 1]) != k {
      var i :| 0 <= i < |xs| && key(xs[i]) == k;
      assert front[i] == xs[i];
    }
    if exists i :: 0 <= i < |front| && key(front[i]) == k {
      var i :| 0 <= i < |front| && key(front[i]) == k;
      assert front[i] == xs[i];
    }
  }

  /** A key of the grouping is a key of some element, and back. */
  lemma GroupKeysMember<T, K(!new)>(xs: seq<T>, key: T -> K, k: K)
    ensures k in Keys(GroupBy(xs, key)) <==> exists i :: 0 <= i < |xs| && key(xs[i]) == k
  {
    var d := GroupBy(xs, key);
    var ks := Keys(d);
    GroupByMembers(xs, key, k);
    if k in ks {
      var i :| 0 <= i < |ks| && ks[i] == k;
      assert d[i].0 == k;
    }
    if HasKey(d, k) {
      var i :| 0 <= i < |d| && d[i].0 == k;
      assert ks[i] == k;
    }
  }

  function Fst<K, V>(e: (K, V)): K { e.0 }

  /** The keys of a grouping are exactly the keys of its elements. */
  lemma GroupByKeys<T, K(!new)>(xs: seq<T>, key: T -> K)
    ensures Sorting.KeySet(GroupBy(xs, key), Fst) == Sorting.KeySet(xs, key)
  {
    var d := GroupBy(xs, key);
    forall i | 0 <= i < |d| ensures Fst(d[i]) in Sorting.KeySet(xs, key) {
      GroupByMembers(xs, key, d[i].0);
      assert HasKey(d, d[i].0);
      var k :| 0 <= k < |xs| && key(xs[k]) == d[i].0;
    }
    forall k | 0 <= k < |xs| ensures key(xs[k]) in Sorting.KeySet(d, Fst) {
      GroupByMembers(xs, key, key(xs[k]));
      var i := KeyIndex(d, key(xs[k]));
      assert Fst(d[i]) == key(xs[k]);
    }
  }

  /** Writing each value of xs under (s, key(value)), later values over earlier ones. */
  function StoreKeyed<S(==), K(==), V>(records: map<(S, K), V>, s: S, xs: seq<V>, key: V -> K): map<(S, K), V>
  {
    if |xs| == 0 then records
    else StoreKeyed(records, s, xs[..|xs| - 1], key)[(s, key(xs[|xs| - 1])) := xs[|xs| - 1]]
  }

  lemma StoreKeyedSnoc<S, K, V>(records: map<(S, K), V>, s: S, xs: seq<V>, x: V, key: V -> K)
    ensures StoreKeyed(records, s, xs + [x], key) == StoreKeyed(records, s, xs, key)[(s, key(x)) := x]
  {
    assert (xs + [x])[..|xs|] == xs;
  }

  /** The stored map holds the old entries plus one per key of xs. */
  lemma {:induction false} StoredKeyedDomain<S, K, V>(records: map<(S, K), V>, s: S, xs: seq<V>, key: V -> K)
    ensures forall p :: p in StoreKeyed(records, s, xs, key) <==> p in records || (p.0 == s && p.1 in Sorting.KeySet(xs, key))
  {
    if |xs| > 0 {
      var n := |xs| - 1;
      StoredKeyedDomain(records, s, xs[..n], key);
      assert Sorting.KeySet(xs, key) == Sorting.KeySet(xs[..n], key) + {key(xs[n])} by {
        assert forall i :: 0 <= i < n ==> xs[..n][i] == xs[i];
      }
    }
  }

  /** Entries under any other key keep their old values. */
  lemma {:induction false} StoredKeyedOthers<S, K, V>(records: map<(S, K), V>, s: S, xs: seq<V>, key: V -> K)
    ensures forall p :: p in records && !(p.0 == s && p.1 in Sorting.KeySet(xs, key)) ==>
      p in StoreKeyed(records, s, xs, key) && StoreKeyed(records, s, xs, key)[p] == records[p]
  {
    if |xs| > 0 {
      var n := |xs| - 1;
      StoredKeyedOthers(records, s, xs[..n], key);
      assert forall i :: 0 <= i < n ==> xs[..n][i] == xs[i];
    }
  }

  /** With distinct keys, each value of xs is stored under its own key. */
  lemma {:induction false} StoredKeyedValues<S, K, V>(records: map<(S, K), V>, s: S, xs: seq<V>, key: V -> K)
    requires Sorting.DistinctBy(xs, key)
    ensures forall i :: 0 <= i < |xs| ==>
      (s, key(xs[i])) in StoreKeyed(records, s, xs, key) && StoreKeyed(records, s, xs, key)[(s, key(xs[i]))] == xs[i]
  {
    if |xs| > 0 {
      var n := |xs| - 1;
      var front := xs[..n];
      assert forall i :: 0 <= i < n ==> front[i] == xs[i] && key(xs[i]) != key(xs[n]);
      StoredKeyedValues(records, s, front, key);
    }
  }
}

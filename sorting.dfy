// Python's sorted(): a stable insertion sort under a total preorder, and the
// ascending listing of a set of ints or strings (sorted(set(...))).
module Sorting {
  /** le(a, b) means "a may come before b": total and transitive. */
  ghost predicate TotalPreorder<T(!new)>(le: (T, T) -> bool) {
    (forall a, b :: le(a, b) || le(b, a)) &&
    (forall a, b, c :: le(a, b) && le(b, c) ==> le(a, c))
  }

  ghost predicate SortedBy<T>(s: seq<T>, le: (T, T) -> bool) {
    forall i, j :: 0 <= i < j < |s| ==> le(s[i], s[j])
  }

  /** Insert x after every element it does not have to precede, so that
    * equal elements keep their original order. */
  function Insert<T>(x: T, r: seq<T>, le: (T, T) -> bool): (out: seq<T>)
    ensures |out| == |r| + 1
    ensures forall e :: e in out ==> e == x || e in r
    ensures x in out
  {
    if |r| == 0 then [x]
    else if le(r[|r| - 1], x) then r + [x]
    else Insert(x, r[..|r| - 1], le) + [r[|r| - 1]]
  }

  /** sorted(s, key=...) as a stable insertion sort. */
  function Sort<T>(s: seq<T>, le: (T, T) -> bool): (out: seq<T>)
    ensures |out| == |s|
  {
    if |s| == 0 then [] else Insert(s[|s| - 1], Sort(s[..|s| - 1], le), le)
  }

  lemma {:induction false} InsertPermutes<T>(x: T, r: seq<T>, le: (T, T) -> bool)
    ensures multiset(Insert(x, r, le)) == multiset(r) + multiset{x}
  {
    if |r| > 0 && !le(r[|r| - 1], x) {
      InsertPermutes(x, r[..|r| - 1], le);
      assert r == r[..|r| - 1] + [r[|r| - 1]];
    }
  }

  lemma {:induction false} InsertSorted<T(!new)>(x: T, r: seq<T>, le: (T, T) -> bool)
    requires TotalPreorder(le) && SortedBy(r, le)
    ensures SortedBy(Insert(x, r, le), le)
  {
    if |r| > 0 {
      var last := r[|r| - 1];
      if le(last, x) {
        var out := r + [x];
        forall i, j | 0 <= i < j < |out| ensures le(out[i], out[j]) {
          if j == |r| && i < |r| - 1 {
            assert le(r[i], last);
          }
        }
      } else {
        var front := r[..|r| - 1];
        InsertSorted(x, front, le);
        var ins := Insert(x, front, le);
        assert le(x, last);
        forall i | 0 <= i < |ins| ensures le(ins[i], last) {
          assert ins[i] in ins;
          if ins[i] != x {
            var k :| 0 <= k < |front| && front[k] == ins[i];
            assert le(r[k], r[|r| - 1]);
          }
        }
      }
    }
  }

  lemma {:induction false} SortSorted<T(!new)>(s: seq<T>, le: (T, T) -> bool)
    requires TotalPreorder(le)
    ensures SortedBy(Sort(s, le), le)
  {
    if |s| > 0 {
      SortSorted(s[..|s| - 1], le);
      InsertSorted(s[|s| - 1], Sort(s[..|s| - 1], le), le);
    }
  }

  lemma {:induction false} SortPermutes<T>(s: seq<T>, le: (T, T) -> bool)
    ensures multiset(Sort(s, le)) == multiset(s)
  {
    if |s| > 0 {
      var front := s[..|s| - 1];
      SortPermutes(front, le);
      InsertPermutes(s[|s| - 1], Sort(front, le), le);
      assert s == front + [s[|s| - 1]];
    }
  }

  /** x lands at the front of an insertion exactly when no element of r
    * may precede it; otherwise the head stays. */
  lemma {:induction false} InsertHead<T>(x: T, r: seq<T>, le: (T, T) -> bool)
    requires |r| > 0
    ensures (exists e :: e in r && le(e, x)) ==> Insert(x, r, le)[0] == r[0]
    ensures (forall e :: e in r ==> !le(e, x)) ==> Insert(x, r, le)[0] == x
  {
    var front, last := r[..|r| - 1], r[|r| - 1];
    if !le(last, x) && |r| > 1 {
      InsertHead(x, front, le);
      if exists e :: e in r && le(e, x) {
        var e :| e in r && le(e, x);
        assert r == front + [last];
        assert e in front;
      }
    }
  }

  /** Stability at the head: the first element of the sort is one of the
    * input whose every element that may precede it comes no earlier. */
  lemma {:induction false} SortHeadFirst<T>(s: seq<T>, le: (T, T) -> bool)
    requires |s| > 0
    ensures exists m :: (0 <= m < |s| && Sort(s, le)[0] == s[m] &&
                         forall k :: 0 <= k < |s| && le(s[k], s[m]) ==> m <= k)
  {
    var front, x := s[..|s| - 1], s[|s| - 1];
    if |front| == 0 {
      assert Sort(s, le)[0] == s[0];
    } else {
      var sorted := Sort(front, le);
      SortHeadFirst(front, le);
      SortPermutes(front, le);
      InsertHead(x, sorted, le);
      var m :| 0 <= m < |front| && sorted[0] == front[m] &&
        forall k :: 0 <= k < |front| && le(front[k], front[m]) ==> m <= k;
      if exists e :: e in sorted && le(e, x) {
        assert Sort(s, le)[0] == s[m];
        assert forall k :: 0 <= k < |front| ==> s[k] == front[k];
      } else {
        forall k | 0 <= k < |front| ensures !le(s[k], x) {
          assert s[k] == front[k] && front[k] in multiset(sorted);
        }
        assert Sort(s, le)[0] == s[|s| - 1];
      }
    }
  }

  /** The sort yields a permutation of its input ordered by le. */
  lemma SortCorrect<T(!new)>(s: seq<T>, le: (T, T) -> bool)
    requires TotalPreorder(le)
    ensures SortedBy(Sort(s, le), le)
    ensures multiset(Sort(s, le)) == multiset(s)
  {
    SortSorted(s, le);
    SortPermutes(s, le);
  }

  /** The sequence with every occurrence of x removed. */
  function Without<T(==,!new)>(xs: seq<T>, x: T): (r: seq<T>)
    ensures forall y :: y in r <==> y in xs && y != x
    ensures |r| <= |xs| && (x in xs ==> |r| < |xs|)
  {
    if |xs| == 0 then []
    else if xs[0] == x then Without(xs[1..], x)
    else [xs[0]] + Without(xs[1..], x)
  }

  function MinInt(xs: seq<int>): (m: int)
    requires |xs| > 0
    ensures m in xs && forall y :: y in xs ==> m <= y
  {
    if |xs| == 1 then xs[0]
    else
      var rest := MinInt(xs[1..]);
      assert xs == [xs[0]] + xs[1..];
      if xs[0] <= rest then xs[0] else rest
  }

  /** sorted(set(xs)) for ints: every distinct member once, strictly ascending. */
  function SortedUniqueInts(xs: seq<int>): (r: seq<int>)
    ensures forall x :: x in r <==> x in xs
    ensures forall i, j :: 0 <= i < j < |r| ==> r[i] < r[j]
    decreases |xs|
  {
    if |xs| == 0 then [] else
    var m := MinInt(xs);
    [m] + SortedUniqueInts(Without(xs, m))
  }

  /** Python's string order: code-point lexicographic, a prefix first. */
  predicate StrLe(a: string, b: string) {
    if |a| == 0 then true
    else if |b| == 0 then false
    else if a[0] != b[0] then a[0] < b[0]
    else StrLe(a[1..], b[1..])
  }

  lemma StrLeTotal(a: string, b: string)
    ensures StrLe(a, b) || StrLe(b, a)
  {
  }

  lemma StrLeTransitive(a: string, b: string, c: string)
    requires StrLe(a, b) && StrLe(b, c)
    ensures StrLe(a, c)
  {
  }

  function MinStr(xs: seq<string>): (m: string)
    requires |xs| > 0
    ensures m in xs && forall y :: y in xs ==> StrLe(m, y)
  {
    StrLeTotal(xs[0], xs[0]);
    if |xs| == 1 then xs[0]
    else
      var rest := MinStr(xs[1..]);
      assert xs == [xs[0]] + xs[1..];
      StrLeTotal(xs[0], rest);
      if StrLe(xs[0], rest) then
        assert forall y :: y in xs[1..] ==> StrLe(xs[0], y) by {
          forall y | y in xs[1..] ensures StrLe(xs[0], y) { StrLeTransitive(xs[0], rest, y); }
        }
        xs[0]
      else rest
  }

  /** sorted(set(xs)) for strings: every distinct member once, ascending. */
  function SortedUniqueStrings(xs: seq<string>): (r: seq<string>)
    ensures forall x :: x in r <==> x in xs
    ensures forall i, j :: 0 <= i < j < |r| ==> StrLe(r[i], r[j]) && r[i] != r[j]
    decreases |xs|
  {
    if |xs| == 0 then [] else
    var m := MinStr(xs);
    [m] + SortedUniqueStrings(Without(xs, m))
  }

  /** Python's string order as a comparison function for Sort. */
  const ByStr: (string, string) -> bool := (a: string, b: string) => StrLe(a, b)

  lemma ByStrTotal()
    ensures TotalPreorder(ByStr)
  {
    forall a, b ensures ByStr(a, b) || ByStr(b, a) { StrLeTotal(a, b); }
    forall a, b, c | ByStr(a, b) && ByStr(b, c) ensures ByStr(a, c) { StrLeTransitive(a, b, c); }
  }

  /** An element at two positions is counted twice. */
  lemma CountTwice<T>(s: seq<T>, i: nat, j: nat)
    requires i < j < |s| && s[i] == s[j]
    ensures multiset(s)[s[i]] >= 2
  {
    assert s == s[..i] + [s[i]] + s[i + 1..j] + [s[j]] + s[j + 1..];
  }

  /** With distinct keys every element is counted once. */
  lemma CountOnce<T, K>(s: seq<T>, key: T -> K, i: nat)
    requires i < |s| && forall a, b :: 0 <= a < b < |s| ==> key(s[a]) != key(s[b])
    ensures multiset(s)[s[i]] == 1
  {
    assert s == s[..i] + [s[i]] + s[i + 1..];
    assert s[i] !in s[..i] by {
      forall k | 0 <= k < i ensures s[..i][k] != s[i] { assert key(s[k]) != key(s[i]); }
    }
    assert s[i] !in s[i + 1..] by {
      forall k | i < k < |s| ensures s[k] != s[i] { assert key(s[k]) != key(s[i]); }
    }
  }

  /** No two elements of s share a key. */
  predicate DistinctBy<T, K(==)>(s: seq<T>, key: T -> K) {
    forall i, j :: 0 <= i < j < |s| ==> key(s[i]) != key(s[j])
  }

  /** A permutation keeps the keys distinct. */
  lemma PermutationDistinctKeys<T, K>(a: seq<T>, b: seq<T>, key: T -> K)
    requires multiset(a) == multiset(b) && DistinctBy(a, key)
    ensures DistinctBy(b, key)
  {
    forall i, j | 0 <= i < j < |b| ensures key(b[i]) != key(b[j]) {
      assert b[i] in multiset(a) && b[j] in multiset(a);
      var x :| 0 <= x < |a| && a[x] == b[i];
      var y :| 0 <= y < |a| && a[y] == b[j];
      if key(b[i]) == key(b[j]) {
        assert x == y;
        CountTwice(b, i, j);
        CountOnce(a, key, x);
      }
    }
  }

  /** The set of keys of the elements of s. */
  function KeySet<T, K>(s: seq<T>, key: T -> K): (ks: set<K>)
    ensures forall i :: 0 <= i < |s| ==> key(s[i]) in ks
    ensures forall k :: k in ks ==> exists i :: 0 <= i < |s| && key(s[i]) == k
  {
    set i | 0 <= i < |s| :: key(s[i])
  }

  /** A permutation has the same set of keys. */
  lemma PermutationSameKeys<T, K>(a: seq<T>, b: seq<T>, key: T -> K)
    requires multiset(a) == multiset(b)
    ensures KeySet(a, key) == KeySet(b, key)
  {
    forall i | 0 <= i < |a| ensures key(a[i]) in KeySet(b, key) {
      assert a[i] in multiset(b);
      var k :| 0 <= k < |b| && b[k] == a[i];
    }
    forall k | 0 <= k < |b| ensures key(b[k]) in KeySet(a, key) {
      assert b[k] in multiset(a);
      var i :| 0 <= i < |a| && a[i] == b[k];
    }
  }

  /** Two sequences whose elements have the same keys position by position
    * have the same key set, and one has distinct keys iff the other does. */
  lemma SameKeysAlong<A, B, K>(a: seq<A>, ka: A -> K, b: seq<B>, kb: B -> K)
    requires |a| == |b| && forall i :: 0 <= i < |a| ==> ka(a[i]) == kb(b[i])
    ensures KeySet(a, ka) == KeySet(b, kb)
    ensures DistinctBy(a, ka) <==> DistinctBy(b, kb)
  {
    forall k | k in KeySet(a, ka) ensures k in KeySet(b, kb) {
      var i :| 0 <= i < |a| && ka(a[i]) == k;
      assert kb(b[i]) == k;
    }
  }

  /** Two permutations of each other, both strictly ascending in an integer
    * key, are the same sequence. */
  lemma {:induction false} StrictlySortedUnique<T>(a: seq<T>, b: seq<T>, key: T -> int)
    requires multiset(a) == multiset(b)
    requires forall i, j :: 0 <= i < j < |a| ==> key(a[i]) < key(a[j])
    requires forall i, j :: 0 <= i < j < |b| ==> key(b[i]) < key(b[j])
    ensures a == b
  {
    assert |a| == |multiset(a)| == |multiset(b)| == |b|;
    if |a| > 0 {
      SameHead(a, b, key);
      TailMultiset(a);
      TailMultiset(b);
      var ta, tb := a[1..], b[1..];
      TailAscending(a, key);
      TailAscending(b, key);
      StrictlySortedUnique(ta, tb, key);
      SameHeadSameTail(a, b);
    }
  }

  /** Sequences with the same head and the same tail are equal. */
  lemma SameHeadSameTail<T>(a: seq<T>, b: seq<T>)
    requires |a| > 0 && |b| > 0 && a[0] == b[0] && a[1..] == b[1..]
    ensures a == b
  {
    assert a == [a[0]] + a[1..];
    assert b == [b[0]] + b[1..];
  }

  /** The tail of a strictly ascending sequence is strictly ascending. */
  lemma TailAscending<T>(a: seq<T>, key: T -> int)
    requires |a| > 0 && forall i, j :: 0 <= i < j < |a| ==> key(a[i]) < key(a[j])
    ensures var t := a[1..]; forall i, j :: 0 <= i < j < |t| ==> key(t[i]) < key(t[j])
  {
    var t := a[1..];
    forall i, j | 0 <= i < j < |t| ensures key(t[i]) < key(t[j]) {
      assert t[i] == a[i + 1] && t[j] == a[j + 1];
    }
  }

  /** The heads of two strictly ascending permutations of each other agree. */
  lemma SameHead<T>(a: seq<T>, b: seq<T>, key: T -> int)
    requires multiset(a) == multiset(b) && |a| > 0 && |b| > 0
    requires forall i, j :: 0 <= i < j < |a| ==> key(a[i]) < key(a[j])
    requires forall i, j :: 0 <= i < j < |b| ==> key(b[i]) < key(b[j])
    ensures a[0] == b[0]
  {
    assert a[0] in multiset(b) && b[0] in multiset(a);
    var j :| 0 <= j < |b| && b[j] == a[0];
    var i :| 0 <= i < |a| && a[i] == b[0];
    assert key(a[0]) <= key(a[i]) && key(b[0]) <= key(b[j]);
  }

  /** Dropping the head removes one occurrence of it. */
  lemma TailMultiset<T>(a: seq<T>)
    requires |a| > 0
    ensures multiset(a[1..]) == multiset(a) - multiset{a[0]}
  {
    assert a == [a[0]] + a[1..];
  }

}

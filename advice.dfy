// build_advice (app/core/advice.py): one sentence for every position where
// two type strings differ, looked up by the pair of letters, joined by spaces.
module Advice {
  import Text

  /** ADVICE_MATRIX: the sentences written so far, keyed by (mine, friend's). */
  const AdviceMatrix: map<(char, char), string> := map[
    ('E', 'I') := "당신은 외향적, 친구는 내향적입니다. 대화 시 배려를!",
    ('I', 'E') := "당신은 내향적, 친구는 외향적입니다. 때로는 적극적으로 표현해보세요."
  ]

  /** The sentence used for a pair the matrix lacks. */
  const DefaultAdvice: string := "서로의 차이를 존중하세요."

  /** ADVICE_MATRIX.get((a, b), default). */
  function SentenceFor(a: char, b: char): (s: string)
    ensures |s| > 0
    ensures (a, b) in AdviceMatrix ==> s == AdviceMatrix[(a, b)]
    ensures (a, b) !in AdviceMatrix ==> s == DefaultAdvice
  {
    if (a, b) in AdviceMatrix then AdviceMatrix[(a, b)] else DefaultAdvice
  }

  function Min(a: nat, b: nat): nat {
    if a < b then a else b
  }

  /** The advice list after the first n zipped positions. */
  function ItemsUpTo(mine: string, friend: string, n: nat): seq<string>
    requires n <= Min(|mine|, |friend|)
  {
    if n == 0 then [] else
    var front := ItemsUpTo(mine, friend, n - 1);
    if mine[n - 1] == friend[n - 1] then front else front + [SentenceFor(mine[n - 1], friend[n - 1])]
  }

  /** The advice list over every position zip reaches. */
  function Items(mine: string, friend: string): seq<string> {
    ItemsUpTo(mine, friend, Min(|mine|, |friend|))
  }

  /** build_advice: the loop over zip(my_mbti, friend_mbti), then the join. */
  method BuildAdvice(mine: string, friend: string) returns (r: string)
    ensures r == Text.Join(" ", Items(mine, friend))
  {
    var advice: seq<string> := [];
    var n := Min(|mine|, |friend|);
    var i := 0;
    while i < n
      invariant 0 <= i <= n
      invariant advice == ItemsUpTo(mine, friend, i)
    {
      if mine[i] != friend[i] {
        advice := advice + [SentenceFor(mine[i], friend[i])];
      }
      i := i + 1;
    }
    r := Text.Join(" ", advice);
  }

  /** The positions among the first n where the letters differ, in order. */
  function Mismatches(mine: string, friend: string, n: nat): (ps: seq<nat>)
    requires n <= Min(|mine|, |friend|)
    ensures forall k :: 0 <= k < |ps| ==> ps[k] < n && mine[ps[k]] != friend[ps[k]]
    ensures forall p :: 0 <= p < n && mine[p] != friend[p] ==> p in ps
    ensures forall a, b :: 0 <= a < b < |ps| ==> ps[a] < ps[b]
  {
    if n == 0 then [] else
    var front := Mismatches(mine, friend, n - 1);
    if mine[n - 1] == friend[n - 1] then front else front + [n - 1]
  }

  /** The k-th sentence is the one for the k-th differing position, so there
    * is exactly one sentence per differing position, in position order. */
  lemma {:induction false} ItemsFollowMismatches(mine: string, friend: string, n: nat)
    requires n <= Min(|mine|, |friend|)
    ensures var ps := Mismatches(mine, friend, n); var items := ItemsUpTo(mine, friend, n);
      |items| == |ps| &&
      forall k :: 0 <= k < |ps| ==> items[k] == SentenceFor(mine[ps[k]], friend[ps[k]])
  {
    if n > 0 {
      ItemsFollowMismatches(mine, friend, n - 1);
      if mine[n - 1] != friend[n - 1] {
        PairedSnoc(mine, friend, Mismatches(mine, friend, n - 1), ItemsUpTo(mine, friend, n - 1), n - 1);
      }
    }
  }

  /** Sentences paired with positions stay paired when one more position
    * and its sentence are appended. */
  lemma PairedSnoc(mine: string, friend: string, ps: seq<nat>, items: seq<string>, p: nat)
    requires p < |mine| && p < |friend|
    requires forall k :: 0 <= k < |ps| ==> ps[k] < |mine| && ps[k] < |friend|
    requires |items| == |ps| && forall k :: 0 <= k < |ps| ==> items[k] == SentenceFor(mine[ps[k]], friend[ps[k]])
    ensures var ps2, items2 := ps + [p], items + [SentenceFor(mine[p], friend[p])];
      |items2| == |ps2| && forall k :: 0 <= k < |ps2| ==> items2[k] == SentenceFor(mine[ps2[k]], friend[ps2[k]])
  {
    var ps2, items2 := ps + [p], items + [SentenceFor(mine[p], friend[p])];
    forall k | 0 <= k < |ps2| ensures items2[k] == SentenceFor(mine[ps2[k]], friend[ps2[k]]) {
      if k < |ps| {
        assert ps2[k] == ps[k] && items2[k] == items[k];
      }
    }
  }

  /** The advice over the first n positions reads only those letters. */
  lemma {:induction false} SamePrefixSameItems(mine: string, friend: string, mine2: string, friend2: string, n: nat)
    requires n <= Min(|mine|, |friend|) && n <= Min(|mine2|, |friend2|)
    requires mine[..n] == mine2[..n] && friend[..n] == friend2[..n]
    ensures ItemsUpTo(mine, friend, n) == ItemsUpTo(mine2, friend2, n)
  {
    if n > 0 {
      assert mine[..n - 1] == mine[..n][..n - 1] && mine2[..n - 1] == mine2[..n][..n - 1];
      assert friend[..n - 1] == friend[..n][..n - 1] && friend2[..n - 1] == friend2[..n][..n - 1];
      assert mine[n - 1] == mine[..n][n - 1] && mine2[n - 1] == mine2[..n][n - 1];
      assert friend[n - 1] == friend[..n][n - 1] && friend2[n - 1] == friend2[..n][n - 1];
      SamePrefixSameItems(mine, friend, mine2, friend2, n - 1);
    }
  }

  /** zip stops at the shorter string: the longer one's tail is never read. */
  lemma ZipTruncates(mine: string, friend: string)
    ensures var n := Min(|mine|, |friend|); Items(mine, friend) == Items(mine[..n], friend[..n])
  {
    var n := Min(|mine|, |friend|);
    SamePrefixSameItems(mine, friend, mine[..n], friend[..n], n);
  }

  /** Joining non-empty sentences gives the empty string only when there are
    * none. */
  lemma {:induction false} JoinEmpty(parts: seq<string>)
    requires forall k :: 0 <= k < |parts| ==> |parts[k]| > 0
    ensures Text.Join(" ", parts) == "" <==> |parts| == 0
  {
    if |parts| > 1 {
      assert |Text.Join(" ", parts)| >= |parts[0]|;
    }
  }

  /** The advice is empty exactly when every compared pair of letters
    * matches. */
  lemma AdviceEmpty(mine: string, friend: string)
    ensures Text.Join(" ", Items(mine, friend)) == "" <==>
      forall p :: 0 <= p < Min(|mine|, |friend|) ==> mine[p] == friend[p]
  {
    var n := Min(|mine|, |friend|);
    ItemsFollowMismatches(mine, friend, n);
    var ps := Mismatches(mine, friend, n);
    var items := Items(mine, friend);
    assert forall k :: 0 <= k < |items| ==> |items[k]| > 0;
    JoinEmpty(items);
    if |ps| > 0 {
      assert mine[ps[0]] != friend[ps[0]];
    }
  }
}

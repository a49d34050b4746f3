// The in-memory friend-evaluation store (app/database.py): evaluations
// listed per friend email, one info record per email, and the statistics
// page's summary of a friend's evaluations.
module FriendDatabase {
  import opened Wrappers
  import OM = OrderedMaps
  import Sorting

  /** One saved evaluation: what the result router stores plus the
    * created_at stamp added on save. mbtiType is None for a record that
    * lacks the mbti_type key. */
  datatype Evaluation = Evaluation(
    friendEmail: string, evaluatorName: string, responses: map<int, int>,
    mbtiType: Option<string>, scores: map<string, int>, rawScores: map<string, int>,
    createdAt: string)

  /** The friend_info record for one email. */
  datatype FriendInfo = FriendInfo(
    name: string, email: string, description: string, myPerspective: string,
    createdAt: string, actualMbti: Option<string>, mbtiUpdatedAt: Option<string>)

  /** get_friend_evaluations: the list for an email, empty when there is none. */
  function ListOf(evaluations: map<string, seq<Evaluation>>, email: string): seq<Evaluation> {
    if email in evaluations then evaluations[email] else []
  }

  /** The store after save_evaluation appended e under email. */
  function WithEvaluation(evaluations: map<string, seq<Evaluation>>, email: string, e: Evaluation): map<string, seq<Evaluation>> {
    evaluations[email := ListOf(evaluations, email) + [e]]
  }

  /** Saving appends exactly one record to that email's list and leaves
    * every other email's list alone. */
  lemma SaveAppendsOne(evaluations: map<string, seq<Evaluation>>, email: string, e: Evaluation, other: string)
    ensures ListOf(WithEvaluation(evaluations, email, e), email) == ListOf(evaluations, email) + [e]
    ensures other != email ==> ListOf(WithEvaluation(evaluations, email, e), other) == ListOf(evaluations, other)
    ensures WithEvaluation(evaluations, email, e).Keys == evaluations.Keys + {email}
  {
  }

  /** The letters whose scores are averaged, in total_scores order. */
  const Letters: seq<string> := ["E", "I", "S", "N", "T", "F", "J", "P"]

  /** eval.get('mbti_type', 'UNKNOWN'). */
  function TypeName(e: Evaluation): string {
    if e.mbtiType.Some? then e.mbtiType.value else "UNKNOWN"
  }

  /** scores.get(key, 0). */
  function ScoreOr0(e: Evaluation, key: string): int {
    if key in e.scores then e.scores[key] else 0
  }

  /** The sum of the counts of a tally. */
  function SumCounts<K>(d: seq<(K, nat)>): nat {
    if |d| == 0 then 0 else SumCounts(d[..|d| - 1]) + d[|d| - 1].1
  }

  /** How many times k occurs in keys. */
  function Count<K(==)>(keys: seq<K>, k: K): nat {
    if |keys| == 0 then 0
    else Count(keys[..|keys| - 1], k) + (if keys[|keys| - 1] == k then 1 else 0)
  }

  /** counts[k] = counts.get(k, 0) + 1 for each key in turn: each key once,
    * in the order first seen, with its count. */
  function Tally<K(==)>(keys: seq<K>): (d: seq<(K, nat)>)
    ensures OM.DistinctKeys(d)
  {
    if |keys| == 0 then [] else
    var front := Tally(keys[..|keys| - 1]);
    var k := keys[|keys| - 1];
    OM.Put(front, k, OM.Get(front, k, 0) + 1)
  }

  function TypesOf(evals: seq<Evaluation>): (ts: seq<string>)
    ensures |ts| == |evals| && forall i :: 0 <= i < |evals| ==> ts[i] == TypeName(evals[i])
  {
    seq(|evals|, i requires 0 <= i < |evals| => TypeName(evals[i]))
  }

  /** mbti_distribution: the tally of the evaluations' type names. */
  function DistributionOf(evals: seq<Evaluation>): seq<(string, nat)> {
    Tally(TypesOf(evals))
  }

  lemma DistributionSnoc(evals: seq<Evaluation>, e: Evaluation)
    ensures var d := DistributionOf(evals);
      DistributionOf(evals + [e]) == OM.Put(d, TypeName(e), OM.Get(d, TypeName(e), 0) + 1)
  {
    var ts := TypesOf(evals + [e]);
    assert ts[..|ts| - 1] == TypesOf(evals);
  }

  /** total_scores[key] over evals. */
  function TotalOf(evals: seq<Evaluation>, key: string): int {
    if |evals| == 0 then 0 else TotalOf(evals[..|evals| - 1], key) + ScoreOr0(evals[|evals| - 1], key)
  }

  /** total_scores after evals: one running sum per letter. */
  function TotalsOf(evals: seq<Evaluation>): (t: seq<int>)
    ensures |t| == |Letters| && forall j :: 0 <= j < |Letters| ==> t[j] == TotalOf(evals, Letters[j])
  {
    seq(|Letters|, j requires 0 <= j < |Letters| => TotalOf(evals, Letters[j]))
  }

  /** The totals with one evaluation's scores added. */
  function Added(totals: seq<int>, e: Evaluation): (r: seq<int>)
    requires |totals| == |Letters|
    ensures |r| == |Letters|
  {
    seq(|Letters|, j requires 0 <= j < |Letters| => totals[j] + ScoreOr0(e, Letters[j]))
  }

  lemma TotalsSnoc(evals: seq<Evaluation>, e: Evaluation)
    ensures TotalsOf(evals + [e]) == Added(TotalsOf(evals), e)
  {
    assert (evals + [e])[..|evals|] == evals;
  }

  /** The totals after one more evaluation of the list. */
  lemma TotalsStep(evals: seq<Evaluation>, i: nat)
    requires i < |evals|
    ensures TotalsOf(evals[..i + 1]) == Added(TotalsOf(evals[..i]), evals[i])
  {
    assert evals[..i + 1] == evals[..i] + [evals[i]];
    TotalsSnoc(evals[..i], evals[i]);
  }

  /** sorted(..., key=created_at, reverse=True) compares by this order. */
  function NewerFirst(a: Evaluation, b: Evaluation): bool {
    Sorting.StrLe(b.createdAt, a.createdAt)
  }

  /** The statistics dict. average_scores holds the exact quotients. */
  datatype Statistics = Statistics(
    totalEvaluations: nat, distribution: seq<(string, nat)>,
    averageScores: seq<(string, real)>, recent: seq<Evaluation>)

  /** At most the first five of the evaluations sorted newest first. */
  function RecentOf(evals: seq<Evaluation>): seq<Evaluation> {
    var sorted := Sorting.Sort(evals, NewerFirst);
    if |sorted| <= 5 then sorted else sorted[..5]
  }

  function AveragesOf(totals: seq<int>, count: nat): seq<(string, real)>
    requires |totals| == |Letters| && count > 0
  {
    seq(|Letters|, j requires 0 <= j < |Letters| => (Letters[j], totals[j] as real / count as real))
  }

  /** get_evaluation_statistics over one email's evaluations. */
  function StatisticsOf(evals: seq<Evaluation>): Statistics {
    if |evals| == 0 then Statistics(0, [], [], [])
    else Statistics(|evals|, DistributionOf(evals),
                    AveragesOf(TotalsOf(evals), |evals|),
                    RecentOf(evals))
  }

  /** The count of an entry changes the sum by the difference. */
  lemma {:induction false} SumCountsUpdate<K>(d: seq<(K, nat)>, i: nat, x: (K, nat))
    requires i < |d|
    ensures SumCounts(d[i := x]) == SumCounts(d) - d[i].1 + x.1
    decreases |d|
  {
    var e := d[i := x];
    if i < |d| - 1 {
      assert e[..|e| - 1] == d[..|d| - 1][i := x];
      SumCountsUpdate(d[..|d| - 1], i, x);
    } else {
      assert e[..|e| - 1] == d[..|d| - 1];
    }
  }

  /** The tally counts exactly the occurrences of every key. */
  lemma {:induction false} TallyCount<K>(keys: seq<K>, k: K)
    ensures OM.Get(Tally(keys), k, 0) == Count(keys, k)
  {
    if |keys| > 0 {
      var front := Tally(keys[..|keys| - 1]);
      var u := keys[|keys| - 1];
      var n := OM.Get(front, u, 0) + 1;
      assert Tally(keys) == OM.Put(front, u, n);
      TallyCount(keys[..|keys| - 1], k);
      OM.GetPut(front, u, n, k, 0);
      assert Count(keys, k) == Count(keys[..|keys| - 1], k) + (if u == k then 1 else 0);
    }
  }

  /** The counts of a tally sum to the number of keys. */
  lemma {:induction false} TallySum<K>(keys: seq<K>)
    ensures SumCounts(Tally(keys)) == |keys|
  {
    if |keys| > 0 {
      var front := Tally(keys[..|keys| - 1]);
      var u := keys[|keys| - 1];
      var n := OM.Get(front, u, 0) + 1;
      TallySum(keys[..|keys| - 1]);
      if OM.HasKey(front, u) {
        var i := OM.KeyIndex(front, u);
        OM.GetByIndex(front, u, 0);
        assert OM.Put(front, u, n) == front[i := (u, n)];
        SumCountsUpdate(front, i, (u, n));
      } else {
        var r := front + [(u, n)];
        assert r[..|r| - 1] == front;
      }
    }
  }

  /** NewerFirst is a total preorder, so the sort keeps it. */
  lemma NewerFirstTotal()
    ensures Sorting.TotalPreorder(NewerFirst)
  {
    forall a, b ensures NewerFirst(a, b) || NewerFirst(b, a) {
      Sorting.StrLeTotal(a.createdAt, b.createdAt);
    }
    forall a, b, c | NewerFirst(a, b) && NewerFirst(b, c) ensures NewerFirst(a, c) {
      Sorting.StrLeTransitive(c.createdAt, b.createdAt, a.createdAt);
    }
  }

  /** recent_evaluations: the five newest, newest first, drawn from the
    * list, and all of them when there are five or fewer; every evaluation
    * left out is no newer than any that is kept. */
  lemma RecentShape(evals: seq<Evaluation>)
    ensures var r := RecentOf(evals);
      |r| == (if |evals| <= 5 then |evals| else 5) && (|evals| <= 5 ==> multiset(r) == multiset(evals)) &&
      multiset(r) <= multiset(evals) &&
      forall i, j :: 0 <= i < j < |r| ==> Sorting.StrLe(r[j].createdAt, r[i].createdAt)
    ensures var r := RecentOf(evals);
      forall e, i :: (multiset(evals) - multiset(r))[e] > 0 && 0 <= i < |r| ==> Sorting.StrLe(e.createdAt, r[i].createdAt)
  {
    var sorted := Sorting.Sort(evals, NewerFirst);
    NewerFirstTotal();
    Sorting.SortCorrect(evals, NewerFirst);
    if |sorted| > 5 {
      assert sorted == sorted[..5] + sorted[5..];
      assert multiset(sorted) == multiset(sorted[..5]) + multiset(sorted[5..]);
      LeftOutAreOlder(sorted);
    }
  }

  /** In a newest-first list, everything after the first five is no newer
    * than any of those five. */
  lemma LeftOutAreOlder(sorted: seq<Evaluation>)
    requires |sorted| > 5 && Sorting.SortedBy(sorted, NewerFirst)
    ensures forall e, i :: (multiset(sorted) - multiset(sorted[..5]))[e] > 0 && 0 <= i < 5 ==>
      Sorting.StrLe(e.createdAt, sorted[i].createdAt)
  {
    var r, rest := sorted[..5], sorted[5..];
    assert sorted == r + rest;
    assert multiset(sorted) - multiset(r) == multiset(rest);
    forall e, i | (multiset(sorted) - multiset(r))[e] > 0 && 0 <= i < 5
      ensures Sorting.StrLe(e.createdAt, sorted[i].createdAt)
    {
      assert e in rest;
      var k :| 0 <= k < |rest| && rest[k] == e;
      assert sorted[5 + k] == e;
      assert NewerFirst(sorted[i], sorted[5 + k]);
    }
  }

  /** The in-memory store: friend_evaluations and friend_info. */
  class Database {
    var evaluations: map<string, seq<Evaluation>>
    var friendInfo: map<string, FriendInfo>

    constructor()
      ensures evaluations == map[] && friendInfo == map[]
    {
      evaluations := map[];
      friendInfo := map[];
    }

    /** save_evaluation: stamp the record with now and append it. */
    method SaveEvaluation(email: string, data: Evaluation, now: string)
      modifies this`evaluations
      ensures evaluations == WithEvaluation(old(evaluations), email, data.(createdAt := now))
    {
      var list := if email in evaluations then evaluations[email] else [];
      evaluations := evaluations[email := list + [data.(createdAt := now)]];
    }

    /** save_friend_info: replace the email's record with a fresh one. */
    method SaveFriendInfo(email: string, name: string, description: string, myPerspective: string, now: string)
      modifies this`friendInfo
      ensures friendInfo == old(friendInfo)[email := FriendInfo(name, email, description, myPerspective, now, None, None)]
    {
      friendInfo := friendInfo[email := FriendInfo(name, email, description, myPerspective, now, None, None)];
    }

    /** update_actual_mbti: False and no change for an unknown email;
      * otherwise the actual type and its time are set and True returned. */
    method UpdateActualMbti(email: string, actualMbti: string, now: string) returns (updated: bool)
      modifies this`friendInfo
      ensures updated <==> email in old(friendInfo)
      ensures updated ==> friendInfo == old(friendInfo)[email := old(friendInfo)[email].(actualMbti := Some(actualMbti), mbtiUpdatedAt := Some(now))]
      ensures !updated ==> friendInfo == old(friendInfo)
    {
      if email !in friendInfo {
        return false;
      }
      friendInfo := friendInfo[email := friendInfo[email].(actualMbti := Some(actualMbti), mbtiUpdatedAt := Some(now))];
      updated := true;
    }

    /** get_friend_info. */
    function FriendInfoOf(email: string): (r: Option<FriendInfo>)
      reads this
      ensures r.Some? <==> email in friendInfo
      ensures r.Some? ==> r.value == friendInfo[email]
    {
      if email in friendInfo then Some(friendInfo[email]) else None
    }

    /** The inner loop of get_evaluation_statistics: add one evaluation's
      * score of every letter to the running totals. */
    static method AddScores(totals: seq<int>, e: Evaluation) returns (r: seq<int>)
      requires |totals| == |Letters|
      ensures r == Added(totals, e)
    {
      r := totals;
      var k := 0;
      while k < |Letters|
        invariant 0 <= k <= |Letters| && |r| == |Letters|
        invariant forall j :: 0 <= j < k ==> r[j] == totals[j] + ScoreOr0(e, Letters[j])
        invariant forall j :: k <= j < |Letters| ==> r[j] == totals[j]
      {
        r := r[k := r[k] + ScoreOr0(e, Letters[k])];
        k := k + 1;
      }
    }

    /** The loop of get_evaluation_statistics: one pass counting the types
      * and summing the scores of every letter. */
    static method Accumulate(evals: seq<Evaluation>) returns (distribution: seq<(string, nat)>, totals: seq<int>)
      ensures distribution == DistributionOf(evals)
      ensures totals == TotalsOf(evals)
    {
      distribution := [];
      totals := seq(|Letters|, j => 0);
      assert totals == TotalsOf([]);
      ghost var types := TypesOf(evals);
      var i := 0;
      while i < |evals|
        invariant 0 <= i <= |evals|
        invariant distribution == Tally(types[..i])
        invariant totals == TotalsOf(evals[..i])
      {
        var e := evals[i];
        var t := TypeName(e);
        assert types[..i + 1][..i] == types[..i] && types[i] == t;
        distribution := OM.Put(distribution, t, OM.Get(distribution, t, 0) + 1);
        TotalsStep(evals, i);
        totals := AddScores(totals, e);
        i := i + 1;
      }
      assert types[..i] == types && evals[..i] == evals;
    }

    /** get_evaluation_statistics: empty statistics for an email without
      * evaluations; otherwise the counts and sums of one pass, the averages
      * and the five newest. */
    method EvaluationStatistics(email: string) returns (stats: Statistics)
      ensures stats == StatisticsOf(ListOf(evaluations, email))
    {
      var evals := if email in evaluations then evaluations[email] else [];
      if |evals| == 0 {
        return Statistics(0, [], [], []);
      }
      var distribution, totals := Accumulate(evals);
      stats := Statistics(|evals|, distribution, AveragesOf(totals, |evals|), RecentOf(evals));
    }
  }

  /** The statistics of an email without evaluations are empty; otherwise
    * the total is the list length, the distribution counts each type and
    * sums to it, and each average is the letter's total over the count. */
  lemma StatisticsShape(evals: seq<Evaluation>, t: string)
    ensures var s := StatisticsOf(evals);
      s.totalEvaluations == |evals| &&
      (|evals| == 0 ==> s == Statistics(0, [], [], [])) &&
      (|evals| > 0 ==>
        SumCounts(s.distribution) == |evals| && OM.Get(s.distribution, t, 0) == Count(TypesOf(evals), t) &&
        |s.averageScores| == |Letters| && s.recent == RecentOf(evals) &&
        forall j :: 0 <= j < |Letters| ==>
          s.averageScores[j] == (Letters[j], TotalOf(evals, Letters[j]) as real / |evals| as real))
  {
    TallyCount(TypesOf(evals), t);
    TallySum(TypesOf(evals));
  }
}

// The two question-bank audit scripts (scripts/audit_friend_module.py and
// scripts/audit_work_module.py): refuse repeated ids, count items per axis
// and pole, flag items whose keyed pole, sign or reverse flag disagree, and
// warn about the item count and the share of reverse-keyed items. A flagged
// item without an "id" key stops a run with KeyError. What the scripts print
// is modelled as the fields of a report.
module Audits {
  import opened Wrappers

  /** The "id" key of an item: missing, JSON null, or a string. */
  datatype ItemId = NoId | NullId | Id(value: string)

  /** One item of the audited list; apart from the id, a key that is missing
    * or null reads as None, and reverse_keyed is taken by its truth value. */
  datatype AuditItem = AuditItem(id: ItemId, dim: Option<string>, pole: Option<string>,
                                 sign: Option<int>, reverseKeyed: bool)

  /** item.get("id"): None for a missing key as for null. */
  function GetId(id: ItemId): Option<string> {
    match id
    case Id(v) => Some(v)
    case _ => None
  }

  /** item["id"] on an item that has the key (a missing key raises
    * KeyError, see Unlisted). */
  function IndexId(id: ItemId): Option<string> {
    if id.Id? then Some(id.value) else None
  }

  /** POLE_SIGN.get(pole). */
  function PoleSign(pole: Option<string>): Option<int> {
    match pole
    case None => None
    case Some(p) =>
      if p in {"E", "S", "T", "J"} then Some(1)
      else if p in {"I", "N", "F", "P"} then Some(-1)
      else None
  }

  /** DIM_POLES.get(dim, set()). */
  function DimPoles(dim: Option<string>): set<string> {
    match dim
    case None => {}
    case Some(d) =>
      if d == "EI" then {"E", "I"}
      else if d == "SN" then {"S", "N"}
      else if d == "TF" then {"T", "F"}
      else if d == "JP" then {"J", "P"}
      else {}
  }

  /** The pole a reverse-keyed item should be keyed to. */
  predicate ReversePole(pole: Option<string>) {
    pole.Some? && pole.value in {"I", "N", "F", "P"}
  }

  /** bad_dim's test: the keyed pole is not one of the axis's poles. */
  predicate BadDim(item: AuditItem) {
    !(item.pole.Some? && item.pole.value in DimPoles(item.dim))
  }

  /** bad_sign's test: the pole's sign and the item's sign differ (None
    * against None counts as equal). */
  predicate BadSign(item: AuditItem) {
    PoleSign(item.pole) != item.sign
  }

  /** bad_rev's test: the reverse flag disagrees with the pole. */
  predicate BadRev(item: AuditItem) {
    item.reverseKeyed != ReversePole(item.pole)
  }

  // ---------------------------------------------------------------- counting

  /** Counter(keys): how often each key occurs. */
  function Counts<K(!new)>(keys: seq<K>): (m: map<K, nat>)
    ensures forall k :: k in m <==> k in keys
    ensures forall k :: k in m ==> m[k] == multiset(keys)[k]
  {
    if |keys| == 0 then map[] else
    var front := Counts(keys[..|keys| - 1]);
    var last := keys[|keys| - 1];
    assert keys == keys[..|keys| - 1] + [last];
    assert forall k :: k in keys <==> k in keys[..|keys| - 1] || k == last;
    front[last := if last in front then front[last] + 1 else 1]
  }

  function Ids(items: seq<AuditItem>): (r: seq<Option<string>>)
    ensures |r| == |items| && forall k :: 0 <= k < |items| ==> r[k] == GetId(items[k].id)
  {
    seq(|items|, k requires 0 <= k < |items| => GetId(items[k].id))
  }

  function Dims(items: seq<AuditItem>): (r: seq<Option<string>>)
    ensures |r| == |items| && forall k :: 0 <= k < |items| ==> r[k] == items[k].dim
  {
    seq(|items|, k requires 0 <= k < |items| => items[k].dim)
  }

  function Poles(items: seq<AuditItem>): (r: seq<Option<string>>)
    ensures |r| == |items| && forall k :: 0 <= k < |items| ==> r[k] == items[k].pole
  {
    seq(|items|, k requires 0 <= k < |items| => items[k].pole)
  }

  /** The ids that occur more than once; None (no id, or a null one) is an
    * id like any other. */
  function Duplicates(items: seq<AuditItem>): set<Option<string>> {
    var counts := Counts(Ids(items));
    set id | id in counts && counts[id] > 1
  }

  /** The duplicate check fires exactly when two items share an id as get
    * reads it, so two items without an id count as a repeated None. */
  lemma DuplicatesIff(items: seq<AuditItem>)
    ensures Duplicates(items) == {} <==> forall a, b :: 0 <= a < b < |items| ==> GetId(items[a].id) != GetId(items[b].id)
  {
    var ids := Ids(items);
    if exists a, b :: 0 <= a < b < |items| && GetId(items[a].id) == GetId(items[b].id) {
      var a, b :| 0 <= a < b < |items| && GetId(items[a].id) == GetId(items[b].id);
      assert ids[a] == ids[b];
      CountTwice(ids, a, b);
      assert ids[a] in Duplicates(items);
    } else if Duplicates(items) != {} {
      var id :| id in Duplicates(items);
      CountsAtMostOnce(ids, id);
    }
  }

  lemma CountTwice<T>(s: seq<T>, a: nat, b: nat)
    requires a < b < |s| && s[a] == s[b]
    ensures multiset(s)[s[a]] >= 2
  {
    assert s == s[..a] + [s[a]] + s[a + 1..b] + [s[b]] + s[b + 1..];
  }

  lemma {:induction false} CountsAtMostOnce<T>(s: seq<T>, x: T)
    requires forall a, b :: 0 <= a < b < |s| ==> s[a] != s[b]
    ensures multiset(s)[x] <= 1
  {
    if |s| > 0 {
      var front := s[..|s| - 1];
      CountsAtMostOnce(front, x);
      assert s == front + [s[|s| - 1]];
      if s[|s| - 1] == x {
        assert forall k :: 0 <= k < |front| ==> front[k] != x;
        assert x !in front;
      }
    }
  }

  /** One more (dim, pole) pair counted: per_dim[dim][pole] += 1. */
  function Bump(perDim: map<Option<string>, map<Option<string>, nat>>, dim: Option<string>, pole: Option<string>)
    : map<Option<string>, map<Option<string>, nat>>
  {
    var row := if dim in perDim then perDim[dim] else map[];
    perDim[dim := row[pole := if pole in row then row[pole] + 1 else 1]]
  }

  /** per_dim after the items: for every axis, how often each pole occurs. */
  function PerDimOf(items: seq<AuditItem>): map<Option<string>, map<Option<string>, nat>> {
    if |items| == 0 then map[] else
    var last := items[|items| - 1];
    Bump(PerDimOf(items[..|items| - 1]), last.dim, last.pole)
  }

  function Pairs(items: seq<AuditItem>): (r: seq<(Option<string>, Option<string>)>)
    ensures |r| == |items| && forall k :: 0 <= k < |items| ==> r[k] == (items[k].dim, items[k].pole)
  {
    seq(|items|, k requires 0 <= k < |items| => (items[k].dim, items[k].pole))
  }

  /** per_dim[dim][pole] is the number of items keyed to that pole on that
    * axis, and only pairs that occur are present. */
  lemma {:induction false} PerDimCounts(items: seq<AuditItem>, dim: Option<string>, pole: Option<string>)
    ensures var m := PerDimOf(items);
      (dim in m && pole in m[dim]) <==> (dim, pole) in Pairs(items)
    ensures var m := PerDimOf(items);
      dim in m && pole in m[dim] ==> m[dim][pole] == multiset(Pairs(items))[(dim, pole)]
  {
    if |items| > 0 {
      var front := items[..|items| - 1];
      PerDimCounts(front, dim, pole);
      var last := items[|items| - 1];
      assert Pairs(items) == Pairs(front) + [(last.dim, last.pole)];
    }
  }

  /** The ids of the items the test flags, in their order. */
  function FlaggedIds(items: seq<AuditItem>, flag: AuditItem -> bool): seq<Option<string>> {
    if |items| == 0 then [] else
    var front := FlaggedIds(items[..|items| - 1], flag);
    var last := items[|items| - 1];
    if flag(last) then front + [IndexId(last.id)] else front
  }

  /** An item one of the three tests flags although it has no "id" key:
    * appending item["id"] raises KeyError. */
  predicate Unlisted(item: AuditItem) {
    item.id.NoId? && (BadDim(item) || BadSign(item) || BadRev(item))
  }

  /** Whether listing the flagged items raises KeyError. */
  predicate AnyUnlisted(items: seq<AuditItem>) {
    exists k :: 0 <= k < |items| && Unlisted(items[k])
  }

  /** The positions of the flagged items, ascending. */
  function FlaggedAt(items: seq<AuditItem>, flag: AuditItem -> bool): (ps: seq<nat>)
    ensures forall j :: 0 <= j < |ps| ==> ps[j] < |items| && flag(items[ps[j]])
    ensures forall k :: 0 <= k < |items| && flag(items[k]) ==> k in ps
    ensures forall a, b :: 0 <= a < b < |ps| ==> ps[a] < ps[b]
  {
    if |items| == 0 then [] else
    var front := FlaggedAt(items[..|items| - 1], flag);
    if flag(items[|items| - 1]) then front + [|items| - 1] else front
  }

  /** The j-th flagged id is the id of the j-th flagged item: every flagged
    * item is listed once, nothing else is, and input order is kept. */
  lemma {:induction false} FlaggedIdsInOrder(items: seq<AuditItem>, flag: AuditItem -> bool)
    ensures var ids := FlaggedIds(items, flag); var ps := FlaggedAt(items, flag);
      |ids| == |ps| && forall j :: 0 <= j < |ps| ==> ids[j] == IndexId(items[ps[j]].id)
  {
    if |items| > 0 {
      FlaggedIdsInOrder(items[..|items| - 1], flag);
    }
  }

  /** sum(1 for item in items if item.get("reverse_keyed")). */
  function ReverseCount(items: seq<AuditItem>): (n: nat)
    ensures n <= |items|
  {
    if |items| == 0 then 0
    else ReverseCount(items[..|items| - 1]) + (if items[|items| - 1].reverseKeyed then 1 else 0)
  }

  // ---------------------------------------------------------------- reports

  /** What an audit run shows. reverseShare is reverse_count / total, absent
    * when it is not printed; passed is the work script's all-clear line. */
  datatype Report = Report(
    total: nat,
    reverseCount: nat,
    reverseShare: Option<real>,
    dimCounts: map<Option<string>, nat>,
    poleCounts: map<Option<string>, nat>,
    perDim: map<Option<string>, map<Option<string>, nat>>,
    badDim: seq<Option<string>>,
    badSign: seq<Option<string>>,
    badRev: seq<Option<string>>,
    passed: bool,
    countWarning: bool,
    ratioWarning: bool)

  /** Why a run stops: repeated ids (SystemExit, or exit status 1), the
    * KeyError of a flagged item without an id, or the ZeroDivisionError of
    * reverse_count / total on an empty list. */
  datatype AuditError = DuplicateIds(ids: set<Option<string>>) | MissingId | ZeroDivision

  /** 40 <= total <= 56, the recommended item count. */
  predicate CountInRange(total: nat) {
    40 <= total <= 56
  }

  /** The report both scripts build from a list without repeated ids; the
    * share is printed and compared only when the list is non-empty. */
  function ReportOf(items: seq<AuditItem>): Report {
    var total := |items|;
    var reverse := ReverseCount(items);
    var badDim := FlaggedIds(items, BadDim);
    var badSign := FlaggedIds(items, BadSign);
    var badRev := FlaggedIds(items, BadRev);
    Report(total, reverse,
           if total > 0 then Some(reverse as real / total as real) else None,
           Counts(Dims(items)), Counts(Poles(items)), PerDimOf(items),
           badDim, badSign, badRev,
           badDim == [] && badSign == [] && badRev == [],
           !CountInRange(total),
           total > 0 && reverse as real / total as real < 0.4)
  }

  // ---------------------------------------------------------------- friend

  /** What the classification loop of the friend audit collects. */
  datatype Scan = Scan(perDim: map<Option<string>, map<Option<string>, nat>>, badDim: seq<Option<string>>,
                       badSign: seq<Option<string>>, badRev: seq<Option<string>>)

  /** The classification loop of the friend audit: count the (dim, pole)
    * pairs and collect the three kinds of flagged ids; a flagged item
    * without an id raises KeyError. */
  method FriendScan(items: seq<AuditItem>) returns (r: Result<Scan, AuditError>)
    ensures r.Err? <==> AnyUnlisted(items)
    ensures r.Err? ==> r.error == MissingId
    ensures r.Ok? ==> r.value == Scan(PerDimOf(items), FlaggedIds(items, BadDim), FlaggedIds(items, BadSign),
                                      FlaggedIds(items, BadRev))
  {
    var perDim := map[];
    var badDim, badSign, badRev := [], [], [];
    var i := 0;
    while i < |items|
      invariant 0 <= i <= |items|
      invariant forall k :: 0 <= k < i ==> !Unlisted(items[k])
      invariant perDim == PerDimOf(items[..i])
      invariant badDim == FlaggedIds(items[..i], BadDim)
      invariant badSign == FlaggedIds(items[..i], BadSign)
      invariant badRev == FlaggedIds(items[..i], BadRev)
    {
      var item := items[i];
      assert items[..i + 1][..i] == items[..i] && items[..i + 1][i] == item;
      var row := if item.dim in perDim then perDim[item.dim] else map[];
      perDim := perDim[item.dim := row[item.pole := if item.pole in row then row[item.pole] + 1 else 1]];
      if !(item.pole.Some? && item.pole.value in DimPoles(item.dim)) {
        if item.id.NoId? {
          assert Unlisted(items[i]);
          return Err(MissingId);
        }
        badDim := badDim + [IndexId(item.id)];
      }
      if PoleSign(item.pole) != item.sign {
        if item.id.NoId? {
          assert Unlisted(items[i]);
          return Err(MissingId);
        }
        badSign := badSign + [IndexId(item.id)];
      }
      var expectedReverse := item.pole.Some? && item.pole.value in {"I", "N", "F", "P"};
      if item.reverseKeyed != expectedReverse {
        if item.id.NoId? {
          assert Unlisted(items[i]);
          return Err(MissingId);
        }
        badRev := badRev + [IndexId(item.id)];
      }
      i := i + 1;
    }
    assert items[..i] == items;
    r := Ok(Scan(perDim, badDim, badSign, badRev));
  }

  /** audit() of the friend script as written: the share is printed
    * (line 49) before the guarded comparison (line 65), so an empty list
    * raises. */
  function FriendAuditAsWritten(items: seq<AuditItem>): Result<Report, AuditError> {
    if Duplicates(items) != {} then Err(DuplicateIds(Duplicates(items)))
    else if AnyUnlisted(items) then Err(MissingId)
    else if |items| == 0 then Err(ZeroDivision)
    else Ok(ReportOf(items))
  }

  /** audit() of the friend script as its guard intends: the share is shown
    * only for a non-empty list, so every list without repeated ids and
    * without a flagged item lacking an id gets a report. */
  method FriendAudit(items: seq<AuditItem>) returns (r: Result<Report, AuditError>)
    ensures Duplicates(items) != {} ==> r == Err(DuplicateIds(Duplicates(items)))
    ensures Duplicates(items) == {} && AnyUnlisted(items) ==> r == Err(MissingId)
    ensures Duplicates(items) == {} && !AnyUnlisted(items) ==> r == Ok(ReportOf(items))
  {
    var dups := Duplicates(items);
    if dups != {} {
      return Err(DuplicateIds(dups));
    }
    var scan := FriendScan(items);
    if scan.Err? {
      return Err(scan.error);
    }
    var total := |items|;
    var reverse := ReverseCount(items);
    var share := if total > 0 then Some(reverse as real / total as real) else None;
    var Scan(perDim, badDim, badSign, badRev) := scan.value;
    r := Ok(Report(total, reverse, share, Counts(Dims(items)), Counts(Poles(items)), perDim,
                   badDim, badSign, badRev, badDim == [] && badSign == [] && badRev == [],
                   !(40 <= total <= 56), total > 0 && reverse as real / total as real < 0.4));
  }

  /** The empty list: the script as written dies dividing by zero, while the
    * guarded audit reports it with the count warning and no ratio warning. */
  lemma EmptyListFinding()
    ensures FriendAuditAsWritten([]) == Err(ZeroDivision)
    ensures ReportOf([]).countWarning && !ReportOf([]).ratioWarning && ReportOf([]).reverseShare.None?
  {
    assert Duplicates([]) == {};
  }

  /** Away from the empty list the two readings agree. */
  lemma FriendReadingsAgree(items: seq<AuditItem>)
    requires |items| > 0
    ensures Duplicates(items) != {} ==> FriendAuditAsWritten(items) == Err(DuplicateIds(Duplicates(items)))
    ensures Duplicates(items) == {} && AnyUnlisted(items) ==> FriendAuditAsWritten(items) == Err(MissingId)
    ensures Duplicates(items) == {} && !AnyUnlisted(items) ==> FriendAuditAsWritten(items) == Ok(ReportOf(items))
  {
  }

  /** Two items without an id (missing or null) are read as the same id
    * None, so the duplicate check stops the run: at most one item without
    * an id ever reaches the classification. */
  lemma TwoWithoutId(items: seq<AuditItem>, a: nat, b: nat)
    requires a < b < |items| && GetId(items[a].id).None? && GetId(items[b].id).None?
    ensures None in Duplicates(items)
  {
    var ids := Ids(items);
    assert ids[a] == None == ids[b];
    CountTwice(ids, a, b);
  }

  // ---------------------------------------------------------------- work

  /** The per_dim_pole loop of the work audit. */
  method CountPerDim(items: seq<AuditItem>) returns (perDim: map<Option<string>, map<Option<string>, nat>>)
    ensures perDim == PerDimOf(items)
  {
    perDim := map[];
    var i := 0;
    while i < |items|
      invariant 0 <= i <= |items|
      invariant perDim == PerDimOf(items[..i])
    {
      var item := items[i];
      assert items[..i + 1][..i] == items[..i] && items[..i + 1][i] == item;
      perDim := Bump(perDim, item.dim, item.pole);
      i := i + 1;
    }
    assert items[..i] == items;
  }

  /** audit() of the work script: repeated ids end the run, a flagged item
    * without an id raises KeyError, an empty list divides by zero when the
    * share is printed, anything else is reported. */
  function WorkAuditOf(items: seq<AuditItem>): Result<Report, AuditError> {
    if Duplicates(items) != {} then Err(DuplicateIds(Duplicates(items)))
    else if AnyUnlisted(items) then Err(MissingId)
    else if |items| == 0 then Err(ZeroDivision)
    else Ok(ReportOf(items))
  }

  method WorkAudit(items: seq<AuditItem>) returns (r: Result<Report, AuditError>)
    ensures r == WorkAuditOf(items)
  {
    var dups := Duplicates(items);
    if dups != {} {
      return Err(DuplicateIds(dups));
    }
    var total := |items|;
    var reverse := ReverseCount(items);
    if AnyUnlisted(items) {
      return Err(MissingId);
    }
    var badDim := FlaggedIds(items, BadDim);
    var badSign := FlaggedIds(items, BadSign);
    var badRev := FlaggedIds(items, BadRev);
    var perDim := CountPerDim(items);
    if total == 0 {
      return Err(ZeroDivision);
    }
    var share := reverse as real / total as real;
    r := Ok(Report(total, reverse, Some(share), Counts(Dims(items)), Counts(Poles(items)), perDim,
                   badDim, badSign, badRev, badDim == [] && badSign == [] && badRev == [],
                   !(40 <= total <= 56), share < 0.4));
  }

  // ---------------------------------------------------------------- properties

  /** An item is flagged for its axis exactly when its pole is not one of
    * the axis's two, for its sign exactly when the sign differs from the
    * pole's, and for its reverse flag exactly when the flag disagrees with
    * the pole being I, N, F or P. */
  lemma FlagsIff(items: seq<AuditItem>, k: nat)
    requires k < |items|
    ensures BadDim(items[k]) <==> k in FlaggedAt(items, BadDim)
    ensures BadSign(items[k]) <==> k in FlaggedAt(items, BadSign)
    ensures BadRev(items[k]) <==> k in FlaggedAt(items, BadRev)
  {
  }

  /** An unknown pole (or none) fails the axis test on every axis, and the
    * sign test exactly when the item has a sign: None matches None. */
  lemma UnknownPole(item: AuditItem)
    requires item.pole.None? || item.pole.value !in {"E", "I", "S", "N", "T", "F", "J", "P"}
    ensures BadDim(item)
    ensures BadSign(item) <==> item.sign.Some?
    ensures BadRev(item) <==> item.reverseKeyed
  {
  }

  /** A well-formed item passes all three tests: pole of its axis, the
    * pole's sign, reverse-keyed exactly for I, N, F and P; so even without
    * an id it is never the cause of a KeyError. */
  lemma WellFormedPasses(dim: string, pole: string, sign: int, reverseKeyed: bool)
    requires dim in {"EI", "SN", "TF", "JP"} && pole in DimPoles(Some(dim))
    requires sign == (if pole in {"E", "S", "T", "J"} then 1 else -1)
    requires reverseKeyed == (pole in {"I", "N", "F", "P"})
    ensures var item := AuditItem(NoId, Some(dim), Some(pole), Some(sign), reverseKeyed);
      !BadDim(item) && !BadSign(item) && !BadRev(item) && !Unlisted(item)
  {
  }

  /** A flag's list is empty exactly when no item carries the flag. */
  lemma {:induction false} NoneFlagged(items: seq<AuditItem>, flag: AuditItem -> bool)
    ensures FlaggedIds(items, flag) == [] <==> forall k :: 0 <= k < |items| ==> !flag(items[k])
  {
    if |items| > 0 {
      var front := items[..|items| - 1];
      NoneFlagged(front, flag);
      assert forall k :: 0 <= k < |front| ==> front[k] == items[k];
    }
  }

  /** The all-clear line appears exactly when no item is flagged. */
  lemma PassedIff(items: seq<AuditItem>)
    ensures ReportOf(items).passed <==>
      forall k :: 0 <= k < |items| ==> !BadDim(items[k]) && !BadSign(items[k]) && !BadRev(items[k])
  {
    NoneFlagged(items, BadDim);
    NoneFlagged(items, BadSign);
    NoneFlagged(items, BadRev);
  }

  /** The count warning appears exactly outside 40..56 items, and the ratio
    * warning exactly when fewer than 40% of a non-empty list are
    * reverse-keyed. */
  lemma WarningsIff(items: seq<AuditItem>)
    ensures ReportOf(items).countWarning <==> !(40 <= |items| <= 56)
    ensures ReportOf(items).ratioWarning <==> |items| > 0 && 10 * ReverseCount(items) < 4 * |items|
  {
    if |items| > 0 {
      ShareBelow(ReverseCount(items), |items|);
    }
  }

  lemma ShareBelow(reverse: nat, total: nat)
    requires total > 0
    ensures reverse as real / total as real < 0.4 <==> 10 * reverse < 4 * total
  {
    var r := reverse as real;
    var t := total as real;
    var q := r / t;
    assert q * t == r;
    assert (0.4 - q) * t == 0.4 * t - r;
    PositiveFactor(0.4 - q, t);
    assert q < 0.4 <==> 0.4 * t - r > 0.0;
    assert 0.4 * t - r > 0.0 <==> 10.0 * r < 4.0 * t;
    assert (10 * reverse) as real == 10.0 * r && (4 * total) as real == 4.0 * t;
    assert 10 * reverse < 4 * total <==> 10.0 * r < 4.0 * t;
  }

  lemma PositiveFactor(a: real, b: real)
    requires b > 0.0
    ensures a > 0.0 <==> a * b > 0.0
  {
    if a <= 0.0 {
      assert a * b <= 0.0 * b;
    }
  }
}

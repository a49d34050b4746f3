// The result endpoint (app/routers/results.py): recalculate a session's
// aggregate and return it, hiding the other-side columns of a non-couple
// session until three raters have answered.
module Results {
  import opened Wrappers
  import opened Scoring
  import R = Responses
  import Agg = Aggregator

  /** Raters a non-couple session needs before the other side is shown. */
  const PublishThreshold: nat := 3

  /** The ResultDetail response. */
  datatype ResultDetail = ResultDetail(
    sessionId: string, mode: string, n: nat,
    selfNorm: Norms, otherNorm: Option<Norms>, gap: Option<Norms>,
    variance: Option<Norms>, gapScore: Option<real>,
    radarSelf: Norms, radarOther: Option<Norms>)

  datatype ResultError = InviteNotFound | ScoringFailed(cause: ScoringError)

  /** The other side is published for a couple session, and otherwise only
    * from three surviving raters on. */
  predicate PublishOther(mode: string, n: nat) {
    !(mode != "couple" && n < PublishThreshold)
  }

  /** The response built from a recalculated aggregate. */
  function DetailOf(a: Agg.AggregateResult): (d: ResultDetail)
    ensures d.sessionId == a.sessionId && d.mode == a.mode && d.n == a.n
    ensures d.selfNorm == a.selfNorm && d.radarSelf == a.radarSelf
    ensures PublishOther(a.mode, a.n) ==>
      d.otherNorm == a.otherNorm && d.gap == a.gap && d.variance == a.variance &&
      d.gapScore == a.gapScore && d.radarOther == a.radarOther
    ensures !PublishOther(a.mode, a.n) ==>
      d.otherNorm.None? && d.gap.None? && d.variance.None? && d.gapScore.None? && d.radarOther.None?
  {
    var publish := PublishOther(a.mode, a.n);
    ResultDetail(a.sessionId, a.mode, a.n, a.selfNorm,
                 if publish then a.otherNorm else None,
                 if publish then a.gap else None,
                 if publish then a.variance else None,
                 if publish then a.gapScore else None,
                 a.radarSelf,
                 if publish then a.radarOther else None)
  }

  /** What fetch_result answers for the session found by the invite token
    * (None when no session has it). */
  function ResultOf(session: Option<R.SessionRecord>, lookup: map<int, Keying>,
                    selfRows: seq<R.SelfRow>, otherRows: seq<R.OtherRow>): Result<ResultDetail, ResultError>
  {
    match session
    case None => Err(InviteNotFound)
    case Some(s) =>
      match Agg.AggregateOf(s.id, s.mode, lookup, R.SelfAnswersOf(selfRows, s.id), R.OtherRowsOf(otherRows, s.id))
      case Err(e) => Err(ScoringFailed(e))
      case Ok(a) => Ok(DetailOf(a))
  }

  /** fetch_result: 404 for an unknown invite token, 400 when the aggregate
    * does not score; otherwise the session's aggregate row is rewritten and
    * committed, and the detail returned. */
  method FetchResult(store: R.ResponseStore, session: Option<R.SessionRecord>, lookup: map<int, Keying>)
    returns (r: Result<ResultDetail, ResultError>)
    modifies store.aggregates`rows
    ensures r == ResultOf(session, lookup, store.selfRows, store.otherRows)
    ensures r.Ok? ==>
      var s := session.value;
      store.aggregates.rows == old(store.aggregates.rows)[s.id := Agg.RowOf(
        Agg.AggregateOf(s.id, s.mode, lookup, R.SelfAnswersOf(store.selfRows, s.id), R.OtherRowsOf(store.otherRows, s.id)).value)]
    ensures r.Err? ==> store.aggregates.rows == old(store.aggregates.rows)
  {
    if session.None? {
      return Err(InviteNotFound);
    }
    var s := session.value;
    var aggregate := store.aggregates.Recalculate(s.id, s.mode, lookup, R.SelfAnswersOf(store.selfRows, s.id),
                                                  R.OtherRowsOf(store.otherRows, s.id));
    if aggregate.Err? {
      return Err(ScoringFailed(aggregate.error));
    }
    r := Ok(DetailOf(aggregate.value));
  }

  /** The other-side columns of a result are all present or all absent; they
    * are present exactly when the aggregate has surviving raters and the
    * session is a couple session or has at least three of them. */
  lemma PublishedOnlyWhenAllowed(session: Option<R.SessionRecord>, lookup: map<int, Keying>,
                                 selfRows: seq<R.SelfRow>, otherRows: seq<R.OtherRow>)
    ensures var r := ResultOf(session, lookup, selfRows, otherRows);
      r.Ok? ==>
        (r.value.otherNorm.Some? <==> r.value.n > 0 && PublishOther(r.value.mode, r.value.n)) &&
        r.value.gap.Some? == r.value.otherNorm.Some? &&
        r.value.variance.Some? == r.value.otherNorm.Some? &&
        r.value.gapScore.Some? == r.value.otherNorm.Some? &&
        r.value.radarOther.Some? == r.value.otherNorm.Some?
  {
    if session.Some? {
      var s := session.value;
      Agg.AggregateShape(s.id, s.mode, lookup, R.SelfAnswersOf(selfRows, s.id), R.OtherRowsOf(otherRows, s.id));
    }
  }

  /** A result fails exactly when there is no session, or its self rows are
    * missing or do not score; on success the self norms are those of the
    * session's self answers. */
  lemma ResultErrors(session: Option<R.SessionRecord>, lookup: map<int, Keying>,
                     selfRows: seq<R.SelfRow>, otherRows: seq<R.OtherRow>)
    ensures var r := ResultOf(session, lookup, selfRows, otherRows);
      (r == Err(InviteNotFound) <==> session.None?) &&
      (session.Some? ==>
        var selfAnswers := R.SelfAnswersOf(selfRows, session.value.id);
        (r.Err? <==> |selfAnswers| == 0 || NormsOf(selfAnswers, lookup).Err?) &&
        (|selfAnswers| == 0 ==> r == Err(ScoringFailed(SelfResponsesMissing))) &&
        (r.Ok? ==> r.value.selfNorm == NormsOf(selfAnswers, lookup).value && r.value.sessionId == session.value.id))
  {
    if session.Some? {
      var s := session.value;
      Agg.AggregateShape(s.id, s.mode, lookup, R.SelfAnswersOf(selfRows, s.id), R.OtherRowsOf(otherRows, s.id));
    }
  }
}

// The pure parts of the health endpoints (app/routers/health.py): the
// readiness verdict over the dependency checks, and the truncation of an
// error detail. The probes themselves talk to the network and are not
// part of this model.
module Health {
  import opened Wrappers

  /** Python's s[:stop] for any integer stop: a negative stop counts from
    * the end, and the slice is clipped to the string. */
  function PrefixTo(s: string, stop: int): (r: string)
    ensures |r| <= |s| && r == s[..|r|]
    ensures stop >= 0 ==> |r| == if stop <= |s| then stop else |s|
    ensures stop < 0 ==> |r| == if -stop <= |s| then |s| + stop else 0
  {
    if stop >= 0 then (if stop <= |s| then s[..stop] else s)
    else if -stop <= |s| then s[..|s| + stop]
    else []
  }

  /** _truncate: a detail no longer than the limit is kept, a longer one is
    * cut to limit - 3 characters followed by "...". */
  function Truncate(detail: string, limit: int): string {
    if |detail| <= limit then detail else PrefixTo(detail, limit - 3) + "..."
  }

  /** With a limit of at least 3 the result fits the limit, filling it exactly
    * when it was cut; a cut result is a prefix of the detail followed by the
    * ellipsis. */
  lemma TruncateFits(detail: string, limit: int)
    requires limit >= 3
    ensures var r := Truncate(detail, limit);
      |r| <= limit &&
      (|detail| <= limit <==> r == detail) &&
      (|detail| > limit ==> |r| == limit && r == detail[..limit - 3] + "...")
  {
    if |detail| > limit {
      var r := Truncate(detail, limit);
      assert |r| == limit - 3 + 3;
      assert r != detail;
    }
  }

  /** The status a dependency check reports, absent when its dict has none. */
  datatype Check = Check(name: string, status: Option<string>)

  datatype Readiness = Readiness(status: string, statusCode: int)

  /** readyz: ready with 200 when every check reports "ok", degraded with
    * 503 otherwise. */
  function ReadinessOf(checks: seq<Check>): (r: Readiness)
    ensures r.statusCode == 200 <==> forall i :: 0 <= i < |checks| ==> checks[i].status == Some("ok")
    ensures r.statusCode == 200 || r.statusCode == 503
    ensures r.status == (if r.statusCode == 200 then "ready" else "degraded")
  {
    if AllOk(checks) then Readiness("ready", 200) else Readiness("degraded", 503)
  }

  predicate AllOk(checks: seq<Check>)
    ensures AllOk(checks) <==> forall i :: 0 <= i < |checks| ==> checks[i].status == Some("ok")
  {
    |checks| == 0 || (checks[0].status == Some("ok") && AllOk(checks[1..]))
  }
}

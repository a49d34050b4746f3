// Share invites of the calculation service (calculate-service
// app/invite_service.py): the score summary carried by an invite, the
// invite session with its expiry, and the in-memory store keyed by token
// that drops sessions once they expire. Times are whole seconds since an
// epoch; the clock, the random token and isoformat() are parameters.
module InviteService {
  import opened Wrappers
  import opened JsonValues
  import MainScoring

  // ---- InviteSummary -------------------------------------------------------

  datatype InviteSummary = InviteSummary(total: int, correct: int)

  /** accuracy: 0 without questions, otherwise the percentage of correct
    * answers rounded half to even and clamped to 0..100. */
  function Accuracy(s: InviteSummary): (r: int)
    ensures 0 <= r <= 100
    ensures s.total <= 0 ==> r == 0
  {
    if s.total <= 0 then 0
    else MainScoring.Clamp(MainScoring.RoundHalfEven((s.correct as real / s.total as real) * 100.0))
  }

  /** With at least one question and no more correct answers than questions,
    * accuracy is the whole percentage nearest to 100·correct/total: it is
    * off by at most half a question's share. */
  lemma AccuracyNearest(s: InviteSummary)
    requires s.total > 0 && 0 <= s.correct <= s.total
    ensures var a := Accuracy(s);
      2 * (a * s.total - 100 * s.correct) <= s.total && 2 * (100 * s.correct - a * s.total) <= s.total
  {
    AccuracyUnclamped(s);
    ScaledNearest(Accuracy(s), s.correct, s.total);
  }

  /** A whole number n within a half of 100·c/t is within t/2 of 100·c
    * once scaled by t. */
  lemma ScaledNearest(n: int, c: int, t: int)
    requires t > 0
    requires -0.5 <= (c as real / t as real) * 100.0 - n as real <= 0.5
    ensures 2 * (n * t - 100 * c) <= t && 2 * (100 * c - n * t) <= t
  {
    var tr, cr := t as real, c as real;
    WithinHalf((cr / tr) * 100.0, n as real, tr, cr);
    assert (n * t) as real == n as real * tr;
    assert (100 * c) as real == 100.0 * cr;
    HalfToInt(n * t, 100 * c, t);
  }

  /** For a share between 0 and 1 the clamp changes nothing: accuracy is the
    * rounded percentage. */
  lemma AccuracyUnclamped(s: InviteSummary)
    requires s.total > 0 && 0 <= s.correct <= s.total
    ensures Accuracy(s) == MainScoring.RoundHalfEven((s.correct as real / s.total as real) * 100.0)
  {
    var x := (s.correct as real / s.total as real) * 100.0;
    ShareBounds(s.correct as real, s.total as real);
    var n := MainScoring.RoundHalfEven(x);
    assert 0.0 <= x <= 100.0;
    assert 0 <= n <= 100;
  }

  /** Two integers within half of t of each other, as reals, are within t/2
    * as integers. */
  lemma HalfToInt(a: int, b: int, t: int)
    requires -0.5 * t as real <= b as real - a as real <= 0.5 * t as real
    ensures 2 * (a - b) <= t && 2 * (b - a) <= t
  {
    assert (b - a) as real == b as real - a as real;
  }

  /** A value within a half of x, scaled by t, is within t/2 of x·t. */
  lemma WithinHalf(x: real, n: real, t: real, c: real)
    requires t > 0.0 && x == (c / t) * 100.0
    requires -0.5 <= x - n <= 0.5
    ensures -0.5 * t <= 100.0 * c - n * t <= 0.5 * t
  {
    assert (c / t) * t == c;
    assert x * t == 100.0 * c;
    var d := x - n;
    assert d * t == 100.0 * c - n * t;
    assert (0.5 - d) * t >= 0.0 by {
      NonNegFactor(0.5 - d, t);
    }
    assert (d + 0.5) * t >= 0.0 by {
      NonNegFactor(d + 0.5, t);
    }
  }

  /** 0 <= c/t <= 1 for 0 <= c <= t. */
  lemma ShareBounds(c: real, t: real)
    requires 0.0 <= c <= t && t > 0.0
    ensures 0.0 <= c / t <= 1.0
  {
    var q := c / t;
    assert q * t == c;
    NonNegFactor(q, t);
    assert (1.0 - q) * t == t - c;
    NonNegFactor(1.0 - q, t);
  }

  /** A positive factor keeps the sign. */
  lemma NonNegFactor(a: real, b: real)
    requires b > 0.0
    ensures a >= 0.0 <==> a * b >= 0.0
  {
    if a < 0.0 {
      assert a * b < 0.0 * b;
    }
  }

  /** When the percentage is a whole number in 0..100, accuracy is exactly
    * that number. */
  lemma AccuracyExact(s: InviteSummary, n: int)
    requires s.total > 0 && 0 <= n <= 100 && 100 * s.correct == n * s.total
    ensures Accuracy(s) == n
  {
    var t := s.total as real;
    var x := (s.correct as real / t) * 100.0;
    assert x * t == n as real * t;
    assert x == n as real;
    MainScoring.RoundUnique(x, n);
  }

  /** to_dict: the two fields, then the accuracy. */
  function SummaryToDict(s: InviteSummary): seq<(string, Json)> {
    [("total", JInt(s.total)), ("correct", JInt(s.correct)), ("accuracy", JInt(Accuracy(s)))]
  }

  /** The summary of 8 correct out of 10 is reported as 80 percent, and a
    * perfect 5 out of 5 as 100. */
  lemma SummaryExamples()
    ensures SummaryToDict(InviteSummary(10, 8)) == [("total", JInt(10)), ("correct", JInt(8)), ("accuracy", JInt(80))]
    ensures Accuracy(InviteSummary(5, 5)) == 100
  {
    AccuracyExact(InviteSummary(10, 8), 80);
    AccuracyExact(InviteSummary(5, 5), 100);
  }

  // ---- InviteSession -------------------------------------------------------

  datatype InviteSession = InviteSession(token: string, category: string, createdAt: int, expiresAt: int,
                                         summary: Option<InviteSummary>)

  /** is_expired: the expiry instant itself already counts as expired. */
  predicate IsExpired(s: InviteSession, reference: int) {
    reference >= s.expiresAt
  }

  /** Once expired, a session stays expired. */
  lemma ExpiredStaysExpired(s: InviteSession, reference: int, later: int)
    requires IsExpired(s, reference) && reference <= later
    ensures IsExpired(s, later)
  {
  }

  /** to_dict: token, category and the two instants through isoformat(),
    * then the summary when there is one. */
  function SessionToDict(s: InviteSession, iso: int -> string): seq<(string, Json)> {
    [("token", JStr(s.token)), ("category", JStr(s.category)),
     ("created_at", JStr(iso(s.createdAt))), ("expires_at", JStr(iso(s.expiresAt)))]
    + (if s.summary.Some? then [("summary", JObject(SummaryToDict(s.summary.value)))] else [])
  }

  /** The payload carries a summary exactly when the session has one, and
    * then the summary's own dict. */
  lemma SessionToDictSummary(s: InviteSession, iso: int -> string)
    ensures Field(SessionToDict(s, iso), "summary").Some? <==> s.summary.Some?
    ensures s.summary.Some? ==> Field(SessionToDict(s, iso), "summary") == Some(JObject(SummaryToDict(s.summary.value)))
    ensures Field(SessionToDict(s, iso), "token") == Some(JStr(s.token))
  {
    var d := SessionToDict(s, iso);
    assert d[0].0 == "token" && d[1].0 == "category" && d[2].0 == "created_at" && d[3].0 == "expires_at";
    if s.summary.Some? {
      assert d[4] == ("summary", JObject(SummaryToDict(s.summary.value)));
    }
  }

  // ---- InviteStore ---------------------------------------------------------

  /** The sessions purge_expired keeps at the given instant. */
  function Unexpired(storage: map<string, InviteSession>, now: int): (r: map<string, InviteSession>)
    ensures forall t :: t in r ==> t in storage && r[t] == storage[t] && !IsExpired(r[t], now)
  {
    map t | t in storage && !IsExpired(storage[t], now) :: storage[t]
  }

  /** Purging loses no live session: every session not expired at that
    * instant is still there. */
  lemma {:induction false} UnexpiredKeepsLive(storage: map<string, InviteSession>, now: int, t: string)
    requires t in storage && !IsExpired(storage[t], now)
    ensures t in Unexpired(storage, now) && Unexpired(storage, now)[t] == storage[t]
  {
  }

  /** Purging at an instant and then at a later one is purging at the later
    * one; in particular purging twice at once changes nothing more. */
  lemma UnexpiredLater(storage: map<string, InviteSession>, now: int, later: int)
    requires now <= later
    ensures Unexpired(Unexpired(storage, now), later) == Unexpired(storage, later)
  {
    var a := Unexpired(Unexpired(storage, now), later);
    var b := Unexpired(storage, later);
    forall t | t in b
      ensures t in a
    {
      if IsExpired(storage[t], now) {
        ExpiredStaysExpired(storage[t], now, later);
      }
    }
  }

  /** Every stored session sits under its own token and lives ttl minutes. */
  ghost predicate WellFormed(storage: map<string, InviteSession>, ttlMinutes: int) {
    forall t :: t in storage ==> storage[t].token == t && storage[t].expiresAt == storage[t].createdAt + 60 * ttlMinutes
  }

  /** InviteStore: the invite sessions by token. */
  class InviteStore {
    /** The time to live in minutes, at least one. */
    const ttlMinutes: int
    /** The entropy of a token in bytes, at least eight. */
    const tokenBytes: int
    var storage: map<string, InviteSession>

    ghost predicate Valid()
      reads this
    {
      ttlMinutes >= 1 && tokenBytes >= 8 && WellFormed(storage, ttlMinutes)
    }

    /** The settings are raised to one minute and eight bytes at least. */
    constructor(ttlMinutes: int, tokenBytes: int)
      ensures Valid() && storage == map[]
      ensures this.ttlMinutes == if ttlMinutes < 1 then 1 else ttlMinutes
      ensures this.tokenBytes == if tokenBytes < 8 then 8 else tokenBytes
    {
      this.ttlMinutes := if ttlMinutes < 1 then 1 else ttlMinutes;
      this.tokenBytes := if tokenBytes < 8 then 8 else tokenBytes;
      storage := map[];
    }

    /** create: a session for the fresh token, stored under it (replacing a
      * session with the same token) and alive until ttl minutes from now.
      * `token` is what token_urlsafe(tokenBytes) drew. */
    method Create(category: string, summary: Option<InviteSummary>, now: int, token: string)
      returns (session: InviteSession)
      requires Valid()
      modifies this
      ensures Valid()
      ensures session == InviteSession(token, category, now, now + 60 * ttlMinutes, summary)
      ensures storage == old(storage)[token := session]
      ensures !IsExpired(session, now)
    {
      session := InviteSession(token, category, now, now + 60 * ttlMinutes, summary);
      storage := storage[token := session];
    }

    /** get: None for an unknown token; an expired session is dropped and
      * None returned; otherwise the stored session, with nothing changed. */
    method Get(token: string, now: int) returns (r: Option<InviteSession>)
      requires Valid()
      modifies this
      ensures Valid()
      ensures token !in old(storage) ==> r.None? && storage == old(storage)
      ensures token in old(storage) && IsExpired(old(storage)[token], now) ==>
        r.None? && storage == old(storage) - {token}
      ensures token in old(storage) && !IsExpired(old(storage)[token], now) ==>
        r == Some(old(storage)[token]) && storage == old(storage)
      ensures r.Some? ==> r.value.token == token && !IsExpired(r.value, now)
    {
      if token !in storage {
        return None;
      }
      var session := storage[token];
      if IsExpired(session, now) {
        storage := storage - {token};
        return None;
      }
      r := Some(session);
    }

    /** expire: removes the token and returns what was stored under it. */
    method Expire(token: string) returns (r: Option<InviteSession>)
      requires Valid()
      modifies this
      ensures Valid()
      ensures r == if token in old(storage) then Some(old(storage)[token]) else None
      ensures storage == old(storage) - {token}
    {
      r := if token in storage then Some(storage[token]) else None;
      storage := storage - {token};
    }

    /** purge_expired: the tokens expired at `now` are collected first and
      * then removed one by one; exactly the live sessions remain. */
    method PurgeExpired(now: int)
      requires Valid()
      modifies this
      ensures Valid()
      ensures storage == Unexpired(old(storage), now)
    {
      var expired := set t | t in storage && IsExpired(storage[t], now);
      var remaining := expired;
      while remaining != {}
        invariant remaining <= expired
        invariant storage == old(storage) - (expired - remaining)
        invariant Valid()
        decreases remaining
      {
        var t :| t in remaining;
        storage := storage - {t};
        remaining := remaining - {t};
      }
      assert storage == Unexpired(old(storage), now);
    }
  }
}

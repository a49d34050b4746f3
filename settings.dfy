// Host-list and base-URL settings (app/settings.py). Environment values
// are parameters; URL parsing is the urlparse parameter.
module Settings {
  import opened Wrappers
  import opened Text
  import Urling

  const DefaultAllowedHosts: seq<string> :=
    ["localhost", "127.0.0.1", "localhost:8000", "127.0.0.1:8000", "0.0.0.0", "0.0.0.0:8000", "testserver"]

  const DefaultCalculateServiceUrl: string := "https://calc.360me.app"

  // ---------------------------------------------------------------- the host list

  /** The non-empty entries of a list, in order. */
  function NonEmpty(xs: seq<string>): (r: seq<string>)
    ensures forall x :: x in r <==> x in xs && x != ""
  {
    if |xs| == 0 then []
    else
      var front := NonEmpty(xs[..|xs| - 1]);
      var x := xs[|xs| - 1];
      assert xs == xs[..|xs| - 1] + [x];
      if x == "" then front else front + [x]
  }

  /** The first occurrence of each entry, in order of first occurrence. */
  function Dedup(xs: seq<string>): (r: seq<string>)
    ensures forall x :: x in r <==> x in xs
  {
    if |xs| == 0 then []
    else
      var front := Dedup(xs[..|xs| - 1]);
      var x := xs[|xs| - 1];
      assert xs == xs[..|xs| - 1] + [x];
      if x in front then front else front + [x]
  }

  predicate Distinct(xs: seq<string>) {
    forall i, j :: 0 <= i < j < |xs| ==> xs[i] != xs[j]
  }

  /** The stripped comma-separated pieces of a raw host list. */
  function Chunks(raw: string): (r: seq<string>)
    ensures |r| == |SplitOn(raw, ',')|
  {
    var pieces := SplitOn(raw, ',');
    seq(|pieces|, i requires 0 <= i < |pieces| => Strip(pieces[i]))
  }

  /** What _clean_hosts returns: ["*"] as soon as any entry is "*",
    * otherwise the distinct non-empty entries in first-occurrence order. */
  function CleanHostsOf(raw: string): seq<string> {
    if "*" in Chunks(raw) then ["*"] else Dedup(NonEmpty(Chunks(raw)))
  }

  /** _clean_hosts: one pass over the stripped pieces, stopping at a "*". */
  method CleanHosts(raw: string) returns (hosts: seq<string>)
    ensures hosts == CleanHostsOf(raw)
  {
    var chunks := Chunks(raw);
    hosts := CleanChunks(chunks);
  }

  method CleanChunks(chunks: seq<string>) returns (hosts: seq<string>)
    ensures hosts == if "*" in chunks then ["*"] else Dedup(NonEmpty(chunks))
  {
    hosts := [];
    for i := 0 to |chunks|
      invariant "*" !in chunks[..i]
      invariant hosts == Dedup(NonEmpty(chunks[..i]))
    {
      assert chunks[..i + 1] == chunks[..i] + [chunks[i]];
      var candidate := chunks[i];
      if candidate == "" {
        continue;
      }
      if candidate == "*" {
        return ["*"];
      }
      if candidate !in hosts {
        hosts := hosts + [candidate];
      }
    }
    assert chunks[..|chunks|] == chunks;
  }

  /** Dedup keeps exactly one copy of each entry. */
  lemma {:induction false} DedupDistinct(xs: seq<string>)
    ensures Distinct(Dedup(xs))
  {
    if |xs| > 0 {
      DedupDistinct(xs[..|xs| - 1]);
    }
  }

  /** Dedup lists entries in the order of their first occurrence: an earlier
    * entry occurs in the input before the later one first does. */
  lemma {:induction false} DedupOrder(xs: seq<string>, i: nat, j: nat)
    requires i < j < |Dedup(xs)|
    ensures exists p :: 0 <= p < |xs| && xs[p] == Dedup(xs)[i] && Dedup(xs)[j] !in xs[..p + 1]
  {
    var n := |xs| - 1;
    var front := xs[..n];
    var d := Dedup(xs);
    if j < |Dedup(front)| {
      DedupOrder(front, i, j);
      var p :| 0 <= p < |front| && front[p] == d[i] && d[j] !in front[..p + 1];
      assert front[..p + 1] == xs[..p + 1];
    } else {
      assert d[j] == xs[n] && xs[n] !in front;
      assert d[i] in front;
      var p :| 0 <= p < |front| && front[p] == d[i];
      assert xs[..p + 1] == front[..p + 1];
    }
  }

  /** _clean_hosts yields no empty and no repeated entry, and every
    * non-empty piece appears unless a "*" collapses the list to ["*"]. */
  lemma CleanHostsShape(raw: string)
    ensures var hosts := CleanHostsOf(raw);
      Distinct(hosts) && "" !in hosts &&
      ("*" in Chunks(raw) <==> hosts == ["*"]) &&
      ("*" !in Chunks(raw) ==> forall h :: h in hosts <==> h in Chunks(raw) && h != "")
  {
    if "*" !in Chunks(raw) {
      DedupDistinct(NonEmpty(Chunks(raw)));
      assert "*" !in CleanHostsOf(raw);
    }
  }

  /** _load_allowed_hosts: the cleaned ALLOWED_HOSTS, kept as is when it is
    * ["*"]; otherwise extended by the host of CANONICAL_BASE_URL (its netloc,
    * or its path when it has none) and then by every default host, each only
    * when not already present. */
  method LoadAllowedHosts(allowedHosts: string, canonicalBaseUrl: string, urlparse: string -> Urling.Url)
    returns (hosts: seq<string>)
    ensures CleanHostsOf(allowedHosts) == ["*"] ==> hosts == ["*"]
    ensures CleanHostsOf(allowedHosts) != ["*"] ==>
      Extends(hosts, CleanHostsOf(allowedHosts), CanonicalHost(canonicalBaseUrl, urlparse))
  {
    var declared := CleanHosts(allowedHosts);
    if declared == ["*"] {
      return declared;
    }
    CleanHostsShape(allowedHosts);
    hosts := ExtendHosts(declared, CanonicalHost(canonicalBaseUrl, urlparse));
  }

  /** The final list keeps the declared hosts in front, adds the canonical
    * host (when there is one) and every default, repeats nothing, adds
    * nothing else, and is never empty; a canonical host not declared comes
    * right after the declared ones, ahead of the defaults, and the defaults
    * not yet present follow in their own order. */
  predicate Extends(hosts: seq<string>, declared: seq<string>, canonical: string) {
    |hosts| > 0 && Distinct(hosts) && declared <= hosts &&
    (forall h :: h in DefaultAllowedHosts ==> h in hosts) &&
    (canonical != "" ==> canonical in hosts) &&
    (canonical != "" && canonical !in declared ==> |hosts| > |declared| && hosts[|declared|] == canonical) &&
    (forall h :: h in hosts ==> h in declared || h == canonical || h in DefaultAllowedHosts) &&
    hosts == WithCanonical(declared, canonical) + Absent(DefaultAllowedHosts, WithCanonical(declared, canonical))
  }

  /** No default host is listed twice. */
  lemma DefaultsDistinct(k: nat)
    requires k < |DefaultAllowedHosts|
    ensures DefaultAllowedHosts[k] !in DefaultAllowedHosts[..k]
  {
  }

  /** The declared hosts followed by the canonical host when there is one and
    * it is not declared. */
  function WithCanonical(declared: seq<string>, canonical: string): seq<string> {
    if canonical != "" && canonical !in declared then declared + [canonical] else declared
  }

  /** The entries of xs not in present, in the order of xs. */
  function Absent(xs: seq<string>, present: seq<string>): (r: seq<string>)
    ensures forall x :: x in r <==> x in xs && x !in present
  {
    if |xs| == 0 then []
    else
      var front := Absent(xs[..|xs| - 1], present);
      var x := xs[|xs| - 1];
      assert xs == xs[..|xs| - 1] + [x];
      if x in present then front else front + [x]
  }

  method ExtendHosts(declared: seq<string>, canonical: string) returns (hosts: seq<string>)
    requires Distinct(declared)
    ensures Extends(hosts, declared, canonical)
  {
    hosts := declared;
    if canonical != "" && canonical !in hosts {
      hosts := hosts + [canonical];
    }
    ghost var base := hosts;
    assert base == WithCanonical(declared, canonical);
    for k := 0 to |DefaultAllowedHosts|
      invariant hosts == base + Absent(DefaultAllowedHosts[..k], base)
    {
      var fallback := DefaultAllowedHosts[k];
      DefaultsDistinct(k);
      AbsentSnoc(DefaultAllowedHosts, k, base);
      assert fallback in hosts <==> fallback in base;
      if fallback !in hosts {
        hosts := hosts + [fallback];
      }
    }
    assert DefaultAllowedHosts[..|DefaultAllowedHosts|] == DefaultAllowedHosts;
    ExtendedShape(declared, canonical);
  }

  /** One more entry considered: it is appended exactly when not present. */
  lemma AbsentSnoc(xs: seq<string>, k: nat, present: seq<string>)
    requires k < |xs|
    ensures Absent(xs[..k + 1], present) == Absent(xs[..k], present) + (if xs[k] in present then [] else [xs[k]])
  {
    assert xs[..k + 1][..k] == xs[..k];
  }

  lemma {:induction false} AbsentDistinct(xs: seq<string>, present: seq<string>)
    requires Distinct(xs)
    ensures Distinct(Absent(xs, present))
  {
    if |xs| > 0 {
      var front := xs[..|xs| - 1];
      AbsentDistinct(front, present);
      assert xs[|xs| - 1] !in front;
    }
  }

  lemma DistinctConcat(a: seq<string>, b: seq<string>)
    requires Distinct(a) && Distinct(b) && forall x :: x in b ==> x !in a
    ensures Distinct(a + b)
  {
    forall i, j | 0 <= i < j < |a + b| ensures (a + b)[i] != (a + b)[j] {
      if i < |a| && j >= |a| {
        assert (a + b)[j] in b;
      }
    }
  }

  /** The list ExtendHosts builds has every property Extends names. */
  lemma ExtendedShape(declared: seq<string>, canonical: string)
    requires Distinct(declared)
    ensures var base := WithCanonical(declared, canonical);
      Extends(base + Absent(DefaultAllowedHosts, base), declared, canonical)
  {
    var base := WithCanonical(declared, canonical);
    var hosts := base + Absent(DefaultAllowedHosts, base);
    assert Distinct(DefaultAllowedHosts) by {
      forall i, j | 0 <= i < j < |DefaultAllowedHosts| ensures DefaultAllowedHosts[i] != DefaultAllowedHosts[j] {
        DefaultsDistinct(j);
        assert DefaultAllowedHosts[i] in DefaultAllowedHosts[..j];
      }
    }
    AbsentDistinct(DefaultAllowedHosts, base);
    if canonical != "" && canonical !in declared {
      DistinctConcat(declared, [canonical]);
    }
    DistinctConcat(base, Absent(DefaultAllowedHosts, base));
    assert DefaultAllowedHosts[0] in hosts;
    assert forall h :: h in hosts ==> h in base || h in Absent(DefaultAllowedHosts, base);
  }

  /** The host taken from CANONICAL_BASE_URL (already stripped): empty when
    * the setting is empty. */
  function CanonicalHost(canonicalBaseUrl: string, urlparse: string -> Urling.Url): string {
    if canonicalBaseUrl == "" then ""
    else
      var parsed := urlparse(canonicalBaseUrl);
      Strip(if parsed.netloc != "" then parsed.netloc else parsed.path)
  }

  // ---------------------------------------------------------------- the calculate service

  /** _resolve_calculate_service_base_url: the first of CALCULATE_SERVICE_URL
    * and CALCULATE_SERVICE_BASE_URL that is non-empty once stripped, with its
    * trailing slashes removed ("/" when nothing else is left); the default
    * otherwise. */
  function CalculateServiceBaseUrl(serviceUrl: string, serviceBaseUrl: string): (r: string)
    ensures r != ""
    ensures r == "/" || r[|r| - 1] != '/'
    ensures Strip(serviceUrl) != "" ==> SlashTrimmed(Strip(serviceUrl), r)
    ensures Strip(serviceUrl) == "" && Strip(serviceBaseUrl) != "" ==> SlashTrimmed(Strip(serviceBaseUrl), r)
    ensures Strip(serviceUrl) == "" && Strip(serviceBaseUrl) == "" ==> r == DefaultCalculateServiceUrl
  {
    var candidates := [Strip(serviceUrl), Strip(serviceBaseUrl)];
    if candidates[0] != "" then Normalized(candidates[0])
    else if candidates[1] != "" then Normalized(candidates[1])
    else DefaultCalculateServiceUrl
  }

  /** r is candidate.rstrip("/"), or "/" when that leaves nothing: a
    * candidate of slashes only gives "/", any other gives its longest prefix
    * not ending in a slash, of which only slashes were cut. */
  predicate SlashTrimmed(candidate: string, r: string) {
    if forall i :: 0 <= i < |candidate| ==> candidate[i] == '/' then r == "/"
    else
      0 < |r| <= |candidate| && r == candidate[..|r|] && r[|r| - 1] != '/' &&
      forall i :: |r| <= i < |candidate| ==> candidate[i] == '/'
  }

  /** At most one string is the trimmed form of a candidate. */
  lemma SlashTrimmedUnique(candidate: string, r1: string, r2: string)
    requires SlashTrimmed(candidate, r1) && SlashTrimmed(candidate, r2)
    ensures r1 == r2
  {
  }

  function Normalized(candidate: string): (r: string)
    ensures r != "" && SlashTrimmed(candidate, r)
  {
    var normalized := RStripChar(candidate, '/');
    if normalized == "" then
      assert forall i :: 0 <= i < |candidate| ==> candidate[i] == '/';
      "/"
    else
      assert candidate[|normalized| - 1] == normalized[|normalized| - 1];
      normalized
  }
}

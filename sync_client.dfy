// The synchronous test client (testing_utils/sync_client.py): its
// case-insensitive response headers, the choice and encoding of a request
// body, the merge of body headers into the caller's headers, and the
// redirect loop. The application, URL joining, JSON and form encoding and
// UTF-8 encoding are parameters.
module SyncClient {
  import opened Wrappers
  import Text
  import OM = OrderedMaps
  import opened JsonValues

  type byte = x: int | 0 <= x < 256

  /** A header or form pair. */
  type Pair = (string, string)

  // ---- case-insensitive lookup ---------------------------------------------

  /** The value of the last pair whose key lowers to k. */
  function LastValue(pairs: seq<Pair>, k: string): Option<string> {
    if |pairs| == 0 then None
    else if Text.Lower(pairs[|pairs| - 1].0) == k then Some(pairs[|pairs| - 1].1)
    else LastValue(pairs[..|pairs| - 1], k)
  }

  /** pairs[i] is the last pair whose key lowers to k. */
  predicate LastLowered(pairs: seq<Pair>, k: string, i: int) {
    0 <= i < |pairs| && Text.Lower(pairs[i].0) == k &&
    forall j :: i < j < |pairs| ==> Text.Lower(pairs[j].0) != k
  }

  /** A lowered key has a value iff some key lowers to it, and the value is
    * that of the last such pair. */
  lemma {:induction false} LastValueSpec(pairs: seq<Pair>, k: string)
    ensures LastValue(pairs, k).Some? <==> exists i :: 0 <= i < |pairs| && Text.Lower(pairs[i].0) == k
    ensures LastValue(pairs, k).Some? ==> exists i :: LastLowered(pairs, k, i) && pairs[i].1 == LastValue(pairs, k).value
  {
    if |pairs| > 0 {
      var front := pairs[..|pairs| - 1];
      var last := |pairs| - 1;
      if Text.Lower(pairs[last].0) == k {
        assert LastLowered(pairs, k, last);
      } else {
        LastValueSpec(front, k);
        assert forall i :: 0 <= i < |front| ==> front[i] == pairs[i];
        if LastValue(pairs, k).Some? {
          var i :| LastLowered(front, k, i) && front[i].1 == LastValue(front, k).value;
          assert LastLowered(pairs, k, i);
        }
      }
    }
  }

  /** The _lookup dict the Headers constructor fills: each pair stored
    * under its lowered key, later pairs overwriting earlier ones. */
  function LookupOf(pairs: seq<Pair>): map<string, string> {
    if |pairs| == 0 then map[]
    else LookupOf(pairs[..|pairs| - 1])[Text.Lower(pairs[|pairs| - 1].0) := pairs[|pairs| - 1].1]
  }

  /** The lookup dict holds exactly the last value of every lowered key. */
  lemma {:induction false} LookupOfLast(pairs: seq<Pair>, k: string)
    ensures k in LookupOf(pairs) <==> LastValue(pairs, k).Some?
    ensures k in LookupOf(pairs) ==> LookupOf(pairs)[k] == LastValue(pairs, k).value
  {
    if |pairs| > 0 {
      LookupOfLast(pairs[..|pairs| - 1], k);
    }
  }

  /** _lower_dict: the mapping with lowered keys; when two keys lower alike
    * the later value wins, at the place of the first. */
  function LowerDict(mapping: seq<Pair>): (r: seq<Pair>)
    ensures OM.DistinctKeys(r)
  {
    if |mapping| == 0 then []
    else
      var last := mapping[|mapping| - 1];
      OM.Put(LowerDict(mapping[..|mapping| - 1]), Text.Lower(last.0), last.1)
  }

  /** The lowered dict agrees with the case-insensitive lookup. */
  lemma {:induction false} LowerDictGet(mapping: seq<Pair>, k: string)
    ensures OM.HasKey(LowerDict(mapping), k) <==> LastValue(mapping, k).Some?
    ensures LastValue(mapping, k).Some? ==> OM.Get(LowerDict(mapping), k, "") == LastValue(mapping, k).value
  {
    if |mapping| > 0 {
      var front := mapping[..|mapping| - 1];
      var last := mapping[|mapping| - 1];
      LowerDictGet(front, k);
      var d := LowerDict(front);
      OM.GetPut(d, Text.Lower(last.0), last.1, k, "");
      if Text.Lower(last.0) != k && OM.HasKey(LowerDict(mapping), k) {
        var i :| 0 <= i < |LowerDict(mapping)| && LowerDict(mapping)[i].0 == k;
        if OM.HasKey(d, Text.Lower(last.0)) {
          assert OM.Keys(LowerDict(mapping)) == OM.Keys(d);
          assert OM.Keys(d)[i] == k;
        } else {
          assert LowerDict(mapping) == d + [(Text.Lower(last.0), last.1)];
          assert i < |d|;
        }
      }
    }
  }

  // ---- Headers ---------------------------------------------------------------

  /** The KeyError of a missing header, carrying the key as asked. */
  datatype KeyError = KeyError(key: string)

  /** Headers: the response's pairs as sent, and the lowered lookup. */
  class Headers {
    var items: seq<Pair>
    var lookup: map<string, string>

    ghost predicate Valid()
      reads this
    {
      lookup == LookupOf(items)
    }

    /** The pairs are kept in order and the lookup filled pair by pair. */
    constructor(items: seq<Pair>)
      ensures Valid() && this.items == items
    {
      this.items := items;
      var lookup: map<string, string> := map[];
      var i := 0;
      while i < |items|
        invariant 0 <= i <= |items|
        invariant lookup == LookupOf(items[..i])
      {
        assert items[..i + 1][..i] == items[..i];
        lookup := lookup[Text.Lower(items[i].0) := items[i].1];
        i := i + 1;
      }
      assert items[..|items|] == items;
      this.lookup := lookup;
    }

    /** headers[key]: the last value sent under any casing of the key, or
      * KeyError. */
    function GetItem(key: string): (r: Result<string, KeyError>)
      requires Valid()
      reads this
      ensures r.Ok? <==> LastValue(items, Text.Lower(key)).Some?
      ensures r.Ok? ==> r.value == LastValue(items, Text.Lower(key)).value
      ensures r.Err? ==> r.error == KeyError(key)
    {
      LookupOfLast(items, Text.Lower(key));
      var lowered := Text.Lower(key);
      if lowered !in lookup then Err(KeyError(key)) else Ok(lookup[lowered])
    }

    /** headers.get(key, default). */
    function Get(key: string, default: Option<string>): (r: Option<string>)
      requires Valid()
      reads this
      ensures LastValue(items, Text.Lower(key)).Some? ==> r == LastValue(items, Text.Lower(key))
      ensures LastValue(items, Text.Lower(key)).None? ==> r == default
    {
      LookupOfLast(items, Text.Lower(key));
      var lowered := Text.Lower(key);
      if lowered in lookup then Some(lookup[lowered]) else default
    }

    /** iter(headers): every key as sent, duplicates included. */
    function Keys(): (r: seq<string>)
      reads this
      ensures |r| == |items| && forall i :: 0 <= i < |r| ==> r[i] == items[i].0
    {
      seq(|items|, i reads this requires 0 <= i < |items| => items[i].0)
    }

    /** len(headers): the number of pairs, duplicates included. */
    function Length(): (n: nat)
      reads this
      ensures n == |Keys()|
    {
      |items|
    }

    /** items(): a copy of the pairs as sent. */
    function Items(): (r: seq<Pair>)
      reads this
      ensures |r| == Length() && forall i :: 0 <= i < |r| ==> r[i].0 == Keys()[i]
      ensures r == items
    {
      items
    }
  }

  // ---- request bodies ----------------------------------------------------

  /** The data argument, by the isinstance branch it takes. */
  datatype Data = NoData | RawBytes(bytes: seq<byte>) | TextData(text: string) | Form(pairs: seq<Pair>) | Unsupported

  /** The foreign encoders: str.encode("utf-8"), urlencode(..., doseq=True)
    * and json.dumps with compact separators. */
  datatype Codec = Codec(utf8: string -> seq<byte>, urlencode: seq<Pair> -> string, dumps: Json -> string)

  const FormType := "application/x-www-form-urlencoded"
  const JsonType := "application/json"

  /** The TypeError for an unsupported data value. */
  datatype TypeError = UnsupportedDataType

  /** _encode_data: no data is an empty body, bytes and text are sent as
    * they are, a mapping is form-encoded with its content type. */
  function EncodeData(data: Data, codec: Codec): (r: Result<(seq<byte>, seq<Pair>), TypeError>)
    ensures r.Err? <==> data.Unsupported?
    ensures r.Ok? && r.value.1 != [] <==> data.Form?
  {
    match data
    case NoData => Ok(([], []))
    case RawBytes(b) => Ok((b, []))
    case TextData(s) => Ok((codec.utf8(s), []))
    case Form(pairs) => Ok((codec.utf8(codec.urlencode(pairs)), [("content-type", FormType)]))
    case Unsupported => Err(UnsupportedDataType)
  }

  /** _prepare_body: a JSON body wins over raw content, which wins over
    * data. The JSON argument is absent when it is None (JNull). */
  function PrepareBody(jsonBody: Json, data: Data, content: Option<seq<byte>>, codec: Codec): (r: Result<(seq<byte>, seq<Pair>), TypeError>)
    ensures r.Err? <==> jsonBody == JNull && content.None? && data.Unsupported?
    ensures jsonBody == JNull && content.Some? ==> r == Ok((content.value, []))
  {
    if jsonBody != JNull then Ok((codec.utf8(codec.dumps(jsonBody)), [("content-type", JsonType)]))
    else if content.Some? then Ok((content.value, []))
    else EncodeData(data, codec)
  }

  /** The body headers name at most the content type, which says JSON
    * exactly when a JSON body is given and a form exactly when the data
    * mapping is used; a TypeError arises only when nothing before the data
    * applies. */
  lemma PrepareBodyPrecedence(jsonBody: Json, data: Data, content: Option<seq<byte>>, codec: Codec)
    ensures var r := PrepareBody(jsonBody, data, content, codec);
      r.Err? <==> jsonBody == JNull && content.None? && data.Unsupported?
    ensures var r := PrepareBody(jsonBody, data, content, codec);
      r.Ok? ==> |r.value.1| <= 1 && forall i :: 0 <= i < |r.value.1| ==> r.value.1[i].0 == "content-type"
    ensures var r := PrepareBody(jsonBody, data, content, codec);
      r.Ok? ==> (OM.Get(r.value.1, "content-type", "") == JsonType <==> jsonBody != JNull)
    ensures var r := PrepareBody(jsonBody, data, content, codec);
      r.Ok? ==> (OM.Get(r.value.1, "content-type", "") == FormType <==> jsonBody == JNull && content.None? && data.Form?)
    ensures jsonBody == JNull && content.Some? ==> PrepareBody(jsonBody, data, content, codec) == Ok((content.value, []))
  {
    assert JsonType != FormType;
  }

  // ---- header merge ------------------------------------------------------

  /** headers.setdefault for each body header in turn. */
  function SetDefaults(headers: seq<Pair>, bodyHeaders: seq<Pair>): (r: seq<Pair>)
    requires OM.DistinctKeys(headers)
    ensures OM.DistinctKeys(r)
  {
    if |bodyHeaders| == 0 then headers
    else
      var front := SetDefaults(headers, bodyHeaders[..|bodyHeaders| - 1]);
      var (k, v) := bodyHeaders[|bodyHeaders| - 1];
      if OM.HasKey(front, k) then front else OM.Put(front, k, v)
  }

  /** The content-length added for a non-empty body without one. */
  function WithLength(headers: seq<Pair>, body: seq<byte>): (r: seq<Pair>)
    requires OM.DistinctKeys(headers)
    ensures OM.DistinctKeys(r)
  {
    if |body| > 0 && !OM.HasKey(headers, "content-length") then OM.Put(headers, "content-length", Text.NatToString(|body|))
    else headers
  }

  /** setdefault never overrides: a caller header keeps its value, and a
    * body header is added exactly when its key is new. */
  lemma {:induction false} SetDefaultsKeeps(headers: seq<Pair>, bodyHeaders: seq<Pair>, k: string)
    requires OM.DistinctKeys(headers)
    ensures OM.HasKey(SetDefaults(headers, bodyHeaders), k) <==> OM.HasKey(headers, k) || OM.HasKey(bodyHeaders, k)
    ensures OM.HasKey(headers, k) ==> OM.Get(SetDefaults(headers, bodyHeaders), k, "") == OM.Get(headers, k, "")
  {
    if |bodyHeaders| > 0 {
      var front := bodyHeaders[..|bodyHeaders| - 1];
      var (q, v) := bodyHeaders[|bodyHeaders| - 1];
      var d := SetDefaults(headers, front);
      SetDefaultsKeeps(headers, front, k);
      assert OM.HasKey(bodyHeaders, k) <==> OM.HasKey(front, k) || q == k by {
        assert forall i :: 0 <= i < |front| ==> front[i] == bodyHeaders[i];
        if OM.HasKey(bodyHeaders, k) && q != k {
          var i :| 0 <= i < |bodyHeaders| && bodyHeaders[i].0 == k;
          assert front[i].0 == k;
        }
      }
      if !OM.HasKey(d, q) {
        OM.GetPut(d, q, v, k, "");
        if OM.HasKey(OM.Put(d, q, v), k) && q != k {
          var i :| 0 <= i < |OM.Put(d, q, v)| && OM.Put(d, q, v)[i].0 == k;
          assert i < |d| && d[i].0 == k;
        }
      }
    }
  }

  /** The merge of _perform_request: body headers by setdefault, then the
    * content length. */
  method MergeBodyHeaders(headers: seq<Pair>, body: seq<byte>, bodyHeaders: seq<Pair>) returns (merged: seq<Pair>)
    requires OM.DistinctKeys(headers)
    ensures merged == WithLength(SetDefaults(headers, bodyHeaders), body)
  {
    merged := headers;
    var i := 0;
    while i < |bodyHeaders|
      invariant 0 <= i <= |bodyHeaders|
      invariant OM.DistinctKeys(merged)
      invariant merged == SetDefaults(headers, bodyHeaders[..i])
    {
      assert bodyHeaders[..i + 1][..i] == bodyHeaders[..i];
      var (key, value) := bodyHeaders[i];
      if !OM.HasKey(merged, key) {
        merged := OM.Put(merged, key, value);
      }
      i := i + 1;
    }
    assert bodyHeaders[..|bodyHeaders|] == bodyHeaders;
    if |body| > 0 && !OM.HasKey(merged, "content-length") {
      merged := OM.Put(merged, "content-length", Text.NatToString(|body|));
    }
  }

  /** Caller headers survive the merge unchanged, and a content-length is
    * present afterwards iff one was given or the body is not empty; an
    * added one is the body's length. */
  lemma MergedHeaders(headers: seq<Pair>, body: seq<byte>, bodyHeaders: seq<Pair>, k: string)
    requires OM.DistinctKeys(headers)
    ensures var m := WithLength(SetDefaults(headers, bodyHeaders), body);
      OM.HasKey(headers, k) ==> OM.HasKey(m, k) && OM.Get(m, k, "") == OM.Get(headers, k, "")
    ensures var m := WithLength(SetDefaults(headers, bodyHeaders), body);
      OM.HasKey(m, "content-length") <==>
        OM.HasKey(headers, "content-length") || OM.HasKey(bodyHeaders, "content-length") || |body| > 0
    ensures var m := WithLength(SetDefaults(headers, bodyHeaders), body);
      |body| > 0 && !OM.HasKey(headers, "content-length") && !OM.HasKey(bodyHeaders, "content-length") ==>
        OM.Get(m, "content-length", "") == Text.NatToString(|body|)
  {
    var d := SetDefaults(headers, bodyHeaders);
    SetDefaultsKeeps(headers, bodyHeaders, k);
    SetDefaultsKeeps(headers, bodyHeaders, "content-length");
    if |body| > 0 && !OM.HasKey(d, "content-length") {
      OM.GetPut(d, "content-length", Text.NatToString(|body|), k, "");
      OM.GetPut(d, "content-length", Text.NatToString(|body|), "content-length", "");
    }
  }

  // ---- the redirect loop -------------------------------------------------

  /** What the application answered, with the URL the client reports. */
  datatype Response = Response(status: int, headers: seq<Pair>, content: seq<byte>, url: string)

  /** _REDIRECT_STATUSES. */
  predicate IsRedirect(status: int) {
    status in {301, 302, 303, 307, 308}
  }

  /** The RuntimeError after too many redirects. */
  datatype RedirectError = TooManyRedirects

  /** The response as returned: its URL is the one requested, and the
    * history is the redirects followed before it. */
  datatype Final = Final(response: Response, history: seq<Response>)

  /** Whether the loop stops at this response: not following, not a
    * redirect, or no (or an empty) location. */
  predicate Stops(r: Response, follow: bool) {
    var location := LastValue(r.headers, "location");
    !follow || !IsRedirect(r.status) || location.None? || location.value == ""
  }

  /** The loop from the given URL with `remaining` calls left and the chain
    * followed so far. */
  function Follow(app: string -> Response, join: (string, string) -> string, url: string, follow: bool,
                  remaining: nat, chain: seq<Response>): Result<Final, RedirectError>
    decreases remaining
  {
    if remaining == 0 then Err(TooManyRedirects)
    else
      var r := app(url);
      if Stops(r, follow) then Ok(Final(r.(url := url), chain))
      else Follow(app, join, join(url, LastValue(r.headers, "location").value), follow, remaining - 1, chain + [r])
  }

  /** The redirect loop of _perform_request: at most maxRedirects + 1 calls
    * of the application. `calls` counts them. */
  method PerformRedirects(app: string -> Response, join: (string, string) -> string, url: string, follow: bool,
                          maxRedirects: nat) returns (r: Result<Final, RedirectError>, calls: nat)
    ensures r == Follow(app, join, url, follow, maxRedirects + 1, [])
    ensures 1 <= calls <= maxRedirects + 1
    ensures r.Ok? ==> calls == |r.value.history| + 1
    ensures r.Err? ==> calls == maxRedirects + 1
  {
    var chain: seq<Response> := [];
    var current := url;
    var i := 0;
    while i < maxRedirects + 1
      invariant 0 <= i <= maxRedirects + 1
      invariant |chain| == i
      invariant Follow(app, join, url, follow, maxRedirects + 1, []) ==
                Follow(app, join, current, follow, maxRedirects + 1 - i, chain)
    {
      var response := app(current);
      if Stops(response, follow) {
        return Ok(Final(response.(url := current), chain)), i + 1;
      }
      chain := chain + [response];
      current := join(current, LastValue(response.headers, "location").value);
      i := i + 1;
    }
    return Err(TooManyRedirects), maxRedirects + 1;
  }

  /** The loop's history: every response in it is a followed redirect with
    * a location, it holds fewer responses than calls allowed, and the
    * final response is one the loop stops at. */
  lemma {:induction false} FollowHistory(app: string -> Response, join: (string, string) -> string, url: string,
                                         follow: bool, remaining: nat, chain: seq<Response>)
    requires forall i :: 0 <= i < |chain| ==> !Stops(chain[i], follow)
    ensures var r := Follow(app, join, url, follow, remaining, chain);
      r.Ok? ==> |chain| <= |r.value.history| < |chain| + remaining && r.value.history[..|chain|] == chain
    ensures var r := Follow(app, join, url, follow, remaining, chain);
      r.Ok? ==> Stops(r.value.response, follow) && forall i :: 0 <= i < |r.value.history| ==> !Stops(r.value.history[i], follow)
    decreases remaining
  {
    if remaining > 0 {
      var r := app(url);
      if !Stops(r, follow) {
        FollowHistory(app, join, join(url, LastValue(r.headers, "location").value), follow, remaining - 1, chain + [r]);
        var res := Follow(app, join, url, follow, remaining, chain);
        if res.Ok? {
          assert res.value.history[..|chain|] == (res.value.history[..|chain| + 1])[..|chain|];
        }
      }
    }
  }

  /** Without following, the application is called once and its answer
    * returned with no history; the RuntimeError arises only when
    * following. */
  lemma NoFollow(app: string -> Response, join: (string, string) -> string, url: string, remaining: nat)
    requires remaining > 0
    ensures Follow(app, join, url, false, remaining, []) == Ok(Final(app(url).(url := url), []))
  {
  }

  lemma {:induction false} ErrOnlyWhenFollowing(app: string -> Response, join: (string, string) -> string, url: string,
                                               follow: bool, remaining: nat, chain: seq<Response>)
    requires remaining > 0
    ensures Follow(app, join, url, follow, remaining, chain).Err? ==> follow
    decreases remaining
  {
    var r := app(url);
    if !Stops(r, follow) && remaining > 1 {
      ErrOnlyWhenFollowing(app, join, join(url, LastValue(r.headers, "location").value), follow, remaining - 1, chain + [r]);
    }
  }
}

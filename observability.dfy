// Parsing of the OTEL_EXPORTER_OTLP_HEADERS value (app/observability.py):
// a comma-separated list of key=value items. The exporter set-up around it
// is not part of this model.
module Observability {
  import opened Wrappers
  import opened Text

  /** One item of the list: skipped without "=", split at the first "="
    * only, both halves stripped, and skipped when the key is empty. */
  function ParseItem(item: string): (r: Option<(string, string)>)
    ensures r.Some? ==> '=' in item && r.value.0 != ""
  {
    if '=' !in item then None
    else
      var k := IndexOf(item, '=');
      var key, value := Strip(item[..k]), Strip(item[k + 1..]);
      if key == "" then None else Some((key, value))
  }

  /** Every item of the list, parsed. */
  function ParsedItems(items: seq<string>): (pairs: seq<Option<(string, string)>>)
    ensures |pairs| == |items| && forall i :: 0 <= i < |items| ==> pairs[i] == ParseItem(items[i])
  {
    seq(|items|, i requires 0 <= i < |items| => ParseItem(items[i]))
  }

  /** The dict filled from parsed items in order, a later item overwriting
    * an earlier one with the same key. */
  function Collect(pairs: seq<Option<(string, string)>>): map<string, string> {
    if |pairs| == 0 then map[]
    else
      var front := Collect(pairs[..|pairs| - 1]);
      match pairs[|pairs| - 1]
      case None => front
      case Some(kv) => front[kv.0 := kv.1]
  }

  /** _parse_otlp_headers, as a value. */
  function OtlpHeaders(raw: Option<string>): map<string, string> {
    if raw.None? || raw.value == "" then map[] else Collect(ParsedItems(SplitOn(raw.value, ',')))
  }

  /** _parse_otlp_headers: the dict is filled item by item. */
  method ParseOtlpHeaders(raw: Option<string>) returns (headers: map<string, string>)
    ensures headers == OtlpHeaders(raw)
    ensures raw.None? || raw.value == "" ==> headers == map[]
  {
    headers := map[];
    if raw.None? || raw.value == "" {
      return;
    }
    var items := SplitOn(raw.value, ',');
    ghost var pairs := ParsedItems(items);
    for i := 0 to |items|
      invariant headers == Collect(pairs[..i])
    {
      assert pairs[..i + 1][..i] == pairs[..i];
      var parsed := ParseItem(items[i]);
      if parsed.Some? {
        headers := headers[parsed.value.0 := parsed.value.1];
      }
    }
    assert pairs[..|items|] == pairs;
  }

  /** Whether a parsed item assigns the key. */
  predicate Assigns(pair: Option<(string, string)>, key: string) {
    pair.Some? && pair.value.0 == key
  }

  /** A key is present exactly when some item assigns it. */
  lemma {:induction false} KeyPresent(pairs: seq<Option<(string, string)>>, key: string)
    ensures key in Collect(pairs) <==> exists i :: 0 <= i < |pairs| && Assigns(pairs[i], key)
  {
    if |pairs| > 0 {
      var n := |pairs| - 1;
      var front := pairs[..n];
      KeyPresent(front, key);
      if key in Collect(pairs) && !Assigns(pairs[n], key) {
        var i :| 0 <= i < |front| && Assigns(front[i], key);
        assert pairs[i] == front[i];
      }
      if exists i :: 0 <= i < |pairs| && Assigns(pairs[i], key) {
        var i :| 0 <= i < |pairs| && Assigns(pairs[i], key);
        if i < n {
          assert front[i] == pairs[i];
        }
      }
    }
  }

  /** A present key holds the value of the last item assigning it. */
  lemma {:induction false} LastItemWins(pairs: seq<Option<(string, string)>>, key: string)
    requires key in Collect(pairs)
    ensures exists i :: 0 <= i < |pairs| && pairs[i] == Some((key, Collect(pairs)[key])) &&
                        forall j :: i < j < |pairs| ==> !Assigns(pairs[j], key)
  {
    var n := |pairs| - 1;
    var front := pairs[..n];
    var h := Collect(pairs);
    if Assigns(pairs[n], key) {
      assert pairs[n] == Some((key, h[key]));
    } else {
      LastItemWins(front, key);
      var i :| 0 <= i < |front| && front[i] == Some((key, Collect(front)[key])) &&
               forall j :: i < j < |front| ==> !Assigns(front[j], key);
      assert pairs[i] == Some((key, h[key]));
      forall j | i < j < |pairs| ensures !Assigns(pairs[j], key) {
        if j < n {
          assert pairs[j] == front[j];
        }
      }
    }
  }

  /** Only the first "=" splits an item, so a value may itself hold "=". */
  lemma SplitAtFirstEquals(key: string, value: string)
    requires '=' !in key && Strip(key) != ""
    ensures ParseItem(key + "=" + value) == Some((Strip(key), Strip(value)))
  {
    var item := key + "=" + value;
    assert item[|key|] == '=' && item[..|key|] == key;
    assert IndexOf(item, '=') == |key|;
    assert item[|key| + 1..] == value;
  }
}

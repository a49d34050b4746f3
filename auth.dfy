// Owner-key extraction from the Authorization header (app/utils/auth.py):
// the "Bearer <token>" form of section 2.1 of RFC 6750, with the scheme
// name compared case-insensitively as section 11.1 of RFC 9110 allows.
module Auth {
  import opened Wrappers
  import opened Text

  /** Why a header was refused; every refusal is a 401 whose problem type
    * ends in "unauthorized". */
  datatype AuthFailure = TokenMissing | MalformedHeader

  /** extract_owner_key, given the header value when the request has one. */
  function ExtractOwnerKey(authorization: Option<string>): (r: Result<string, AuthFailure>)
    ensures authorization.None? || authorization.value == "" ==> r == Err(TokenMissing)
    ensures r.Ok? ==> |r.value| > 0 && NoSpace(r.value)
  {
    if authorization.None? || authorization.value == "" then Err(TokenMissing)
    else
      var parts := SplitWs(Strip(authorization.value));
      if |parts| != 2 || Lower(parts[0]) != "bearer" then Err(MalformedHeader)
      else
        assert parts[1] in parts;
        StripNoSpace(parts[1]);
        if Strip(parts[1]) == "" then Err(TokenMissing)
        else Ok(Strip(parts[1]))
  }

  /** A header is accepted exactly when it splits into two words, the first
    * being "bearer" in any case; the key is then the second word, which is
    * non-empty and holds no whitespace. */
  lemma AcceptedForm(authorization: Option<string>)
    ensures var r := ExtractOwnerKey(authorization);
      (authorization.None? || authorization.value == "" ==> r == Err(TokenMissing)) &&
      (authorization.Some? && authorization.value != "" ==>
        var parts := SplitWs(Strip(authorization.value));
        (r.Ok? <==> |parts| == 2 && Lower(parts[0]) == "bearer") &&
        (r.Ok? ==> r.value == parts[1] && |r.value| > 0 && NoSpace(r.value)))
  {
    if authorization.Some? && authorization.value != "" {
      var parts := SplitWs(Strip(authorization.value));
      if |parts| == 2 && Lower(parts[0]) == "bearer" {
        assert parts[1] in parts;
        StripNoSpace(parts[1]);
      }
    }
  }

  /** A header written as some spelling of "Bearer", one space and a token
    * yields exactly that token. */
  lemma BearerRoundTrip(scheme: string, token: string)
    requires Lower(scheme) == "bearer"
    requires |token| > 0 && NoSpace(token)
    ensures ExtractOwnerKey(Some(scheme + " " + token)) == Ok(token)
  {
    assert NoSpace(scheme) by {
      forall i | 0 <= i < |scheme| ensures !IsSpace(scheme[i]) {
        assert LowerChar(scheme[i]) == "bearer"[i];
      }
    }
    var header := scheme + " " + token;
    assert header[0] == scheme[0] && header[|header| - 1] == token[|token| - 1];
    StripUntrimmed(header);
    SplitTwoWords(scheme, token);
    StripNoSpace(token);
  }
}

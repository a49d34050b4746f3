// Canonicalisation of outgoing URLs against CANONICAL_BASE_URL
// (app/urling.py). URL parsing belongs to the web framework and is a
// parameter here: it yields the components, or None where it raises.
module Urling {
  import opened Wrappers
  import opened Text

  datatype Url = Url(scheme: string, netloc: string, path: string, query: string, fragment: string)

  predicate Usable(canonicalBase: string, parse: string -> Option<Url>) {
    canonicalBase != "" && parse(canonicalBase).Some? &&
    parse(canonicalBase).value.scheme != "" && parse(canonicalBase).value.netloc != ""
  }

  /** canonicalize: keep the URL when the base is empty, does not parse, or
    * lacks a scheme or a host; otherwise move it onto the base's scheme and
    * host, under the base's path when that is more than "/": the query and
    * fragment are kept and the path ends with the original path. */
  function Canonicalize(url: Url, canonicalBase: string, parse: string -> Option<Url>): (r: Url)
    ensures (canonicalBase == "" || parse(canonicalBase).None? ||
             parse(canonicalBase).value.scheme == "" || parse(canonicalBase).value.netloc == "") ==> r == url
    ensures Usable(canonicalBase, parse) ==>
      var base := parse(canonicalBase).value;
      r.scheme == base.scheme && r.netloc == base.netloc &&
      r.query == url.query && r.fragment == url.fragment &&
      |url.path| <= |r.path| && r.path[|r.path| - |url.path|..] == url.path &&
      r.path[..|r.path| - |url.path|] == (if base.path in {"", "/"} then "" else RStripChar(base.path, '/'))
  {
    if canonicalBase == "" then url
    else
      match parse(canonicalBase)
      case None => url
      case Some(base) =>
        if base.scheme == "" || base.netloc == "" then url
        else
          var path := if base.path != "" && base.path != "/" then RStripChar(base.path, '/') + url.path else url.path;
          url.(scheme := base.scheme, netloc := base.netloc, path := path)
  }

  /** Canonicalising twice against the same base changes nothing more when
    * the base's path is empty or "/". */
  lemma IdempotentAtRoot(url: Url, canonicalBase: string, parse: string -> Option<Url>)
    requires canonicalBase != "" && parse(canonicalBase).Some? && parse(canonicalBase).value.path in {"", "/"}
    ensures var once := Canonicalize(url, canonicalBase, parse);
      Canonicalize(once, canonicalBase, parse) == once
  {
  }
}
